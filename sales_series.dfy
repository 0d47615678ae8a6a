/**
 * What both dashboards do with `formatted_output.csv` once it is read: the
 * rows with `sales` coerced to a number or missing, the daily series
 * `df.groupby("date", as_index=False)["sales"].sum().sort_values("date")`,
 * and the description of the chart drawn from it.
 */
module SalesSeries {
  import opened Wrappers
  import opened Calendar
  import opened NumberParsing

  /** A row of `formatted_output.csv` as read: `sales` still text, a region cell possibly empty. */
  datatype CsvRow = CsvRow(sales: string, date: Date, region: Option<string>)

  /** A row once `sales` is coerced: a number, or missing (NaN). */
  datatype SalesRow = SalesRow(sales: Option<real>, date: Date, region: Option<string>)

  /** What a row adds to a sum: pandas' `sum` skips missing values. */
  function Amount(r: SalesRow): real {
    r.sales.GetOr(0.0)
  }

  /** The sum of `sales` over the rows dated `d`. */
  function SumOn(rows: seq<SalesRow>, d: Date): real {
    if rows == [] then 0.0
    else (if rows[0].date == d then Amount(rows[0]) else 0.0) + SumOn(rows[1..], d)
  }

  /** The sum of `sales` over all rows. */
  function Total(rows: seq<SalesRow>): real {
    if rows == [] then 0.0 else Amount(rows[0]) + Total(rows[1..])
  }

  /** The distinct dates present in the rows. */
  function RowDates(rows: seq<SalesRow>): set<Date> {
    set r | r in rows :: r.date
  }

  // ---------- The daily series ----------

  /** One point of the daily series: a date and the total sales on it. */
  datatype DailyTotal = DailyTotal(date: Date, sales: real)

  predicate StrictlyIncreasing(series: seq<DailyTotal>) {
    forall i, j :: 0 <= i < j < |series| ==> series[i].date < series[j].date
  }

  function DatesOf(series: seq<DailyTotal>): set<Date> {
    set p | p in series :: p.date
  }

  /** The total the series shows for `d`: the sum of its points dated `d` (0 when there is none). */
  function TotalAt(series: seq<DailyTotal>, d: Date): real {
    if series == [] then 0.0
    else (if series[0].date == d then series[0].sales else 0.0) + TotalAt(series[1..], d)
  }

  function SeriesTotal(series: seq<DailyTotal>): real {
    if series == [] then 0.0 else series[0].sales + SeriesTotal(series[1..])
  }

  /** Adds `amount` to the point dated `date`, creating that point in date order if it is new. */
  function AddSale(series: seq<DailyTotal>, date: Date, amount: real): seq<DailyTotal> {
    if series == [] then [DailyTotal(date, amount)]
    else if date < series[0].date then [DailyTotal(date, amount)] + series
    else if date == series[0].date then [DailyTotal(date, series[0].sales + amount)] + series[1..]
    else [series[0]] + AddSale(series[1..], date, amount)
  }

  /** `df.groupby("date", as_index=False)["sales"].sum().sort_values("date")`. */
  function DailySales(rows: seq<SalesRow>): seq<DailyTotal> {
    if rows == [] then [] else AddSale(DailySales(rows[1..]), rows[0].date, Amount(rows[0]))
  }

  lemma {:induction false} AddSaleTotalAt(series: seq<DailyTotal>, date: Date, amount: real, d: Date)
    ensures TotalAt(AddSale(series, date, amount), d) == TotalAt(series, d) + (if d == date then amount else 0.0)
  {
    if series != [] && date > series[0].date {
      AddSaleTotalAt(series[1..], date, amount, d);
    }
  }

  lemma DatesOfCons(p: DailyTotal, series: seq<DailyTotal>)
    ensures DatesOf([p] + series) == {p.date} + DatesOf(series)
  {
    assert forall q :: q in [p] + series <==> q == p || q in series;
  }

  lemma {:induction false} AddSaleDates(series: seq<DailyTotal>, date: Date, amount: real)
    ensures DatesOf(AddSale(series, date, amount)) == DatesOf(series) + {date}
  {
    if series == [] {
      DatesOfCons(DailyTotal(date, amount), []);
    } else {
      DatesOfCons(series[0], series[1..]);
      assert series == [series[0]] + series[1..];
      if date < series[0].date {
        DatesOfCons(DailyTotal(date, amount), series);
      } else if date == series[0].date {
        DatesOfCons(DailyTotal(date, series[0].sales + amount), series[1..]);
      } else {
        AddSaleDates(series[1..], date, amount);
        DatesOfCons(series[0], AddSale(series[1..], date, amount));
      }
    }
  }

  lemma {:induction false} AddSaleSorted(series: seq<DailyTotal>, date: Date, amount: real)
    requires StrictlyIncreasing(series)
    ensures StrictlyIncreasing(AddSale(series, date, amount))
  {
    if series != [] && date > series[0].date {
      var tail := AddSale(series[1..], date, amount);
      AddSaleSorted(series[1..], date, amount);
      AddSaleDates(series[1..], date, amount);
      forall j | 0 <= j < |tail| ensures series[0].date < tail[j].date {
        assert tail[j].date in DatesOf(tail);
        if tail[j].date != date {
          var p :| p in series[1..] && p.date == tail[j].date;
          var k :| 0 <= k < |series[1..]| && series[1..][k] == p;
          assert series[k + 1] == p;
        }
      }
    }
  }

  lemma {:induction false} AddSaleSeriesTotal(series: seq<DailyTotal>, date: Date, amount: real)
    ensures SeriesTotal(AddSale(series, date, amount)) == SeriesTotal(series) + amount
  {
    if series != [] && date > series[0].date {
      AddSaleSeriesTotal(series[1..], date, amount);
    }
  }

  /** A date the series does not show has total 0. */
  lemma {:induction false} TotalAtAbsent(series: seq<DailyTotal>, d: Date)
    requires d !in DatesOf(series)
    ensures TotalAt(series, d) == 0.0
  {
    if series != [] {
      assert series[0] in series;
      assert DatesOf(series[1..]) <= DatesOf(series) by {
        assert forall p :: p in series[1..] ==> p in series;
      }
      TotalAtAbsent(series[1..], d);
    }
  }

  /** In a strictly increasing series, the total shown for a point's date is that point's total. */
  lemma {:induction false} TotalAtPoint(series: seq<DailyTotal>, i: nat)
    requires StrictlyIncreasing(series) && i < |series|
    ensures TotalAt(series, series[i].date) == series[i].sales
  {
    if i == 0 {
      assert series[0].date !in DatesOf(series[1..]) by {
        forall p | p in series[1..] ensures p.date != series[0].date {
          var k :| 0 <= k < |series[1..]| && series[1..][k] == p;
          assert series[k + 1] == p;
        }
      }
      TotalAtAbsent(series[1..], series[0].date);
    } else {
      TotalAtPoint(series[1..], i - 1);
    }
  }

  /** The series' dates are strictly increasing: each appears once, in date order. */
  lemma {:induction false} DailySalesSorted(rows: seq<SalesRow>)
    ensures StrictlyIncreasing(DailySales(rows))
  {
    if rows != [] {
      DailySalesSorted(rows[1..]);
      AddSaleSorted(DailySales(rows[1..]), rows[0].date, Amount(rows[0]));
    }
  }

  /** The series' dates are exactly the dates present in the rows. */
  lemma {:induction false} DailySalesDates(rows: seq<SalesRow>)
    ensures DatesOf(DailySales(rows)) == RowDates(rows)
  {
    if rows != [] {
      DailySalesDates(rows[1..]);
      AddSaleDates(DailySales(rows[1..]), rows[0].date, Amount(rows[0]));
      assert forall r :: r in rows <==> r == rows[0] || r in rows[1..];
    }
  }

  /** For every date, the series shows the sum of that date's sales (0 for a date with no rows). */
  lemma {:induction false} DailySalesTotalAt(rows: seq<SalesRow>, d: Date)
    ensures TotalAt(DailySales(rows), d) == SumOn(rows, d)
  {
    if rows != [] {
      DailySalesTotalAt(rows[1..], d);
      AddSaleTotalAt(DailySales(rows[1..]), rows[0].date, Amount(rows[0]), d);
    }
  }

  /** Each point's total is the sum of `sales` over the rows with that point's date. */
  lemma DailySalesPoint(rows: seq<SalesRow>, i: nat)
    requires i < |DailySales(rows)|
    ensures DailySales(rows)[i].sales == SumOn(rows, DailySales(rows)[i].date)
  {
    DailySalesSorted(rows);
    TotalAtPoint(DailySales(rows), i);
    DailySalesTotalAt(rows, DailySales(rows)[i].date);
  }

  /** The daily totals add up to the total sales of the rows: nothing is lost or counted twice. */
  lemma {:induction false} DailySalesConserves(rows: seq<SalesRow>)
    ensures SeriesTotal(DailySales(rows)) == Total(rows)
  {
    if rows != [] {
      DailySalesConserves(rows[1..]);
      AddSaleSeriesTotal(DailySales(rows[1..]), rows[0].date, Amount(rows[0]));
    }
  }

  /** No rows, no points: an empty table gives an empty series rather than an error. */
  lemma DailySalesEmpty(rows: seq<SalesRow>)
    ensures DailySales(rows) == [] <==> rows == []
  {
    DailySalesDates(rows);
    if rows != [] {
      assert rows[0].date in RowDates(rows);
    }
  }

  /** A date whose sales are all missing sums to 0 rather than to a missing value. */
  lemma {:induction false} AllMissingSumsToZero(rows: seq<SalesRow>, d: Date)
    requires forall r :: r in rows && r.date == d ==> r.sales.None?
    ensures SumOn(rows, d) == 0.0
  {
    if rows != [] {
      AllMissingSumsToZero(rows[1..], d);
    }
  }

  // ---------- The result does not depend on row order ----------

  lemma {:induction false} SumOnAppend(a: seq<SalesRow>, b: seq<SalesRow>, d: Date)
    ensures SumOn(a + b, d) == SumOn(a, d) + SumOn(b, d)
  {
    if a == [] {
      assert a + b == b;
    } else {
      assert (a + b)[1..] == a[1..] + b;
      SumOnAppend(a[1..], b, d);
    }
  }

  /** Taking out the row at `k` takes its contribution out of the sum. */
  lemma SumOnRemove(b: seq<SalesRow>, k: nat, d: Date)
    requires k < |b|
    ensures SumOn(b, d) == (if b[k].date == d then Amount(b[k]) else 0.0) + SumOn(b[..k] + b[k + 1..], d)
  {
    assert b == b[..k] + ([b[k]] + b[k + 1..]);
    SumOnAppend(b[..k], [b[k]] + b[k + 1..], d);
    SumOnAppend([b[k]], b[k + 1..], d);
    assert [b[k]][1..] == [];
    SumOnAppend(b[..k], b[k + 1..], d);
  }

  lemma MultisetRemove(a: seq<SalesRow>, b: seq<SalesRow>, k: nat)
    requires multiset(a) == multiset(b) && a != [] && k < |b| && b[k] == a[0]
    ensures multiset(a[1..]) == multiset(b[..k] + b[k + 1..])
  {
    var rest := b[..k] + b[k + 1..];
    assert a == [a[0]] + a[1..];
    assert multiset(a) == multiset{a[0]} + multiset(a[1..]);
    assert b == b[..k] + [b[k]] + b[k + 1..];
    assert multiset(b) == multiset(b[..k]) + multiset{b[k]} + multiset(b[k + 1..]);
    assert multiset(rest) == multiset(b[..k]) + multiset(b[k + 1..]);
    assert multiset(b) == multiset{a[0]} + multiset(rest);
    assert multiset(a[1..]) == multiset(a) - multiset{a[0]};
    assert multiset(rest) == multiset(b) - multiset{a[0]};
  }

  /** Reordering the rows does not change any date's sum. */
  lemma {:induction false} SumOnPermutation(a: seq<SalesRow>, b: seq<SalesRow>, d: Date)
    requires multiset(a) == multiset(b)
    ensures SumOn(a, d) == SumOn(b, d)
  {
    if a != [] {
      assert a[0] in multiset(b);
      var k :| 0 <= k < |b| && b[k] == a[0];
      MultisetRemove(a, b, k);
      SumOnPermutation(a[1..], b[..k] + b[k + 1..], d);
      SumOnRemove(b, k, d);
    }
  }

  lemma NoDatesNoPoints(s: seq<DailyTotal>)
    ensures DatesOf(s) == {} <==> s == []
  {
    if s != [] {
      assert s[0].date in DatesOf(s);
    }
  }

  /** The first point of a strictly increasing series carries its least date. */
  lemma HeadIsLeast(s: seq<DailyTotal>, d: Date)
    requires StrictlyIncreasing(s) && d in DatesOf(s)
    ensures s != [] && s[0].date <= d
  {
    var p :| p in s && p.date == d;
    var k :| 0 <= k < |s| && s[k] == p;
  }

  lemma SameHead(s: seq<DailyTotal>, t: seq<DailyTotal>)
    requires StrictlyIncreasing(s) && StrictlyIncreasing(t) && s != []
    requires DatesOf(s) == DatesOf(t)
    requires forall d :: TotalAt(s, d) == TotalAt(t, d)
    ensures t != [] && s[0] == t[0]
  {
    assert s[0].date in DatesOf(s);
    HeadIsLeast(t, s[0].date);
    assert t[0].date in DatesOf(t);
    HeadIsLeast(s, t[0].date);
    TotalAtPoint(s, 0);
    TotalAtPoint(t, 0);
  }

  /** Two strictly increasing series that show the same dates and the same total everywhere are equal. */
  lemma {:induction false} SeriesUnique(s: seq<DailyTotal>, t: seq<DailyTotal>)
    requires StrictlyIncreasing(s) && StrictlyIncreasing(t)
    requires DatesOf(s) == DatesOf(t)
    requires forall d :: TotalAt(s, d) == TotalAt(t, d)
    ensures s == t
  {
    NoDatesNoPoints(s);
    NoDatesNoPoints(t);
    if s != [] {
      SameHead(s, t);
      DatesAfterHead(s);
      DatesAfterHead(t);
      forall d ensures TotalAt(s[1..], d) == TotalAt(t[1..], d) {
        assert TotalAt(s, d) == (if s[0].date == d then s[0].sales else 0.0) + TotalAt(s[1..], d);
        assert TotalAt(t, d) == (if t[0].date == d then t[0].sales else 0.0) + TotalAt(t[1..], d);
      }
      SeriesUnique(s[1..], t[1..]);
      assert s == [s[0]] + s[1..] && t == [t[0]] + t[1..];
    }
  }

  lemma DatesAfterHead(s: seq<DailyTotal>)
    requires StrictlyIncreasing(s) && s != []
    ensures DatesOf(s[1..]) == DatesOf(s) - {s[0].date}
  {
    forall p | p in s[1..] ensures p in s && p.date != s[0].date {
      var k :| 0 <= k < |s[1..]| && s[1..][k] == p;
      assert s[k + 1] == p;
    }
    forall p | p in s && p.date != s[0].date ensures p in s[1..] {
      var k :| 0 <= k < |s| && s[k] == p;
      assert k != 0;
      assert s[1..][k - 1] == p;
    }
  }

  /** Grouping does not depend on the order of the input rows. */
  lemma DailySalesOrderIndependent(a: seq<SalesRow>, b: seq<SalesRow>)
    requires multiset(a) == multiset(b)
    ensures DailySales(a) == DailySales(b)
  {
    DailySalesSorted(a);
    DailySalesSorted(b);
    DailySalesDates(a);
    DailySalesDates(b);
    assert RowDates(a) == RowDates(b) by {
      assert forall r :: r in a <==> r in multiset(a);
      assert forall r :: r in b <==> r in multiset(b);
    }
    forall d ensures TotalAt(DailySales(a), d) == TotalAt(DailySales(b), d) {
      DailySalesTotalAt(a, d);
      DailySalesTotalAt(b, d);
      SumOnPermutation(a, b, d);
    }
    SeriesUnique(DailySales(a), DailySales(b));
  }

  /** The series reads only `date` and `sales`: tables that agree on those give the same series. */
  lemma {:induction false} DailySalesIgnoresRegion(a: seq<SalesRow>, b: seq<SalesRow>)
    requires |a| == |b|
    requires forall i :: 0 <= i < |a| ==> a[i].date == b[i].date && a[i].sales == b[i].sales
    ensures DailySales(a) == DailySales(b)
  {
    if a != [] {
      DailySalesIgnoresRegion(a[1..], b[1..]);
    }
  }

  // ---------- The chart ----------

  /** A text label placed at date `x` and at height `paperY` in paper coordinates (0 bottom, 1 top of the plot area). */
  datatype Label = Label(text: string, x: Date, paperY: real, xAnchor: string, yAnchor: string)

  /** A line chart: the points joined in order, a dashed vertical marker at `marker`, an optional text annotation. */
  datatype Chart = Chart(points: seq<DailyTotal>, marker: Date, annotation: Option<Label>)
}
