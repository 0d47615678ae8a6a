/**
 * app_withButtons.py: the dashboard whose radio buttons choose a region.
 * At start-up it loads `formatted_output.csv` and normalises it once
 * (`sales` coerced, region names canonical); each selection filters that
 * table, which stays as loaded, and rebuilds the chart from the filtered rows.
 */
module AppWithButtons {
  import opened Wrappers
  import opened Text
  import opened Calendar
  import opened SalesSeries

  /** The radio value that selects every row. */
  const AllValue: string := "all"

  /** The radio values that select one region. */
  const RegionValues: seq<string> := ["north", "east", "south", "west"]

  // ---------- Loading (app_withButtons.py:10-17) ----------

  /** `str(cell)`: an empty region cell reads as NaN, which prints as "nan". */
  function RegionText(cell: Option<string>): string {
    match cell
    case Some(s) => s
    case None => "nan"
  }

  /** The module-level column rewrites on one row: `sales` coerced, region stripped and lower-cased. */
  function NormaliseRow(row: CsvRow): SalesRow {
    SalesRow(NumberParsing.ParseNumber(row.sales), row.date, Some(NormaliseRegion(RegionText(row.region))))
  }

  /** The table `df` after the module-level rewrites. */
  function LoadTable(raw: seq<CsvRow>): seq<SalesRow> {
    seq(|raw|, i requires 0 <= i < |raw| => NormaliseRow(raw[i]))
  }

  /**
   * Loading keeps every row, in order, with its date; an unparsable `sales`
   * becomes missing instead of stopping the app; every region is a
   * canonical key that normalising again would not change.
   */
  lemma LoadTableRows(raw: seq<CsvRow>, i: nat)
    requires i < |raw|
    ensures |LoadTable(raw)| == |raw|
    ensures LoadTable(raw)[i].date == raw[i].date
    ensures LoadTable(raw)[i].sales == NumberParsing.ParseNumber(raw[i].sales)
    ensures LoadTable(raw)[i].region == Some(NormaliseRegion(RegionText(raw[i].region)))
    ensures NormaliseRegion(LoadTable(raw)[i].region.value) == LoadTable(raw)[i].region.value
  {
    NormaliseRegionIdempotent(RegionText(raw[i].region));
  }

  // ---------- The region filter (app_withButtons.py:182-186) ----------

  /** `df[df["region"] == region]`. */
  function RowsInRegion(df: seq<SalesRow>, region: string): seq<SalesRow> {
    if df == [] then []
    else if df[0].region == Some(region) then [df[0]] + RowsInRegion(df[1..], region)
    else RowsInRegion(df[1..], region)
  }

  /** The rows `update_chart` draws for a radio value: all of them for "all". */
  function SelectRows(df: seq<SalesRow>, selected: string): seq<SalesRow> {
    if selected == AllValue then df else RowsInRegion(df, selected)
  }

  /** A row is kept exactly when it is in the table and its region equals the value. */
  lemma {:induction false} RowsInRegionMembership(df: seq<SalesRow>, region: string, r: SalesRow)
    ensures r in RowsInRegion(df, region) <==> r in df && r.region == Some(region)
  {
    if df != [] {
      RowsInRegionMembership(df[1..], region, r);
    }
  }

  /** Filtering keeps the rows' relative order: it works part by part. */
  lemma {:induction false} RowsInRegionAppend(a: seq<SalesRow>, b: seq<SalesRow>, region: string)
    ensures RowsInRegion(a + b, region) == RowsInRegion(a, region) + RowsInRegion(b, region)
  {
    if a == [] {
      assert a + b == b;
    } else {
      assert (a + b)[1..] == a[1..] + b;
      RowsInRegionAppend(a[1..], b, region);
    }
  }

  /** "all" keeps the table as it is; any other value keeps exactly the rows carrying it as their region. */
  lemma SelectRowsMembership(df: seq<SalesRow>, selected: string, r: SalesRow)
    ensures selected == AllValue ==> SelectRows(df, selected) == df
    ensures r in SelectRows(df, selected) <==> r in df && (selected == AllValue || r.region == Some(selected))
  {
    if selected != AllValue {
      RowsInRegionMembership(df, selected, r);
    }
  }

  /** A value no row carries (say "mars") gives an empty table, not an error. */
  lemma {:induction false} UnknownRegionIsEmpty(df: seq<SalesRow>, region: string)
    requires forall r :: r in df ==> r.region != Some(region)
    ensures RowsInRegion(df, region) == []
  {
    if df != [] {
      assert df[0] in df;
      UnknownRegionIsEmpty(df[1..], region);
    }
  }

  /**
   * Region keys are canonical after loading, so a value that is not
   * canonical ("North", " south") selects nothing and draws an empty line.
   */
  lemma NonCanonicalValueSelectsNothing(raw: seq<CsvRow>, selected: string)
    requires selected != AllValue && NormaliseRegion(selected) != selected
    ensures SelectRows(LoadTable(raw), selected) == []
    ensures UpdateChart(LoadTable(raw), selected).points == []
  {
    var df := LoadTable(raw);
    forall r | r in df ensures r.region != Some(selected) {
      var i :| 0 <= i < |df| && df[i] == r;
      LoadTableRows(raw, i);
    }
    UnknownRegionIsEmpty(df, selected);
  }

  // ---------- The chart (app_withButtons.py:19-61) ----------

  /** The label beside the marker: left-anchored at the marker, its bottom at the top of the plot area. */
  const PriceIncreaseLabel: Label := Label("Price increase (15 Jan 2021)", PriceIncreaseDate, 1.0, "left", "bottom")

  /** `build_figure`: the daily series, the dashed marker at 2021-01-15 and its label. */
  function BuildFigure(filtered: seq<SalesRow>): Chart {
    Chart(DailySales(filtered), PriceIncreaseDate, Some(PriceIncreaseLabel))
  }

  /** `update_chart`. */
  function UpdateChart(df: seq<SalesRow>, selected: string): Chart {
    BuildFigure(SelectRows(df, selected))
  }

  /**
   * The chart of any rows: its dates strictly increase and are exactly the
   * rows' dates, each point is its date's sum; the marker sits at 2021-01-15
   * and the label at the top of the plot area whatever the data.
   */
  lemma BuildFigureDescribes(filtered: seq<SalesRow>)
    ensures var c := BuildFigure(filtered);
            && StrictlyIncreasing(c.points)
            && DatesOf(c.points) == RowDates(filtered)
            && (forall i :: 0 <= i < |c.points| ==> c.points[i].sales == SumOn(filtered, c.points[i].date))
            && SeriesTotal(c.points) == Total(filtered)
            && c.marker == PriceIncreaseDate
            && c.annotation.Some? && c.annotation.value.x == c.marker && c.annotation.value.paperY == 1.0
  {
    DailySalesSorted(filtered);
    DailySalesDates(filtered);
    DailySalesConserves(filtered);
    forall i | 0 <= i < |DailySales(filtered)|
      ensures DailySales(filtered)[i].sales == SumOn(filtered, DailySales(filtered)[i].date)
    {
      DailySalesPoint(filtered, i);
    }
  }

  /** No rows to draw gives a chart with no points that still has its marker and label. */
  lemma BuildFigureOfNothing(filtered: seq<SalesRow>)
    requires filtered == []
    ensures BuildFigure(filtered).points == []
    ensures BuildFigure(filtered).marker == PriceIncreaseDate
    ensures BuildFigure(filtered).annotation == Some(PriceIncreaseLabel)
  {
    DailySalesEmpty(filtered);
  }

  /** "w.0" with a single digit w reads as that digit. */
  lemma ParseWholeNumber(w: string)
    requires |w| == 1 && NumberParsing.IsDigit(w[0])
    ensures NumberParsing.ParseNumber(w + ".0") == Some((w[0] as int - '0' as int) as real)
  {
    assert NumberParsing.AllDigits(w) && NumberParsing.AllDigits("0");
    NumberParsing.ParsePlainDecimal(w, "0");
    assert w + "." + "0" == w + ".0";
    assert NumberParsing.DigitsValue("0") == 0 by {
      assert "0"[..0] == "";
    }
    assert NumberParsing.DigitsValue(w) == w[0] as int - '0' as int by {
      assert w[..0] == "";
    }
  }

  /** Loading two rows whose sales texts read as `v1`, `v2` and whose regions normalise to `key`. */
  lemma LoadTwoRows(s1: string, s2: string, v1: real, v2: real, d: Date, r1: string, r2: string, key: string)
    requires NumberParsing.ParseNumber(s1) == Some(v1) && NormaliseRegion(r1) == key
    requires NumberParsing.ParseNumber(s2) == Some(v2) && NormaliseRegion(r2) == key
    ensures LoadTable([CsvRow(s1, d, Some(r1)), CsvRow(s2, d, Some(r2))])
         == [SalesRow(Some(v1), d, Some(key)), SalesRow(Some(v2), d, Some(key))]
  {
  }

  /** A "North" row and a "north" row load to two rows of region "north". */
  lemma LoadNorthRows(d: Date)
    ensures LoadTable([CsvRow("6.0", d, Some("North")), CsvRow("3.0", d, Some("north"))])
         == [SalesRow(Some(6.0), d, Some("north")), SalesRow(Some(3.0), d, Some("north"))]
  {
    assert "6" + ".0" == "6.0";
    ParseWholeNumber("6");
    assert "3" + ".0" == "3.0";
    ParseWholeNumber("3");
    NorthCapitalised();
    NormaliseRegionIdempotent("North");
    LoadTwoRows("6.0", "3.0", 6.0, 3.0, d, "North", "north", "north");
  }

  /** Two "north" sales on one day give one point on the "north" chart: their sum. */
  lemma NorthChartOfTwo(d: Date, a: real, b: real)
    ensures UpdateChart([SalesRow(Some(a), d, Some("north")), SalesRow(Some(b), d, Some("north"))], "north").points
         == [DailyTotal(d, a + b)]
  {
    var north := [SalesRow(Some(a), d, Some("north")), SalesRow(Some(b), d, Some("north"))];
    assert RowsInRegion(north, "north") == north by {
      var last := [north[1]];
      assert north[1..] == last;
      assert last[1..] == [];
      assert RowsInRegion(last, "north") == last;
    }
    assert DailySales(north) == [DailyTotal(d, a + b)] by {
      assert north[1..] == [north[1]];
      assert DailySales([north[1]]) == [DailyTotal(d, b)];
    }
  }

  /** Two sales on one day, one from "North" and one from "north", both count towards "north". */
  lemma NorthScenario(d: Date)
    ensures var df := LoadTable([CsvRow("6.0", d, Some("North")), CsvRow("3.0", d, Some("north"))]);
            UpdateChart(df, "north").points == [DailyTotal(d, 9.0)]
  {
    LoadNorthRows(d);
    NorthChartOfTwo(d, 6.0, 3.0);
  }

  // ---------- The four regions partition "all" ----------

  predicate InKnownRegion(r: SalesRow) {
    r.region == Some("north") || r.region == Some("east") || r.region == Some("south") || r.region == Some("west")
  }

  /** When every row is in one of the four regions, the four regional sums of a date add up to its overall sum. */
  lemma {:induction false} RegionSumsAddUp(df: seq<SalesRow>, d: Date)
    requires forall r :: r in df ==> InKnownRegion(r)
    ensures SumOn(df, d) == SumOn(RowsInRegion(df, "north"), d) + SumOn(RowsInRegion(df, "east"), d)
                          + SumOn(RowsInRegion(df, "south"), d) + SumOn(RowsInRegion(df, "west"), d)
  {
    if df != [] {
      assert df[0] in df;
      RegionSumsAddUp(df[1..], d);
    }
  }

  /**
   * ... so for every date the "all" chart shows the sum of what the four
   * regional charts show.
   */
  lemma RegionChartsAddUp(df: seq<SalesRow>, d: Date)
    requires forall r :: r in df ==> InKnownRegion(r)
    ensures TotalAt(UpdateChart(df, AllValue).points, d)
         == TotalAt(UpdateChart(df, "north").points, d) + TotalAt(UpdateChart(df, "east").points, d)
          + TotalAt(UpdateChart(df, "south").points, d) + TotalAt(UpdateChart(df, "west").points, d)
  {
    RegionSumsAddUp(df, d);
    DailySalesTotalAt(df, d);
    DailySalesTotalAt(RowsInRegion(df, "north"), d);
    DailySalesTotalAt(RowsInRegion(df, "east"), d);
    DailySalesTotalAt(RowsInRegion(df, "south"), d);
    DailySalesTotalAt(RowsInRegion(df, "west"), d);
  }

  // ---------- The callback (app_withButtons.py:144-188) ----------

  /** The page's state: the loaded table, the selected radio value and the chart shown. */
  class Dashboard {
    /** The normalised table; no callback changes it. */
    const df: seq<SalesRow>
    var selection: string
    var figure: Chart

    /** The chart shown is always the chart of the selected value. */
    ghost predicate Valid()
      reads this
    {
      figure == UpdateChart(df, selection)
    }

    /** Start-up: load and normalise, select "All", draw `build_figure(df)`. */
    constructor (raw: seq<CsvRow>)
      ensures Valid()
      ensures df == LoadTable(raw) && selection == AllValue && figure == BuildFigure(df)
    {
      var table := LoadTable(raw);
      df := table;
      selection := AllValue;
      figure := BuildFigure(table);
    }

    /** A click on a radio button: the value and the chart change together. */
    method OnRegionSelected(value: string)
      modifies this
      ensures Valid()
      ensures selection == value && figure == UpdateChart(df, value)
    {
      selection := value;
      figure := UpdateChart(df, value);
    }
  }

  /** Selecting "all", then "south", then "all" again shows the chart the page started with. */
  method AllSouthAll(raw: seq<CsvRow>) returns (initial: Chart, final: Chart)
    ensures initial == final == BuildFigure(LoadTable(raw))
  {
    var page := new Dashboard(raw);
    initial := page.figure;
    page.OnRegionSelected(AllValue);
    page.OnRegionSelected("south");
    page.OnRegionSelected(AllValue);
    final := page.figure;
  }
}
