/**
 * dash_app.py: the first, static dashboard. It loads `formatted_output.csv`,
 * coerces `date` and `sales` (region names are left as read), and shows one
 * chart of total sales per day over all regions with a dashed marker at the
 * price increase.
 */
module DashApp {
  import opened Wrappers
  import opened Calendar
  import opened SalesSeries
  import AppWithButtons

  /** The column rewrites on one row: `sales` coerced, nothing else touched. */
  function CoerceRow(row: CsvRow): SalesRow {
    SalesRow(NumberParsing.ParseNumber(row.sales), row.date, row.region)
  }

  /** The table `df` after `sales` is coerced. */
  function LoadTable(raw: seq<CsvRow>): seq<SalesRow> {
    seq(|raw|, i requires 0 <= i < |raw| => CoerceRow(raw[i]))
  }

  /** `fig`: the daily series across regions, the dashed marker, no text label. */
  function Figure(df: seq<SalesRow>): Chart {
    Chart(DailySales(df), PriceIncreaseDate, None)
  }

  /**
   * Loading keeps every row in order with its date and region; a `sales`
   * value that is not a number becomes missing instead of stopping the app.
   */
  lemma LoadTableRows(raw: seq<CsvRow>, i: nat)
    requires i < |raw|
    ensures |LoadTable(raw)| == |raw|
    ensures LoadTable(raw)[i].date == raw[i].date && LoadTable(raw)[i].region == raw[i].region
    ensures LoadTable(raw)[i].sales == NumberParsing.ParseNumber(raw[i].sales)
  {
  }

  /**
   * The chart's dates strictly increase and are exactly the dates in the
   * table; each point is its date's sum over all regions; the points add up
   * to the table's total; the marker is at 2021-01-15.
   */
  lemma FigureDescribes(raw: seq<CsvRow>)
    ensures var df := LoadTable(raw);
            var c := Figure(df);
            && StrictlyIncreasing(c.points)
            && DatesOf(c.points) == RowDates(df)
            && (forall i :: 0 <= i < |c.points| ==> c.points[i].sales == SumOn(df, c.points[i].date))
            && SeriesTotal(c.points) == Total(df)
            && c.marker == PriceIncreaseDate
  {
    var df := LoadTable(raw);
    DailySalesSorted(df);
    DailySalesDates(df);
    DailySalesConserves(df);
    forall i | 0 <= i < |DailySales(df)| ensures DailySales(df)[i].sales == SumOn(df, DailySales(df)[i].date) {
      DailySalesPoint(df, i);
    }
  }

  /**
   * The series ignores region, so although this app does not normalise
   * region names, it draws the same points as the radio-button app with
   * "all" selected.
   */
  lemma SameSeriesAsAllSelection(raw: seq<CsvRow>)
    ensures Figure(LoadTable(raw)).points
         == AppWithButtons.UpdateChart(AppWithButtons.LoadTable(raw), AppWithButtons.AllValue).points
  {
    var mine, theirs := LoadTable(raw), AppWithButtons.LoadTable(raw);
    DailySalesIgnoresRegion(mine, theirs);
  }
}
