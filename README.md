# Pink morsel sales pipeline, modelled in Dafny

This project models the three Python programs of the Soul Foods "pink morsel"
sales visualiser:

- `process_data.py`: a batch step. It concatenates the daily sales files, keeps
  the rows whose product is `"pink morsel"`, and removes every `$` from the
  price. It then converts the price to a number, with an unparsable price
  aborting the whole run, as does a column that no file has. Finally it computes `sales = quantity * price` and
  keeps the columns `sales, date, region`.
- `app_withButtons.py`: a dashboard. It loads that output once, coerces
  `sales` to a number (unparsable becomes missing) and normalises region names
  (strip, then lower-case). For the selected radio value (`"all"` or one
  region) it draws the daily total sales as a line, with a marker and a label
  at the price increase of 15 January 2021.
- `dash_app.py`: the earlier single-chart dashboard. It draws the same daily
  series over all regions, with the marker but without a label.

Modules:

- `Wrappers`: `Option` and `Result`.
- `Text`: Python's `str.strip` and ASCII `str.lower`, and region normalisation.
- `NumberParsing`: the decimal grammar that `float(...)` and
  `pd.to_numeric` accept.
- `Calendar`: dates as day numbers counted from 1970-01-01; 2021-01-15 is day 18642.
- `ProcessData`: the batch step. `Prepare` is a pure specification of the
  whole run. `TargetFrame` is a columnar table whose methods rewrite its
  columns in place, in the order the script does. `RunBatch` is the script:
  a loop collecting the files, then the column rewrites, proved equal to
  `Prepare`.
- `SalesSeries`: the loaded row type and the `groupby("date").sum()
  .sort_values("date")` aggregation (`DailySales`, built by sorted insertion),
  with its properties. Also the abstract chart record.
- `AppWithButtons`: loading, the region filter, `build_figure`,
  `update_chart`, and the `Dashboard` class, which holds the selected value
  and the chart shown.
- `DashApp`: loading and the single figure.

Money is an exact `real`, and a missing number (pandas NaN) is `None`.
pandas' `sum` skips NaN, so a missing `sales` contributes `0.0` to its date.

## Model

| member | source | states |
|---|---|---|
| `ProcessData.ConcatLength` | process_data.py:8-14 | the combined table has as many rows as all files together |
| `ProcessData.ConcatAppend` | process_data.py:8-14 | concatenation follows the file order: the tables of a split file list concatenate to the two parts' tables, one after the other |
| `ProcessData.ConcatMembership` | process_data.py:8-14 | a row is in the combined table exactly when one of the files contributes it (a cell of a column its file lacks reads as missing) |
| `ProcessData.ColumnsMembership` | process_data.py:14 | the combined table has a column exactly when some file has it |
| `ProcessData.TargetRowsMembership` | process_data.py:18 | a row survives the filter exactly when it is an input row whose product is the exact string "pink morsel" |
| `ProcessData.TargetRowsAppend` | process_data.py:18 | the filter keeps relative order: it works part by part |
| `ProcessData.OtherProductsDropped` | process_data.py:18 | a row with another product, or no product, never survives |
| `ProcessData.FileWithoutProductContributesNothing` | process_data.py:9-18 | a file without a `product` column, such as an earlier `formatted_output.csv` in the same folder, contributes no row to the filtered table |
| `ProcessData.StripDollar` | process_data.py:21 | the result has no `$`, and holds every other character of the input with its multiplicity |
| `ProcessData.StripDollarAppend` | process_data.py:21 | removal is character by character, so it keeps the order of the remaining characters |
| `ProcessData.StripDollarUnchanged` | process_data.py:21 | a price without `$` is left exactly as it is |
| `ProcessData.StripPriceText` | process_data.py:21 | "$w.f" loses only its `$` |
| `ProcessData.PriceRoundTrip` | process_data.py:21-22 | a price written "$w.f" with digit strings w and f converts to exactly the decimal w.f |
| `ProcessData.CastCell` | process_data.py:22 | a convertible text cell becomes the number it parses to; a missing cell stays missing |
| `ProcessData.FirstUncastable` | process_data.py:22 | finds the first price that does not convert: every earlier one converts, and the one found does not |
| `ProcessData.SalesNonNegative` | process_data.py:26 | a non-negative quantity times a non-negative price is non-negative |
| `ProcessData.CleanPrices` | process_data.py:21 | one cell per row: the row's price text with every `$` removed, or missing when the row has no price |
| `ProcessData.PrepareFailsIff` | process_data.py:14-29 | the run fails exactly when there are no files, when no file has one of the columns `product`, `price`, `quantity`, `date`, `region`, or when some pink morsel row has a price that is not a number once its `$` are removed |
| `ProcessData.NoProductColumnFails` | process_data.py:18 | when no file has a `product` column, for example a folder holding only an earlier `formatted_output.csv`, the run stops with a missing-column error at the filter |
| `ProcessData.PrepareRows` | process_data.py:26-29 | on success there is one output row per pink morsel row, in order; date and region are copied; `sales` is present exactly when quantity and price are, and then equals quantity times the parsed price |
| `ProcessData.TargetFrame.constructor` | process_data.py:18 | the frame holds the filtered rows column by column, with the raw price text and no `sales` column yet |
| `ProcessData.TargetFrame.StripCurrencySymbols` | process_data.py:21 | rewrites the price column cell by cell with `$` removed; other columns unchanged |
| `ProcessData.TargetFrame.CastPricesToFloat` | process_data.py:22 | either reports the first price that does not convert and changes nothing, or replaces every price by its number |
| `ProcessData.TargetFrame.AddSalesColumn` | process_data.py:26 | adds `sales`, each entry quantity times price, missing when either is missing |
| `ProcessData.TargetFrame.SelectOutput` | process_data.py:29 | returns the rows `(sales, date, region)` in table order |
| `ProcessData.RunBatch` | process_data.py:8-32 | the script's loop, column checks and column rewrites produce exactly `Prepare`'s result, each failure included |
| `NumberParsing.DigitsValue` | app_withButtons.py:14 | the value of n digits is below 10^n |
| `NumberParsing.FindEither` | app_withButtons.py:14 | the first position holding either character, or the length |
| `NumberParsing.ParsedCharsAreNumeric` | app_withButtons.py:14 | text that parses as a number holds only digits, signs, `.`, `e`/`E` and blanks |
| `NumberParsing.ParsePlainDecimal` | process_data.py:22 | "w.f" with digit strings w and f parses to w plus f divided by 10 to the power of the length of f |
| `Text.LeadingSpaces` | app_withButtons.py:17 | counts exactly the blank characters at the front |
| `Text.TrailingSpaces` | app_withButtons.py:17 | counts exactly the blank characters at the back |
| `Text.StripIsMiddle` | app_withButtons.py:17 | `strip` returns the middle of the text: only blanks are cut, and it neither starts nor ends with a blank |
| `Text.StripUnchanged` | app_withButtons.py:17 | text without blanks at its ends is left as it is |
| `Text.Lower` | app_withButtons.py:17 | same length and no capital left: each capital becomes the letter 32 code points above it, every other character stays |
| `Text.LowerCharFacts` | app_withButtons.py:17 | lower-casing a character keeps blanks blank, is idempotent and leaves no capital |
| `Text.NormalisedShape` | app_withButtons.py:17 | a normalised key has no capital letter and no blank at either end |
| `Text.NormaliseRegionIdempotent` | app_withButtons.py:17 | normalising a key again gives the same key |
| `Text.NorthCapitalised` | app_withButtons.py:17 | "North" becomes "north" |
| `Text.NorthPadded` | app_withButtons.py:17 | " north " becomes "north" |
| `Text.NorthUpper` | app_withButtons.py:17 | "NORTH" becomes "north" |
| `AppWithButtons.LoadTableRows` | app_withButtons.py:13-17 | loading keeps every row in order with its date; `sales` is the parsed number or missing, never an error; the region is the stripped, lower-cased text of the cell ("nan" for an empty cell), a key that normalising again would not change |
| `AppWithButtons.RowsInRegionMembership` | app_withButtons.py:186 | a row is kept exactly when it is in the table and its region equals the value |
| `AppWithButtons.RowsInRegionAppend` | app_withButtons.py:186 | the region filter keeps relative order |
| `AppWithButtons.SelectRowsMembership` | app_withButtons.py:183-186 | "all" keeps the table unchanged; any other value keeps exactly the rows with that region |
| `AppWithButtons.UnknownRegionIsEmpty` | app_withButtons.py:186 | a value no row carries, such as "mars", selects an empty table rather than failing |
| `AppWithButtons.NonCanonicalValueSelectsNothing` | app_withButtons.py:183-186 | after loading, a value that is not a canonical key selects nothing and draws an empty line |
| `AppWithButtons.BuildFigureDescribes` | app_withButtons.py:22-51 | the chart's dates strictly increase and are exactly the rows' dates; each point is its date's sum; the points add up to the rows' total; marker at 2021-01-15, label at the top of the plot |
| `AppWithButtons.BuildFigureOfNothing` | app_withButtons.py:22-51 | no rows give no points, but the marker and the label are still there |
| `AppWithButtons.NorthScenario` | app_withButtons.py:13-28 | two loaded rows "6.0" from "North" and "3.0" from "north" on one day give the single point 9.0 on the "north" chart |
| `AppWithButtons.RegionSumsAddUp` | app_withButtons.py:183-186 | when every row lies in one of the four regions, the four regional sums of a date add up to its sum over all rows |
| `AppWithButtons.RegionChartsAddUp` | app_withButtons.py:182-188 | for every date, the "all" chart's value is the sum of the four regional charts' values |
| `AppWithButtons.Dashboard.constructor` | app_withButtons.py:153-165 | the page starts on "all", showing `build_figure` of the loaded table |
| `AppWithButtons.Dashboard.OnRegionSelected` | app_withButtons.py:182-188 | after a selection the chart is `build_figure` of the filtered table; the table itself is never changed |
| `AppWithButtons.AllSouthAll` | app_withButtons.py:153-188 | "all", then "south", then "all" again shows the same chart as at start-up |
| `SalesSeries.AddSaleTotalAt` | app_withButtons.py:24-28 | adding one sale raises its date's total by the amount and leaves other dates alone |
| `SalesSeries.AddSaleDates` | app_withButtons.py:24-28 | adding one sale adds its date to the series' dates |
| `SalesSeries.AddSaleSorted` | app_withButtons.py:24-28 | adding one sale keeps the dates strictly increasing |
| `SalesSeries.AddSaleSeriesTotal` | app_withButtons.py:24-28 | adding one sale raises the series total by the amount |
| `SalesSeries.TotalAtAbsent` | app_withButtons.py:24-28 | a date not in the series has total 0 |
| `SalesSeries.TotalAtPoint` | app_withButtons.py:24-28 | in a strictly increasing series, a date's total is the value of its single point |
| `SalesSeries.DailySalesSorted` | app_withButtons.py:24-28 | the daily series has strictly increasing, hence distinct, dates |
| `SalesSeries.DailySalesDates` | app_withButtons.py:24-28 | its dates are exactly the dates present in the rows |
| `SalesSeries.DailySalesTotalAt` | app_withButtons.py:25-26 | for every date, the series' total is the sum of `sales` over the rows with that date |
| `SalesSeries.DailySalesPoint` | app_withButtons.py:25-26 | each point's value is the sum of `sales` over the rows with its date |
| `SalesSeries.DailySalesConserves` | app_withButtons.py:25-26 | the points add up to the rows' total sales: nothing is lost or counted twice |
| `SalesSeries.DailySalesEmpty` | app_withButtons.py:24-28 | the series is empty exactly when there are no rows |
| `SalesSeries.AllMissingSumsToZero` | app_withButtons.py:25-26 | a date whose `sales` are all missing sums to 0 |
| `SalesSeries.SumOnAppend` | app_withButtons.py:25-26 | a date's sum over two parts is the sum of the parts' sums |
| `SalesSeries.SumOnRemove` | app_withButtons.py:25-26 | removing one row removes exactly its contribution |
| `SalesSeries.SumOnPermutation` | app_withButtons.py:25-26 | reordering the rows does not change any date's sum |
| `SalesSeries.SeriesUnique` | app_withButtons.py:24-28 | two strictly increasing series with the same dates and totals are equal |
| `SalesSeries.DailySalesOrderIndependent` | app_withButtons.py:24-28 | the daily series depends only on which rows there are, not on their order |
| `SalesSeries.DailySalesIgnoresRegion` | app_withButtons.py:24-28 | the daily series depends only on the rows' dates and sales, not on their regions |
| `DashApp.LoadTableRows` | dash_app.py:11-12 | loading keeps every row in order with its date and region; an unparsable `sales` becomes missing |
| `DashApp.FigureDescribes` | dash_app.py:15-38 | the series has strictly increasing dates, exactly the table's dates; each point is its date's sum; the total is conserved; the marker is at 2021-01-15 |
| `DashApp.SameSeriesAsAllSelection` | dash_app.py:15-19 | although this app does not normalise regions, it draws the same points as the radio-button app with "all" selected |

## Left out

- File input and output are not modelled. This covers `glob`, `read_csv`, `to_csv` and `print`. The input files arrive as a sequence of tables, each with its header's column names, in the order `glob` would list them.
- CSV tokenising and `pd.to_datetime` are not modelled. A date is an already parsed day number, present in every row. A file without a `date` column, beside files that have one, would give its rows a missing date in pandas; the model does not represent a missing date. When no file has a `date` column, the run fails as in pandas.
- The missing-column error names the missing columns only. pandas' KeyError message text is not modelled.
- The Dash layout, styles, `app.run` and callback dispatch are not modelled. A selection is the `Dashboard.OnRegionSelected` method call.
- Plotly's drawing, axis titles, colours and margins are not modelled. A chart is its points, the marker date and the label.
- Floating point is modelled as exact reals. Sums therefore do not depend on the order of addition, which pandas' float sums can.
- `ParseNumber` accepts blanks, an optional sign, ASCII digits with an optional fraction, and an optional exponent. It does not accept `inf`, `nan`, digit-group underscores or non-ASCII decimal digits (such as full-width digits), all of which `float(...)` accepts. `pd.to_numeric` and `astype(float)` share this one grammar here.
- `Text.Lower` lower-cases ASCII letters only. Python's `str.lower` also handles other letters.
- The product column is not kept in `TargetFrame`. Only the four columns the script later uses are kept.
- The module-level rewrites of the dashboards' `df` are a load function. In `app_withButtons.py`, the loaded table is the constant field `Dashboard.df`.
- pandas' `SettingWithCopyWarning` aliasing between `combined_df` and `pink_df` is not modelled. The model builds new columns and never changes the combined table.
- Which price cells `read_csv` reads as numbers, and hence the price column's type, is CSV parsing and is not modelled: every raw price cell is text or missing. In pandas a cell read as a number (a file writing prices without `$`) becomes missing under `.str.replace` when the combined column also holds text, so that row's `sales` is missing; and when the column holds no text at all, `.str` raises AttributeError. The `Number` case of `PriceCell` arises only after conversion.
