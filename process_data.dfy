/**
 * The batch step of process_data.py: concatenate the raw sales files, keep
 * the pink morsel rows, turn the "$3.50" price strings into numbers, derive
 * `sales = quantity * price` and keep the columns `sales, date, region`.
 * A missing cell (pandas' NaN, for example the `product` of a row that came
 * from an earlier `formatted_output.csv`) is `None`.
 */
module ProcessData {
  import opened Wrappers
  import opened NumberParsing
  import opened Calendar

  /** The only product the output keeps; compared exactly, case included. */
  const TargetProduct: string := "pink morsel"

  /** One row of a raw sales file; an empty cell is `None`. */
  datatype RawRow = RawRow(product: Option<string>, region: Option<string>, date: Date,
                           quantity: Option<int>, price: Option<string>)

  /** A file as `read_csv` returns it: the column names of its header, and its rows. */
  datatype RawFile = RawFile(columns: set<string>, rows: seq<RawRow>)

  /** One row of `formatted_output.csv`: the columns `sales, date, region`, in that order. */
  datatype PreparedRow = PreparedRow(sales: Option<real>, date: Date, region: Option<string>)

  /** Why the script stops without writing anything. */
  datatype BatchError =
    | NoObjectsToConcatenate              // `pd.concat` of an empty list: no csv file was found
    | MissingColumns(names: seq<string>)  // a KeyError: no file has these columns
    | CouldNotConvertToFloat(text: string) // `astype(float)` met a price that is not a number

  /** A cell of the `price` column, which is first text and later a number. */
  datatype PriceCell = Text(text: string) | Number(value: real) | Missing

  // ---------- Concatenation (process_data.py:8-14) ----------

  /** A row of a file as it sits in the combined table: a column the file lacks reads as missing. */
  function Conform(columns: set<string>, r: RawRow): RawRow {
    RawRow(if "product" in columns then r.product else None,
           if "region" in columns then r.region else None,
           r.date,
           if "quantity" in columns then r.quantity else None,
           if "price" in columns then r.price else None)
  }

  /** The rows a file contributes to the combined table. */
  function FileRows(f: RawFile): seq<RawRow> {
    seq(|f.rows|, i requires 0 <= i < |f.rows| => Conform(f.columns, f.rows[i]))
  }

  /** `pd.concat(dfs, ignore_index=True)`: the rows of every file, file after file. */
  function Concat(files: seq<RawFile>): seq<RawRow> {
    if files == [] then [] else FileRows(files[0]) + Concat(files[1..])
  }

  /** The columns of the combined table: every column some file has. */
  function Columns(files: seq<RawFile>): set<string> {
    if files == [] then {} else files[0].columns + Columns(files[1..])
  }

  function TotalRows(files: seq<RawFile>): nat {
    if files == [] then 0 else |files[0].rows| + TotalRows(files[1..])
  }

  /** The combined table is as long as all input files together. */
  lemma {:induction false} ConcatLength(files: seq<RawFile>)
    ensures |Concat(files)| == TotalRows(files)
  {
    if files != [] {
      ConcatLength(files[1..]);
    }
  }

  /** Concatenation keeps file order: the rows of earlier files come first. */
  lemma {:induction false} ConcatAppend(a: seq<RawFile>, b: seq<RawFile>)
    ensures Concat(a + b) == Concat(a) + Concat(b)
  {
    if a == [] {
      assert a + b == b;
    } else {
      assert (a + b)[1..] == a[1..] + b;
      ConcatAppend(a[1..], b);
    }
  }

  /** A row is in the combined table exactly when one of the files contributes it. */
  lemma {:induction false} ConcatMembership(files: seq<RawFile>, r: RawRow)
    ensures r in Concat(files) <==> exists f :: f in files && r in FileRows(f)
  {
    if files != [] {
      ConcatMembership(files[1..], r);
      assert forall f :: f in files <==> f == files[0] || f in files[1..];
    }
  }

  /** The combined table has a column exactly when some file has it. */
  lemma {:induction false} ColumnsMembership(files: seq<RawFile>, c: string)
    ensures c in Columns(files) <==> exists f :: f in files && c in f.columns
  {
    if files != [] {
      ColumnsMembership(files[1..], c);
      assert forall f :: f in files <==> f == files[0] || f in files[1..];
    }
  }

  // ---------- Product filter (process_data.py:18) ----------

  predicate IsTarget(r: RawRow) {
    r.product == Some(TargetProduct)
  }

  /** `combined_df[combined_df["product"] == "pink morsel"]`. */
  function TargetRows(rows: seq<RawRow>): seq<RawRow> {
    if rows == [] then []
    else if IsTarget(rows[0]) then [rows[0]] + TargetRows(rows[1..])
    else TargetRows(rows[1..])
  }

  /** A row survives the filter exactly when it is a row of the input whose product is "pink morsel". */
  lemma {:induction false} TargetRowsMembership(rows: seq<RawRow>, r: RawRow)
    ensures r in TargetRows(rows) <==> r in rows && IsTarget(r)
  {
    if rows != [] {
      TargetRowsMembership(rows[1..], r);
    }
  }

  /** Filtering a concatenation filters each part and keeps their order. */
  lemma {:induction false} TargetRowsAppend(a: seq<RawRow>, b: seq<RawRow>)
    ensures TargetRows(a + b) == TargetRows(a) + TargetRows(b)
  {
    if a == [] {
      assert a + b == b;
    } else {
      assert (a + b)[1..] == a[1..] + b;
      TargetRowsAppend(a[1..], b);
    }
  }

  /** Rows without a product, or with any other spelling of it, never reach the output. */
  lemma OtherProductsDropped(rows: seq<RawRow>, r: RawRow)
    requires r.product.None? || r.product.value != TargetProduct
    ensures r !in TargetRows(rows)
  {
    TargetRowsMembership(rows, r);
  }

  /**
   * A file without a `product` column, such as an earlier
   * `formatted_output.csv` in the same folder, contributes no row to the
   * filtered table, whatever its rows hold.
   */
  lemma {:induction false} FileWithoutProductContributesNothing(f: RawFile)
    requires "product" !in f.columns
    ensures TargetRows(FileRows(f)) == []
  {
    var rows := FileRows(f);
    if TargetRows(rows) != [] {
      var r := TargetRows(rows)[0];
      TargetRowsMembership(rows, r);
      assert false;
    }
  }

  // ---------- Price preparation (process_data.py:21-22) ----------

  /** `str.replace("$", "", regex=False)`: every '$' removed, everything else kept in order. */
  function StripDollar(s: string): (r: string)
    ensures forall i :: 0 <= i < |r| ==> r[i] != '$'
    ensures multiset(r) == multiset(s)['$' := 0]
  {
    if s == [] then ""
    else
      var rest := StripDollar(s[1..]);
      assert s == [s[0]] + s[1..];
      if s[0] == '$' then rest else [s[0]] + rest
  }

  /** Stripping works piecewise, so the characters that remain keep their order. */
  lemma {:induction false} StripDollarAppend(a: string, b: string)
    ensures StripDollar(a + b) == StripDollar(a) + StripDollar(b)
  {
    if a == [] {
      assert a + b == b;
    } else {
      assert (a + b)[1..] == a[1..] + b;
      StripDollarAppend(a[1..], b);
    }
  }

  /** A string without '$' is left unchanged; in particular stripping twice is stripping once. */
  lemma {:induction false} StripDollarUnchanged(s: string)
    requires forall i :: 0 <= i < |s| ==> s[i] != '$'
    ensures StripDollar(s) == s
  {
    if s != [] {
      StripDollarUnchanged(s[1..]);
    }
  }

  /** Stripping "$w.f" leaves "w.f" when w and f are digit strings. */
  lemma {:induction false} StripPriceText(whole: string, frac: string)
    requires AllDigits(whole) && AllDigits(frac)
    ensures StripDollar("$" + whole + "." + frac) == whole + "." + frac
  {
    var body := whole + "." + frac;
    assert "$" + whole + "." + frac == "$" + body;
    forall i | 0 <= i < |body| ensures body[i] != '$' {
      if i < |whole| {
        assert body[i] == whole[i];
      } else if i > |whole| {
        assert body[i] == frac[i - |whole| - 1];
      }
    }
    StripDollarAppend("$", body);
    StripDollarUnchanged(body);
    assert StripDollar("$") == "";
    assert "" + body == body;
  }

  /**
   * A price written the way the raw files write it, "$" then digits, '.' and
   * digits, is read back as exactly the decimal those digits spell.
   */
  lemma {:induction false} PriceRoundTrip(whole: string, frac: string)
    requires |whole| > 0 && AllDigits(whole) && AllDigits(frac)
    ensures ParseNumber(StripDollar("$" + whole + "." + frac))
         == Some(DigitsValue(whole) as real + DigitsValue(frac) as real / Pow10(|frac|) as real)
  {
    StripPriceText(whole, frac);
    ParsePlainDecimal(whole, frac);
  }

  /** The `price` cell as read from a file: text, or missing. */
  function RawPriceCell(p: Option<string>): PriceCell {
    match p
    case Some(s) => Text(s)
    case None => Missing
  }

  /** `.str.replace("$", "")` on one cell: a missing cell stays missing. */
  function StripCell(c: PriceCell): PriceCell {
    match c
    case Text(s) => Text(StripDollar(s))
    case _ => c
  }

  /** `astype(float)` succeeds on the cell. */
  predicate Castable(c: PriceCell) {
    !c.Text? || ParseNumber(c.text).Some?
  }

  /** `astype(float)` on one cell; a missing cell stays missing (NaN). */
  function CastCell(c: PriceCell): (r: PriceCell)
    requires Castable(c)
    ensures !r.Text?
    ensures c.Text? ==> r == Number(ParseNumber(c.text).value)
    ensures !c.Text? ==> r == c
  {
    match c
    case Text(s) => Number(ParseNumber(s).value)
    case _ => c
  }

  /** The first cell `astype(float)` fails on, or the length when there is none. */
  function FirstUncastable(cells: seq<PriceCell>): (k: nat)
    ensures k <= |cells|
    ensures forall i :: 0 <= i < k ==> Castable(cells[i])
    ensures k < |cells| ==> !Castable(cells[k])
  {
    if cells == [] then 0
    else if !Castable(cells[0]) then 0
    else
      var rest := FirstUncastable(cells[1..]);
      assert forall i :: 1 <= i < 1 + rest ==> cells[i] == cells[1..][i - 1];
      1 + rest
  }

  // ---------- Sales (process_data.py:26) ----------

  /** Quantity times unit price. */
  function Revenue(quantity: int, price: real): real {
    quantity as real * price
  }

  /** `quantity * price` on one row; a missing operand gives a missing product. */
  function SalesOf(quantity: Option<int>, price: PriceCell): Option<real> {
    match (quantity, price)
    case (Some(q), Number(p)) => Some(Revenue(q, p))
    case _ => None
  }

  /** Non-negative quantity and price give non-negative sales. */
  lemma SalesNonNegative(q: int, p: real)
    requires q >= 0 && p >= 0.0
    ensures Revenue(q, p) >= 0.0
  {
  }

  // ---------- The whole batch (process_data.py:8-32) ----------

  /** The price column of the filtered table once every '$' is gone. */
  function CleanPrices(rows: seq<RawRow>): (prices: seq<PriceCell>)
    ensures |prices| == |rows|
    ensures forall i :: 0 <= i < |rows| ==>
              prices[i] == (if rows[i].price.Some? then Text(StripDollar(rows[i].price.value)) else Missing)
  {
    seq(|rows|, i requires 0 <= i < |rows| => StripCell(RawPriceCell(rows[i].price)))
  }

  /** The output columns `pink_df[["sales", "date", "region"]]` cannot find; `sales` always exists by then. */
  function OutputColumnsMissing(columns: set<string>): seq<string> {
    (if "date" in columns then [] else ["date"]) + (if "region" in columns then [] else ["region"])
  }

  /**
   * What the script writes to `formatted_output.csv`, or why it stops first,
   * checking in the order the script reaches each step. Nothing is written
   * on failure: the exception ends the script before `to_csv`.
   */
  function Prepare(files: seq<RawFile>): Result<seq<PreparedRow>, BatchError> {
    var columns := Columns(files);
    if |files| == 0 then Failure(NoObjectsToConcatenate)
    else if "product" !in columns then Failure(MissingColumns(["product"]))
    else if "price" !in columns then Failure(MissingColumns(["price"]))
    else
      var rows := TargetRows(Concat(files));
      var prices := CleanPrices(rows);
      var k := FirstUncastable(prices);
      if k < |prices| then Failure(CouldNotConvertToFloat(prices[k].text))
      else if "quantity" !in columns then Failure(MissingColumns(["quantity"]))
      else if OutputColumnsMissing(columns) != [] then Failure(MissingColumns(OutputColumnsMissing(columns)))
      else
        Success(seq(|rows|, i requires 0 <= i < |rows| =>
                  PreparedRow(SalesOf(rows[i].quantity, CastCell(prices[i])), rows[i].date, rows[i].region)))
  }

  /**
   * The batch fails exactly when there are no files, when no file has one of
   * the columns the script reads, or when some surviving row has a price
   * that is not a number once its '$' signs are removed.
   */
  lemma PrepareFailsIff(files: seq<RawFile>)
    ensures Prepare(files).Failure? <==>
              || |files| == 0
              || (exists c :: c in ["product", "price", "quantity", "date", "region"] && c !in Columns(files))
              || exists r :: r in TargetRows(Concat(files)) && r.price.Some?
                             && ParseNumber(StripDollar(r.price.value)).None?
  {
    var columns := Columns(files);
    NeededColumns(columns);
    if |files| > 0 && "product" in columns && "price" in columns {
      var rows := TargetRows(Concat(files));
      var prices := CleanPrices(rows);
      var k := FirstUncastable(prices);
      if k < |prices| {
        assert rows[k] in rows && rows[k].price.Some?;
      } else {
        forall r | r in rows && r.price.Some?
          ensures ParseNumber(StripDollar(r.price.value)).Some?
        {
          var i :| 0 <= i < |rows| && rows[i] == r;
          assert Castable(prices[i]);
        }
      }
    }
  }

  /** The five columns the script reads are all there exactly when none of its column checks fails. */
  lemma NeededColumns(columns: set<string>)
    ensures (forall c :: c in ["product", "price", "quantity", "date", "region"] ==> c in columns)
        <==> "product" in columns && "price" in columns && "quantity" in columns
             && OutputColumnsMissing(columns) == []
  {
    var needed := ["product", "price", "quantity", "date", "region"];
    if "product" in columns && "price" in columns && "quantity" in columns
       && OutputColumnsMissing(columns) == [] {
      assert "date" in columns && "region" in columns;
      forall c | c in needed ensures c in columns {
      }
    }
  }

  /**
   * Files that all lack the `product` column, such as an earlier
   * `formatted_output.csv` left alone in the folder, stop the script at the
   * filter with a KeyError.
   */
  lemma NoProductColumnFails(files: seq<RawFile>)
    requires |files| > 0
    requires forall f :: f in files ==> "product" !in f.columns
    ensures Prepare(files) == Failure(MissingColumns(["product"]))
  {
    ColumnsMembership(files, "product");
  }

  /**
   * On success there is one output row per pink morsel row, in the same
   * order; date and region are copied and sales is quantity times the
   * parsed price (missing when either is missing).
   */
  lemma {:induction false} PrepareRows(files: seq<RawFile>, i: nat)
    requires Prepare(files).Success?
    requires i < |TargetRows(Concat(files))|
    ensures var rows := TargetRows(Concat(files));
            var out := Prepare(files).value;
            && |out| == |rows|
            && out[i].date == rows[i].date
            && out[i].region == rows[i].region
            && (out[i].sales.Some? <==> rows[i].quantity.Some? && rows[i].price.Some?)
    ensures var r := TargetRows(Concat(files))[i];
            r.price.Some? ==> ParseNumber(StripDollar(r.price.value)).Some?
    ensures var r := TargetRows(Concat(files))[i];
            var out := Prepare(files).value;
            r.quantity.Some? && r.price.Some? ==>
              out[i].sales == Some(Revenue(r.quantity.value, ParseNumber(StripDollar(r.price.value)).value))
  {
    var rows := TargetRows(Concat(files));
    var prices := CleanPrices(rows);
    var out := seq(|rows|, i requires 0 <= i < |rows| =>
                   PreparedRow(SalesOf(rows[i].quantity, CastCell(prices[i])), rows[i].date, rows[i].region));
    assert "product" in Columns(files) && "price" in Columns(files);
    assert FirstUncastable(prices) == |prices|;
    assert Prepare(files) == Success(out);
    var r := rows[i];
    if r.price.Some? {
      assert prices[i] == Text(StripDollar(r.price.value));
    }
    assert Castable(prices[i]);
    assert out[i] == PreparedRow(SalesOf(rows[i].quantity, CastCell(prices[i])), rows[i].date, rows[i].region);
  }

  // ---------- The script, step by step ----------

  /** `pink_df`: the filtered table, held column by column as pandas holds it. */
  class TargetFrame {
    var region: seq<Option<string>>
    var date: seq<Date>
    var quantity: seq<Option<int>>
    var price: seq<PriceCell>
    /** The `sales` column, absent until `AddSalesColumn`. */
    var sales: Option<seq<Option<real>>>

    ghost predicate Valid()
      reads this
    {
      && |date| == |region| && |quantity| == |region| && |price| == |region|
      && (sales.Some? ==> |sales.value| == |region|)
    }

    /** The columns of the rows that passed the product filter. */
    constructor (rows: seq<RawRow>)
      ensures Valid() && |region| == |rows| && sales == None
      ensures forall i :: 0 <= i < |rows| ==>
                && region[i] == rows[i].region && date[i] == rows[i].date
                && quantity[i] == rows[i].quantity && price[i] == RawPriceCell(rows[i].price)
    {
      region := seq(|rows|, i requires 0 <= i < |rows| => rows[i].region);
      date := seq(|rows|, i requires 0 <= i < |rows| => rows[i].date);
      quantity := seq(|rows|, i requires 0 <= i < |rows| => rows[i].quantity);
      price := seq(|rows|, i requires 0 <= i < |rows| => RawPriceCell(rows[i].price));
      sales := None;
    }

    /** `pink_df["price"] = pink_df["price"].str.replace("$", "", regex=False)`. */
    method StripCurrencySymbols()
      requires Valid()
      modifies this
      ensures Valid()
      ensures |price| == |old(price)|
      ensures forall i :: 0 <= i < |price| ==> price[i] == StripCell(old(price)[i])
      ensures region == old(region) && date == old(date) && quantity == old(quantity) && sales == old(sales)
    {
      var old_price := price;
      price := seq(|old_price|, i requires 0 <= i < |old_price| => StripCell(old_price[i]));
    }

    /**
     * `pink_df["price"] = pink_df["price"].astype(float)`: all cells or none;
     * on a cell that is not a number the column is left as it was and the
     * error names that cell.
     */
    method CastPricesToFloat() returns (error: Option<BatchError>)
      requires Valid()
      modifies this
      ensures Valid()
      ensures var k := FirstUncastable(old(price));
              if k < |old(price)| then
                error == Some(CouldNotConvertToFloat(old(price)[k].text)) && price == old(price)
              else
                && error == None && |price| == |old(price)|
                && forall i :: 0 <= i < |price| ==> price[i] == CastCell(old(price)[i])
      ensures region == old(region) && date == old(date) && quantity == old(quantity) && sales == old(sales)
    {
      var k := FirstUncastable(price);
      if k < |price| {
        error := Some(CouldNotConvertToFloat(price[k].text));
      } else {
        error := None;
        var text := price;
        price := seq(|text|, i requires 0 <= i < |text| => CastCell(text[i]));
      }
    }

    /** `pink_df["sales"] = pink_df["quantity"] * pink_df["price"]`. */
    method AddSalesColumn()
      requires Valid()
      modifies this
      ensures Valid() && sales.Some?
      ensures forall i :: 0 <= i < |region| ==> sales.value[i] == SalesOf(quantity[i], price[i])
      ensures region == old(region) && date == old(date) && quantity == old(quantity) && price == old(price)
    {
      var q, p := quantity, price;
      sales := Some(seq(|p|, i requires 0 <= i < |p| && i < |q| => SalesOf(q[i], p[i])));
    }

    /** `pink_df[["sales", "date", "region"]]`. */
    method SelectOutput() returns (out: seq<PreparedRow>)
      requires Valid() && sales.Some?
      ensures |out| == |region|
      ensures forall i :: 0 <= i < |out| ==> out[i] == PreparedRow(sales.value[i], date[i], region[i])
    {
      var s, d, r := sales.value, date, region;
      out := seq(|r|, i requires 0 <= i < |r| && i < |s| && i < |d| => PreparedRow(s[i], d[i], r[i]));
    }
  }

  /**
   * The script: gather the files' tables into `dfs` one by one, concatenate,
   * filter, rewrite the price column twice, add `sales`, select the output
   * columns, each step failing where pandas raises. The result is what
   * `Prepare` describes.
   */
  method RunBatch(files: seq<RawFile>) returns (result: Result<seq<PreparedRow>, BatchError>)
    ensures result == Prepare(files)
  {
    var dfs: seq<RawFile> := [];
    for i := 0 to |files|
      invariant dfs == files[..i]
    {
      dfs := dfs + [files[i]];
    }
    assert dfs == files;
    if |dfs| == 0 {
      return Failure(NoObjectsToConcatenate);
    }
    var combined := Concat(dfs);
    var columns := Columns(dfs);
    if "product" !in columns {
      return Failure(MissingColumns(["product"]));
    }
    var rows := TargetRows(combined);
    if "price" !in columns {
      return Failure(MissingColumns(["price"]));
    }
    var frame := new TargetFrame(rows);
    frame.StripCurrencySymbols();
    assert frame.price == CleanPrices(rows);
    var error := frame.CastPricesToFloat();
    if error.Some? {
      return Failure(error.value);
    }
    if "quantity" !in columns {
      return Failure(MissingColumns(["quantity"]));
    }
    frame.AddSalesColumn();
    var missing := OutputColumnsMissing(columns);
    if missing != [] {
      return Failure(MissingColumns(missing));
    }
    var out := frame.SelectOutput();
    result := Success(out);
    assert out == Prepare(files).value;
  }
}
