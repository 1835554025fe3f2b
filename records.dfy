/** The rows of one price file and the cleaning chain every loader applies to them: the
    per-column type inference of `read_csv`, dropping the header rows whose date text
    contains "Date", parsing the date text before the first "." as `%Y-%m-%d %H:%M:%S`, and
    `to_numeric(errors='coerce')` on chosen columns. */
module Records {
  import opened Wrappers
  import Text
  import opened Numeric
  import opened Dates

  /** The six value columns of a price file, after the date. */
  datatype Column = AdjClose | Close | High | Low | Open | Volume

  /** The six columns in file order. */
  const Columns: seq<Column> := [AdjClose, Close, High, Low, Open, Volume]

  lemma ColumnCases(c: Column)
    ensures c in Columns
  {
    match c
    case AdjClose =>
    case Close =>
    case High =>
    case Low =>
    case Open =>
    case Volume =>
  }

  /** One line of a price file after the two skipped lines, split into the seven fields named
      Date, Adj_Close, Close, High, Low, Open, Volume; an NA token (see `NaTokens`) is a missing value. */
  datatype RawRecord = RawRecord(date: string, adjClose: string, close: string, high: string,
                                 low: string, open: string, volume: string)
  {
    function Field(c: Column): string
    {
      match c
      case AdjClose => adjClose
      case Close => close
      case High => high
      case Low => low
      case Open => open
      case Volume => volume
    }
  }

  /** A value cell: text in a column `read_csv` could not read as numbers, or a number, where
      `None` is NaN. */
  datatype Cell = Str(text: string) | Num(value: Option<real>)

  /** A row of a frame, indexed by `D`: the date text before parsing, a timestamp after. */
  datatype Row<D> = Row(date: D, adjClose: Cell, close: Cell, high: Cell, low: Cell,
                        open: Cell, volume: Cell)
  {
    function Get(c: Column): Cell
    {
      match c
      case AdjClose => adjClose
      case Close => close
      case High => high
      case Low => low
      case Open => open
      case Volume => volume
    }

    /** The row with column `c` replaced and everything else kept. */
    function Set(c: Column, v: Cell): (r: Row<D>)
      ensures r.date == date && r.Get(c) == v
      ensures forall e :: e != c ==> r.Get(e) == Get(e)
    {
      match c
      case AdjClose => this.(adjClose := v)
      case Close => this.(close := v)
      case High => this.(high := v)
      case Low => this.(low := v)
      case Open => this.(open := v)
      case Volume => this.(volume := v)
    }

    /** The same cells under a new index value. */
    function WithDate<E>(d: E): (r: Row<E>)
      ensures r.date == d && forall c :: r.Get(c) == Get(c)
    {
      Row(d, adjClose, close, high, low, open, volume)
    }
  }

  /** The fields `read_csv` reads as NaN in every column: its default `na_values`, the empty
      field among them. */
  const NaTokens: set<string> :=
    {"", "#N/A", "#N/A N/A", "#NA", "-1.#IND", "-1.#QNAN", "-NaN", "-nan", "1.#IND", "1.#QNAN",
     "<NA>", "N/A", "NA", "NULL", "NaN", "None", "n/a", "nan", "null"}

  /** Each NA token is also text `to_numeric` turns into NaN. */
  lemma NaTokenNotNumber(text: string)
    requires text in NaTokens
    ensures ToNumeric(text) == None
  {
    if text != "" {
      var k := if text[0] == '#' || text[0] == '<' then 0
               else if text[0] == '-' then (if text[1] == '1' then 3 else 1)
               else if text[0] == '1' then 2
               else 0;
      assert k < |text| && !IsNumberChar(text[k]);
      ToNumericRejects(text, k);
    }
  }

  /** A field `read_csv` would accept in a float column: an NA token (NaN) or a number. */
  predicate NumericText(text: string)
  {
    text in NaTokens || ToNumeric(text).Some?
  }

  /** `read_csv` makes a column float exactly when every field of it is numeric text. */
  predicate NumericColumn(records: seq<RawRecord>, c: Column)
  {
    forall i :: 0 <= i < |records| ==> NumericText(records[i].Field(c))
  }

  /** The cell `read_csv` produces for a field: an NA token is NaN; otherwise a number in a
      float column and the text itself in an object column. */
  function ReadCell(text: string, floatColumn: bool): (cell: Cell)
    ensures cell.Num? <==> text in NaTokens || floatColumn
    ensures cell.Num? && text !in NaTokens ==> cell.value == ToNumeric(text)
    ensures text in NaTokens ==> cell.value == None
    ensures cell.Str? ==> cell.text == text
  {
    if text in NaTokens then Num(None)
    else if floatColumn then Num(ToNumeric(text))
    else Str(text)
  }

  /** One line read with the given float columns. */
  function ReadRow(r: RawRecord, floats: set<Column>): (row: Row<string>)
    ensures row.date == r.date
    ensures forall c :: row.Get(c) == ReadCell(r.Field(c), c in floats)
  {
    var row := Row(r.date,
                   ReadCell(r.adjClose, AdjClose in floats),
                   ReadCell(r.close, Close in floats),
                   ReadCell(r.high, High in floats),
                   ReadCell(r.low, Low in floats),
                   ReadCell(r.open, Open in floats),
                   ReadCell(r.volume, Volume in floats));
    assert forall c :: row.Get(c) == ReadCell(r.Field(c), c in floats) by {
      forall c ensures row.Get(c) == ReadCell(r.Field(c), c in floats) {
        ColumnCases(c);
      }
    }
    row
  }

  /** The columns `read_csv` gives a float type. */
  function FloatColumns(records: seq<RawRecord>): (s: set<Column>)
    ensures forall c :: c in s <==> NumericColumn(records, c)
  {
    var s := set c | c in Columns && NumericColumn(records, c);
    assert forall c :: c in Columns by {
      forall c ensures c in Columns {
        ColumnCases(c);
      }
    }
    s
  }

  /** `read_csv(..., names=[...])` over the raw lines: one row per line, in file order, each
      column read as floats when all of its fields are numeric text. */
  function ReadCsv(records: seq<RawRecord>): (rows: seq<Row<string>>)
    ensures |rows| == |records|
    ensures forall i :: 0 <= i < |records| ==> rows[i].date == records[i].date
    ensures forall i, c :: 0 <= i < |records| ==>
              rows[i].Get(c) == ReadCell(records[i].Field(c), NumericColumn(records, c))
  {
    var floats := FloatColumns(records);
    seq(|records|, i requires 0 <= i < |records| => ReadRow(records[i], floats))
  }

  /** A row `str.contains('Date')` flags as a header. */
  predicate IsHeader(row: Row<string>)
  {
    Text.Contains(row.date, "Date")
  }

  /** `df[~df['Date'].str.contains('Date', na=False)]`: the rows that are not headers. */
  function DropHeaderRows(rows: seq<Row<string>>): (kept: seq<Row<string>>)
    ensures |kept| <= |rows|
    ensures forall x :: x in kept <==> x in rows && !IsHeader(x)
  {
    if |rows| == 0 then []
    else (if IsHeader(rows[0]) then [] else [rows[0]]) + DropHeaderRows(rows[1..])
  }

  /** The filter distributes over concatenation, so the kept rows stay in file order. */
  lemma {:induction false} DropHeaderRowsAppend(a: seq<Row<string>>, b: seq<Row<string>>)
    ensures DropHeaderRows(a + b) == DropHeaderRows(a) + DropHeaderRows(b)
  {
    if |a| > 0 {
      var head := if IsHeader(a[0]) then [] else [a[0]];
      assert (a + b)[0] == a[0];
      assert (a + b)[1..] == a[1..] + b;
      assert DropHeaderRows(a + b) == head + DropHeaderRows(a[1..] + b);
      DropHeaderRowsAppend(a[1..], b);
      assert head + (DropHeaderRows(a[1..]) + DropHeaderRows(b))
          == (head + DropHeaderRows(a[1..])) + DropHeaderRows(b);
    } else {
      assert a + b == b;
    }
  }

  /** Filtering twice removes nothing more. */
  lemma {:induction false} DropHeaderRowsIdempotent(rows: seq<Row<string>>)
    ensures DropHeaderRows(DropHeaderRows(rows)) == DropHeaderRows(rows)
  {
    if |rows| > 0 {
      var head := if IsHeader(rows[0]) then [] else [rows[0]];
      DropHeaderRowsAppend(head, DropHeaderRows(rows[1..]));
      DropHeaderRowsIdempotent(rows[1..]);
      if !IsHeader(rows[0]) {
        assert [rows[0]][1..] == [];
        assert DropHeaderRows(head) == [rows[0]];
      }
    }
  }

  /** Why a file could not be loaded. */
  datatype LoadError =
    | BadDate(text: string)       // `to_datetime` rejected this date text
    | NotNumeric(column: Column)  // arithmetic on a column `read_csv` left as text

  /** The message the loaders print or send for a failure. */
  function Describe(e: LoadError): (msg: string)
    ensures |msg| > 0
  {
    match e
    case BadDate(text) => "time data \"" + text + "\" doesn't match format \"%Y-%m-%d %H:%M:%S\""
    case NotNumeric(_) => "unsupported operand type(s) for /: 'str' and 'str'"
  }

  /** The date text of a row is a timestamp `to_datetime` accepts. */
  predicate DateParses(row: Row<string>)
  {
    ParseTimestamp(row.date).Some?
  }

  /** Every row's date text parses. */
  predicate AllDatesParse(rows: seq<Row<string>>)
  {
    forall i :: 0 <= i < |rows| ==> DateParses(rows[i])
  }

  /** The position of the first date text from `from` on that does not parse. */
  function FirstBadDateFrom(rows: seq<Row<string>>, from: nat): (i: nat)
    requires from <= |rows|
    requires exists j :: from <= j < |rows| && !DateParses(rows[j])
    ensures from <= i < |rows| && !DateParses(rows[i])
    ensures forall k :: from <= k < i ==> DateParses(rows[k])
    decreases |rows| - from
  {
    if !DateParses(rows[from]) then from else FirstBadDateFrom(rows, from + 1)
  }

  /** The position of the first date text that does not parse. */
  function FirstBadDate(rows: seq<Row<string>>): (i: nat)
    requires !AllDatesParse(rows)
    ensures i < |rows| && !DateParses(rows[i])
    ensures forall k :: 0 <= k < i ==> DateParses(rows[k])
  {
    FirstBadDateFrom(rows, 0)
  }

  /** `pd.to_datetime(df['Date'].str.split('.').str[0], format=...)`: every date parses, or
      the conversion fails on the first one that does not. */
  function ParseDates(rows: seq<Row<string>>): (r: Result<seq<Row<DateTime>>, LoadError>)
    ensures r.Ok? <==> AllDatesParse(rows)
    ensures r.Ok? ==> |r.value| == |rows|
    ensures r.Ok? ==> forall i :: 0 <= i < |rows| ==>
              r.value[i] == rows[i].WithDate(ParseTimestamp(rows[i].date).value)
    ensures r.Err? ==> r.error == BadDate(rows[FirstBadDate(rows)].date)
  {
    if AllDatesParse(rows) then
      Ok(seq(|rows|, i requires 0 <= i < |rows| =>
        rows[i].WithDate(ParseTimestamp(rows[i].date).value)))
    else
      Err(BadDate(rows[FirstBadDate(rows)].date))
  }

  /** The cleaning chain shared by every loader (`load_stock_data`): read the file, drop the
      header rows, parse the dates. */
  function CleanRecords(records: seq<RawRecord>): (r: Result<seq<Row<DateTime>>, LoadError>)
    ensures r.Ok? ==> |r.value| == |DropHeaderRows(ReadCsv(records))|
  {
    ParseDates(DropHeaderRows(ReadCsv(records)))
  }

  /** A file with the usual layout loads: after the leading "Date" line, every line's date
      text is a valid timestamp, optionally followed by a fraction. */
  lemma CleanWellFormed(records: seq<RawRecord>)
    requires forall i :: 0 <= i < |records| ==>
               Text.Contains(records[i].date, "Date") || ParseTimestamp(records[i].date).Some?
    ensures CleanRecords(records).Ok?
  {
    var rows := ReadCsv(records);
    var kept := DropHeaderRows(rows);
    forall i | 0 <= i < |kept| ensures DateParses(kept[i]) {
      var x := kept[i];
      assert x in rows && !IsHeader(x);
      var j :| 0 <= j < |rows| && rows[j] == x;
      assert x.date == records[j].date;
    }
    assert AllDatesParse(kept);
  }

  /** `pd.to_numeric(cell, errors='coerce')`: numbers stay, text becomes its number or NaN. */
  function Coerce(cell: Cell): (r: Cell)
    ensures r.Num?
    ensures cell.Num? ==> r == cell
    ensures cell.Str? ==> r.value == ToNumeric(cell.text)
  {
    match cell
    case Num(_) => cell
    case Str(text) => Num(ToNumeric(text))
  }

  /** Coercing a cell `read_csv` produced gives the number of its field, whatever type the
      column was given. */
  lemma CoerceRead(text: string, floatColumn: bool)
    requires floatColumn ==> NumericText(text)
    ensures Coerce(ReadCell(text, floatColumn)) == Num(ToNumeric(text))
  {
    if text in NaTokens {
      NaTokenNotNumber(text);
    }
  }

  /** Coercion is idempotent. */
  lemma CoerceIdempotent(cell: Cell)
    ensures Coerce(Coerce(cell)) == Coerce(cell)
  {
  }

  /** One row with the columns in `cols` coerced. */
  function CoerceRow<D>(row: Row<D>, cols: set<Column>): (r: Row<D>)
    ensures r.date == row.date
    ensures forall c :: c in cols ==> r.Get(c) == Coerce(row.Get(c))
    ensures forall c :: c !in cols ==> r.Get(c) == row.Get(c)
  {
    var r := Row(row.date,
                 if AdjClose in cols then Coerce(row.adjClose) else row.adjClose,
                 if Close in cols then Coerce(row.close) else row.close,
                 if High in cols then Coerce(row.high) else row.high,
                 if Low in cols then Coerce(row.low) else row.low,
                 if Open in cols then Coerce(row.open) else row.open,
                 if Volume in cols then Coerce(row.volume) else row.volume);
    assert forall c :: r.Get(c) == if c in cols then Coerce(row.Get(c)) else row.Get(c) by {
      forall c ensures r.Get(c) == if c in cols then Coerce(row.Get(c)) else row.Get(c) {
        ColumnCases(c);
      }
    }
    r
  }

  /** Every row with the columns in `cols` coerced; nothing else changes. */
  function CoerceRows<D>(rows: seq<Row<D>>, cols: set<Column>): (r: seq<Row<D>>)
    ensures |r| == |rows|
    ensures forall i :: 0 <= i < |rows| ==> r[i] == CoerceRow(rows[i], cols)
  {
    seq(|rows|, i requires 0 <= i < |rows| => CoerceRow(rows[i], cols))
  }

  /** Coercing one more column after a set of them is coercing the larger set. */
  lemma CoerceRowsStep<D>(rows: seq<Row<D>>, cols: set<Column>, c: Column)
    ensures CoerceRows(CoerceRows(rows, cols), {c}) == CoerceRows(rows, cols + {c})
  {
    var a := CoerceRows(CoerceRows(rows, cols), {c});
    var b := CoerceRows(rows, cols + {c});
    forall i | 0 <= i < |rows| ensures a[i] == b[i] {
      forall e ensures a[i].Get(e) == b[i].Get(e) {
        CoerceIdempotent(rows[i].Get(e));
      }
      RowsEqual(a[i], b[i]);
    }
  }

  /** Rows with the same date and the same cells are equal. */
  lemma RowsEqual<D>(x: Row<D>, y: Row<D>)
    requires x.date == y.date && forall c :: x.Get(c) == y.Get(c)
    ensures x == y
  {
    assert x.Get(AdjClose) == y.Get(AdjClose) && x.Get(Close) == y.Get(Close);
    assert x.Get(High) == y.Get(High) && x.Get(Low) == y.Get(Low);
    assert x.Get(Open) == y.Get(Open) && x.Get(Volume) == y.Get(Volume);
  }

  /** The column `c` as numbers, or `None` when some cell of it is still text. */
  function Numbers<D>(rows: seq<Row<D>>, c: Column): (r: Option<seq<Option<real>>>)
    ensures r.Some? <==> forall i :: 0 <= i < |rows| ==> rows[i].Get(c).Num?
    ensures r.Some? ==> |r.value| == |rows|
    ensures r.Some? ==> forall i :: 0 <= i < |rows| ==> r.value[i] == rows[i].Get(c).value
  {
    if forall i :: 0 <= i < |rows| ==> rows[i].Get(c).Num? then
      Some(seq(|rows|, i requires 0 <= i < |rows| => rows[i].Get(c).value))
    else None
  }

  /** A coerced column always reads as numbers. */
  lemma NumbersOfCoerced<D>(rows: seq<Row<D>>, cols: set<Column>, c: Column)
    requires c in cols
    ensures Numbers(CoerceRows(rows, cols), c).Some?
  {
  }

  /** The columns named in a list. */
  function ColumnSet(cols: seq<Column>): (s: set<Column>)
    ensures forall c :: c in s <==> c in cols
  {
    set c | c in cols
  }

  /** One row of `frame[['Open', 'High', 'Low', 'Close', 'Volume']]`. */
  datatype Candle<D> = Candle(date: D, open: Cell, high: Cell, low: Cell, close: Cell, volume: Cell)

  /** The open, high, low, close and volume columns of a frame, one candle per row, in order;
      the other columns are dropped. */
  function Ohlc<D>(rows: seq<Row<D>>): (candles: seq<Candle<D>>)
    ensures |candles| == |rows|
    ensures forall i :: 0 <= i < |rows| ==>
              candles[i].date == rows[i].date &&
              candles[i].open == rows[i].Get(Open) && candles[i].high == rows[i].Get(High) &&
              candles[i].low == rows[i].Get(Low) && candles[i].close == rows[i].Get(Close) &&
              candles[i].volume == rows[i].Get(Volume)
  {
    seq(|rows|, i requires 0 <= i < |rows| =>
      Candle(rows[i].date, rows[i].open, rows[i].high, rows[i].low, rows[i].close, rows[i].volume))
  }

  /** The frame a loader mutates in place while coercing columns one by one. */
  class Frame {
    var rows: seq<Row<DateTime>>

    constructor (rows: seq<Row<DateTime>>)
      ensures this.rows == rows
    {
      this.rows := rows;
    }

    /** `df[c] = pd.to_numeric(df[c], errors='coerce')`. */
    method CoerceColumn(c: Column)
      modifies this
      ensures rows == CoerceRows(old(rows), {c})
    {
      rows := CoerceRows(rows, {c});
    }

    /** `for col in cols: df[col] = pd.to_numeric(df[col], errors='coerce')`. */
    method CoerceColumns(cols: seq<Column>)
      modifies this
      ensures rows == CoerceRows(old(rows), ColumnSet(cols))
    {
      var i := 0;
      assert ColumnSet(cols[..0]) == {};
      assert CoerceRows(rows, {}) == rows by {
        forall k | 0 <= k < |rows| ensures CoerceRows(rows, {})[k] == rows[k] {
          RowsEqual(CoerceRows(rows, {})[k], rows[k]);
        }
      }
      while i < |cols|
        invariant 0 <= i <= |cols|
        invariant rows == CoerceRows(old(rows), ColumnSet(cols[..i]))
      {
        CoerceRowsStep(old(rows), ColumnSet(cols[..i]), cols[i]);
        assert ColumnSet(cols[..i + 1]) == ColumnSet(cols[..i]) + {cols[i]} by {
          assert cols[..i + 1] == cols[..i] + [cols[i]];
        }
        CoerceColumn(cols[i]);
        i := i + 1;
      }
      assert cols[..i] == cols;
    }
  }
}
