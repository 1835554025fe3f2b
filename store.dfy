/** The startup loop every backend script runs: for each ticker, read its price file, clean
    it, coerce the chosen columns, and keep it under the ticker's name; a ticker whose file is
    missing or fails to load is reported and left out. */
module Store {
  import opened Wrappers
  import opened Dates
  import opened Records

  /** The ten tickers the scripts load, in this order. */
  const StockSymbols: seq<string> :=
    ["AAPL", "MSFT", "GOOG", "AMZN", "TSLA", "SPY", "NVDA", "META", "NFLX", "AMD"]

  /** A ticker that did not load: its file is missing, or cleaning it failed. */
  datatype Failure =
    | Missing(symbol: string)
    | Failed(symbol: string, error: LoadError)

  /** The rows stored for one file: cleaned, then the columns in `cols` coerced. */
  function Prepared(records: seq<RawRecord>, cols: seq<Column>): (r: Option<seq<Row<DateTime>>>)
    ensures r.Some? <==> CleanRecords(records).Ok?
    ensures r.Some? ==> r.value == CoerceRows(CleanRecords(records).value, ColumnSet(cols))
    ensures r.Some? ==> forall c :: c in cols ==> Numbers(r.value, c).Some?
  {
    match CleanRecords(records)
    case Ok(rows) =>
      assert forall c :: c in cols ==> Numbers(CoerceRows(rows, ColumnSet(cols)), c).Some? by {
        forall c | c in cols ensures Numbers(CoerceRows(rows, ColumnSet(cols)), c).Some? {
          NumbersOfCoerced(rows, ColumnSet(cols), c);
        }
      }
      Some(CoerceRows(rows, ColumnSet(cols)))
    case Err(_) => None
  }

  /** The table after loading `symbols`: a ticker is in it exactly when it was requested, its
      file exists and the file cleans; its value is the prepared rows of that file. */
  function Loaded(symbols: seq<string>, files: map<string, seq<RawRecord>>, cols: seq<Column>)
    : (m: map<string, seq<Row<DateTime>>>)
    ensures forall s :: s in m <==>
              s in symbols && s in files && CleanRecords(files[s]).Ok?
    ensures forall s :: s in m ==> Some(m[s]) == Prepared(files[s], cols)
  {
    map s | s in symbols && s in files && CleanRecords(files[s]).Ok? :: Prepared(files[s], cols).value
  }

  /** The failure to report for one ticker, if any. */
  function FailureOf(symbol: string, files: map<string, seq<RawRecord>>): (f: Option<Failure>)
    ensures f.None? <==> symbol in files && CleanRecords(files[symbol]).Ok?
    ensures f.Some? ==> f.value.symbol == symbol
    ensures f == Some(Missing(symbol)) <==> symbol !in files
  {
    if symbol !in files then Some(Missing(symbol))
    else match CleanRecords(files[symbol])
      case Ok(_) => None
      case Err(e) => Some(Failed(symbol, e))
  }

  /** The failures of a loading run, in ticker order. */
  function Failures(symbols: seq<string>, files: map<string, seq<RawRecord>>): (fs: seq<Failure>)
    ensures |fs| <= |symbols|
    ensures forall i :: 0 <= i < |fs| ==>
              fs[i].symbol in symbols && FailureOf(fs[i].symbol, files) == Some(fs[i])
    decreases |symbols|
  {
    if |symbols| == 0 then []
    else
      var rest := Failures(symbols[..|symbols| - 1], files);
      var last := symbols[|symbols| - 1];
      assert forall x :: x in symbols[..|symbols| - 1] ==> x in symbols;
      rest + (match FailureOf(last, files) case Some(f) => [f] case None => [])
  }

  /** A ticker that loads is added to the table, with its prepared rows. */
  lemma LoadedSnocLoads(symbols: seq<string>, s: string, files: map<string, seq<RawRecord>>, cols: seq<Column>)
    requires FailureOf(s, files).None?
    ensures Loaded(symbols + [s], files, cols) ==
              Loaded(symbols, files, cols)[s := Prepared(files[s], cols).value]
  {
    var a := Loaded(symbols + [s], files, cols);
    var b := Loaded(symbols, files, cols)[s := Prepared(files[s], cols).value];
    assert forall x :: x in symbols + [s] <==> x in symbols || x == s;
    assert a.Keys == b.Keys;
    forall x | x in a ensures a[x] == b[x] {
      assert Some(a[x]) == Prepared(files[x], cols);
    }
  }

  /** A ticker that fails leaves the table as it was. */
  lemma LoadedSnocFails(symbols: seq<string>, s: string, files: map<string, seq<RawRecord>>, cols: seq<Column>)
    requires FailureOf(s, files).Some?
    ensures Loaded(symbols + [s], files, cols) == Loaded(symbols, files, cols)
  {
    var a := Loaded(symbols + [s], files, cols);
    assert forall x :: x in symbols + [s] <==> x in symbols || x == s;
    assert a.Keys == Loaded(symbols, files, cols).Keys;
  }

  /** Loading one more ticker extends the table by that ticker alone, if it loads. */
  lemma LoadedSnoc(symbols: seq<string>, s: string, files: map<string, seq<RawRecord>>, cols: seq<Column>)
    ensures Loaded(symbols + [s], files, cols) ==
              if FailureOf(s, files).None? then Loaded(symbols, files, cols)[s := Prepared(files[s], cols).value]
              else Loaded(symbols, files, cols)
  {
    if FailureOf(s, files).None? {
      LoadedSnocLoads(symbols, s, files, cols);
    } else {
      LoadedSnocFails(symbols, s, files, cols);
    }
  }

  /** The loaded tickers of one script run and the failures it printed. */
  class Loader {
    var data: map<string, seq<Row<DateTime>>>
    var failures: seq<Failure>

    /** An empty table before the loop. */
    constructor ()
      ensures data == map[] && failures == []
    {
      data := map[];
      failures := [];
    }

    /** One pass of the loop body: read, clean and coerce one file, or report why not. */
    method Load(symbol: string, files: map<string, seq<RawRecord>>, cols: seq<Column>)
      modifies this
      ensures FailureOf(symbol, files).None? ==>
                data == old(data)[symbol := Prepared(files[symbol], cols).value] &&
                failures == old(failures)
      ensures FailureOf(symbol, files).Some? ==>
                data == old(data) && failures == old(failures) + [FailureOf(symbol, files).value]
    {
      if symbol !in files {
        failures := failures + [Missing(symbol)];
      } else {
        match CleanRecords(files[symbol])
        case Err(e) =>
          failures := failures + [Failed(symbol, e)];
        case Ok(rows) =>
          var frame := new Frame(rows);
          frame.CoerceColumns(cols);
          assert frame.rows == Prepared(files[symbol], cols).value;
          data := data[symbol := frame.rows];
      }
    }

    /** `for symbol in stock_symbols: ...`: every ticker is loaded in turn. */
    method LoadAll(symbols: seq<string>, files: map<string, seq<RawRecord>>, cols: seq<Column>)
      modifies this
      requires data == map[] && failures == []
      ensures data == Loaded(symbols, files, cols)
      ensures failures == Failures(symbols, files)
    {
      var i := 0;
      assert Loaded(symbols[..0], files, cols) == map[];
      while i < |symbols|
        invariant 0 <= i <= |symbols|
        invariant data == Loaded(symbols[..i], files, cols)
        invariant failures == Failures(symbols[..i], files)
      {
        LoadNext(symbols, i, files, cols);
        i := i + 1;
      }
      assert symbols[..i] == symbols;
    }

    /** The loop body at ticker `i`: the table and the failures grow to cover one more ticker. */
    method LoadNext(symbols: seq<string>, i: nat, files: map<string, seq<RawRecord>>, cols: seq<Column>)
      modifies this
      requires i < |symbols|
      requires data == Loaded(symbols[..i], files, cols)
      requires failures == Failures(symbols[..i], files)
      ensures data == Loaded(symbols[..i + 1], files, cols)
      ensures failures == Failures(symbols[..i + 1], files)
    {
      LoadedSnoc(symbols[..i], symbols[i], files, cols);
      assert symbols[..i + 1] == symbols[..i] + [symbols[i]];
      assert symbols[..i + 1][..i] == symbols[..i];
      Load(symbols[i], files, cols);
    }
  }
}
