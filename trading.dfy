/** The trading-volume endpoint `/api/stocks/<ticker>/volume`: load one ticker's file with the
    shared cleaning chain and send its dates, formatted `%Y-%m-%d`, beside its volume cells. */
module Trading {
  import opened Wrappers
  import opened Dates
  import opened Records
  import Text

  /** The 404 message for a ticker without a price file: it names the ticker after
      "Data for ". */
  function NotFound(ticker: string): (msg: string)
    ensures |msg| == |"Data for "| + |ticker| + |" not found."|
    ensures msg[|"Data for "|..|"Data for "| + |ticker|] == ticker
  {
    Text.Framed("Data for ", ticker, " not found.");
    "Data for " + ticker + " not found."
  }

  /** Different tickers get different 404 messages. */
  lemma NotFoundInjective(a: string, b: string)
    requires NotFound(a) == NotFound(b)
    ensures a == b
  {
    Text.FramedInjective("Data for ", a, b, " not found.");
  }

  /** The message of the `ValueError` that `load_stock_data` raises for a failure: the cause's
      own text after "Error loading data: ". */
  function LoadFailure(e: LoadError): (msg: string)
    ensures |msg| == |"Error loading data: "| + |Describe(e)|
    ensures msg[|"Error loading data: "|..] == Describe(e)
  {
    "Error loading data: " + Describe(e)
  }

  /** Failures with different texts are reported with different messages. */
  lemma LoadFailureKeepsCause(a: LoadError, b: LoadError)
    requires LoadFailure(a) == LoadFailure(b)
    ensures Describe(a) == Describe(b)
  {
    assert Describe(a) == LoadFailure(a)[|"Error loading data: "|..];
  }

  /** The rows `read_csv` gives, without the header rows: the rows whose dates are parsed. */
  function Kept(records: seq<RawRecord>): (kept: seq<Row<string>>)
    ensures forall row :: row in kept <==> row in ReadCsv(records) && !IsHeader(row)
  {
    DropHeaderRows(ReadCsv(records))
  }

  /** `load_stock_data(filepath)`: the kept rows in file order with their dates parsed, or the
      wrapped message of the first date that does not parse. */
  function LoadStockData(records: seq<RawRecord>): (r: Result<seq<Row<DateTime>>, string>)
    ensures r.Ok? <==> AllDatesParse(Kept(records))
    ensures r.Ok? ==> |r.value| == |Kept(records)|
    ensures r.Ok? ==> forall i :: 0 <= i < |r.value| ==> Valid(r.value[i].date)
    ensures r.Ok? ==> forall i :: 0 <= i < |r.value| ==>
              r.value[i] == Kept(records)[i].WithDate(ParseTimestamp(Kept(records)[i].date).value)
    ensures r.Err? ==>
              r.error == LoadFailure(BadDate(Kept(records)[FirstBadDate(Kept(records))].date))
  {
    match CleanRecords(records)
    case Ok(rows) => Ok(rows)
    case Err(e) => Err(LoadFailure(e))
  }

  /** What the endpoint sends: an error with its status, or the `x` and `y` lists. */
  datatype Response =
    | Failure(status: nat, message: string)
    | VolumeData(x: seq<string>, y: seq<Cell>)

  /** `get_trading_volume(ticker)`, with the price files as a map from ticker to records. */
  function GetTradingVolume(ticker: string, files: map<string, seq<RawRecord>>): (r: Response)
    ensures ticker !in files <==> r == Failure(404, NotFound(ticker))
    ensures ticker in files ==> (r.Failure? <==> LoadStockData(files[ticker]).Err?)
    ensures ticker in files && r.Failure? ==>
              r == Failure(500, LoadStockData(files[ticker]).error)
    ensures r.VolumeData? ==> |r.x| == |r.y|
    ensures r.VolumeData? ==> var rows := LoadStockData(files[ticker]).value;
              |r.x| == |rows| &&
              forall i :: 0 <= i < |rows| ==>
                r.x[i] == FormatDate(rows[i].date) && r.y[i] == rows[i].volume
  {
    if ticker !in files then Failure(404, NotFound(ticker))
    else match LoadStockData(files[ticker])
      case Err(message) => Failure(500, message)
      case Ok(rows) => VolumeSeries(rows)
  }

  /** The JSON body of loaded rows: each row's date as text and its volume cell, in row order. */
  function VolumeSeries(rows: seq<Row<DateTime>>): (r: Response)
    requires forall i :: 0 <= i < |rows| ==> Valid(rows[i].date)
    ensures r.VolumeData? && |r.x| == |rows| && |r.y| == |rows|
    ensures forall i :: 0 <= i < |rows| ==> r.x[i] == FormatDate(rows[i].date) && r.y[i] == rows[i].volume
  {
    VolumeData(seq(|rows|, i requires 0 <= i < |rows| => FormatDate(rows[i].date)),
               seq(|rows|, i requires 0 <= i < |rows| => rows[i].volume))
  }

  /** Each `x` is the date text in the file with month and day zero-padded to two digits,
      and each `y` the volume cell of the same kept row: one entry per kept row, in file
      order. */
  lemma {:induction false} VolumeMatchesFile(ticker: string, files: map<string, seq<RawRecord>>)
    requires ticker in files && GetTradingVolume(ticker, files).VolumeData?
    ensures var r := GetTradingVolume(ticker, files);
      var kept := Kept(files[ticker]);
      |r.x| == |r.y| == |kept| &&
      forall i :: 0 <= i < |kept| ==>
        ParseTimestamp(kept[i].date).Some? && r.x[i] == PaddedDate(kept[i].date) && r.y[i] == kept[i].volume
  {
    var r := GetTradingVolume(ticker, files);
    var kept := Kept(files[ticker]);
    forall i | 0 <= i < |kept|
      ensures ParseTimestamp(kept[i].date).Some? && r.x[i] == PaddedDate(kept[i].date)
    {
      assert DateParses(kept[i]);
      FormatDateFromText(kept[i].date);
    }
  }

  /** A file whose dates write month and day with two digits gets the first ten characters of
      each date text as `x`. */
  lemma VolumeDatesArePrefixes(ticker: string, files: map<string, seq<RawRecord>>)
    requires ticker in files && GetTradingVolume(ticker, files).VolumeData?
    requires forall i :: 0 <= i < |Kept(files[ticker])| ==>
               var head := Text.BeforeFirst(Kept(files[ticker])[i].date, '.');
               HasLayout(head) && WidthsOf(head).month == 2 && WidthsOf(head).day == 2
    ensures |GetTradingVolume(ticker, files).x| == |Kept(files[ticker])|
    ensures forall i :: 0 <= i < |Kept(files[ticker])| ==>
              10 <= |Kept(files[ticker])[i].date| &&
              GetTradingVolume(ticker, files).x[i] == Kept(files[ticker])[i].date[..10]
  {
    var r := GetTradingVolume(ticker, files);
    var kept := Kept(files[ticker]);
    VolumeMatchesFile(ticker, files);
    forall i | 0 <= i < |kept| ensures 10 <= |kept[i].date| && r.x[i] == kept[i].date[..10] {
      FormatDateFromText(kept[i].date);
      FormatDateIsPrefix(kept[i].date);
    }
  }

  /** A file with the usual layout always answers with data. */
  lemma WellFormedFileAnswers(ticker: string, files: map<string, seq<RawRecord>>)
    requires ticker in files
    requires forall i :: 0 <= i < |files[ticker]| ==>
               Text.Contains(files[ticker][i].date, "Date") ||
               ParseTimestamp(files[ticker][i].date).Some?
    ensures GetTradingVolume(ticker, files).VolumeData?
  {
    CleanWellFormed(files[ticker]);
  }
}
