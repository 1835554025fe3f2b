/** The candlestick endpoint `/api/stocks/<ticker>/candlestick`: load one ticker's file with
    the shared cleaning chain and send its open, high, low and close columns as one Plotly
    candlestick trace named after the upper-cased ticker. */
module Candlestick {
  import opened Wrappers
  import opened Dates
  import opened Records
  import Text
  import Trading

  /** The folder the endpoint looks for price files in. */
  const Directory: string := "C:\\Users\\91790\\Desktop\\Interactive\\backend\\Financial Data"

  /** The 404 message for a ticker without a price file: it names the ticker after
      "Data for " and then the directory. */
  function NotFound(ticker: string): (msg: string)
    ensures |msg| == |"Data for "| + |ticker| + |" not found in "| + |Directory| + |"."|
    ensures msg[|"Data for "|..|"Data for "| + |ticker|] == ticker
    ensures msg[|"Data for "| + |ticker| + |" not found in "|..|msg| - |"."|] == Directory
  {
    var tail := " not found in " + Directory + ".";
    assert "Data for " + ticker + tail == "Data for " + ticker + " not found in " + Directory + ".";
    Text.Framed("Data for ", ticker, tail);
    Text.Framed("Data for " + ticker + " not found in ", Directory, ".");
    "Data for " + ticker + " not found in " + Directory + "."
  }

  /** Different tickers get different 404 messages. */
  lemma NotFoundInjective(a: string, b: string)
    requires NotFound(a) == NotFound(b)
    ensures a == b
  {
    assert |a| == |b|;
  }

  /** The `candlestick` trace: dates, the four price columns as read, and a name. */
  datatype CandleTrace = CandleTrace(x: seq<DateTime>, open: seq<Cell>, high: seq<Cell>,
                                     low: seq<Cell>, close: seq<Cell>, name: string)

  /** What the endpoint sends: an error with its status, or the trace and the chart title. */
  datatype Response =
    | Failure(status: nat, message: string)
    | Chart(trace: CandleTrace, title: string)

  /** The trace lists one entry per row, in row order: the row's date and its four prices. */
  predicate Projects(t: CandleTrace, rows: seq<Row<DateTime>>)
  {
    |t.x| == |t.open| == |t.high| == |t.low| == |t.close| == |rows| &&
    forall i :: 0 <= i < |rows| ==>
      t.x[i] == rows[i].date && t.open[i] == rows[i].open && t.high[i] == rows[i].high &&
      t.low[i] == rows[i].low && t.close[i] == rows[i].close
  }

  /** The trace of a cleaned frame: `ohlc_data[...].tolist()` for each of the four prices. */
  function Trace(rows: seq<Row<DateTime>>, name: string): (t: CandleTrace)
    ensures Projects(t, rows) && t.name == name
  {
    var candles := Ohlc(rows);
    CandleTrace(seq(|candles|, i requires 0 <= i < |candles| => candles[i].date),
                seq(|candles|, i requires 0 <= i < |candles| => candles[i].open),
                seq(|candles|, i requires 0 <= i < |candles| => candles[i].high),
                seq(|candles|, i requires 0 <= i < |candles| => candles[i].low),
                seq(|candles|, i requires 0 <= i < |candles| => candles[i].close),
                name)
  }

  /** `candlestick_chart(ticker)`, with the price files as a map from ticker to records; a
      failing load sends the exception's own message. */
  function CandlestickChart(ticker: string, files: map<string, seq<RawRecord>>): (r: Response)
    ensures ticker !in files <==> r == Failure(404, NotFound(ticker))
    ensures ticker in files ==> (r.Failure? <==> CleanRecords(files[ticker]).Err?)
    ensures ticker in files && r.Failure? ==>
              r == Failure(500, Describe(CleanRecords(files[ticker]).error))
    ensures r.Chart? ==> ticker in files && CleanRecords(files[ticker]).Ok?
    ensures r.Chart? ==>
              r.trace.name == Text.ToUpper(ticker) &&
              r.title == Text.ToUpper(ticker) + " Candlestick Chart"
    ensures r.Chart? ==> Projects(r.trace, CleanRecords(files[ticker]).value)
  {
    if ticker !in files then Failure(404, NotFound(ticker))
    else match CleanRecords(files[ticker])
      case Err(e) => Failure(500, Describe(e))
      case Ok(rows) =>
        var name := Text.ToUpper(ticker);
        Chart(Trace(rows, name), name + " Candlestick Chart")
  }

  /** One candle per kept row of the file, in file order: its date is the timestamp the row's
      date text spells, and its prices are the row's cells. */
  lemma {:induction false} ChartMatchesFile(ticker: string, files: map<string, seq<RawRecord>>)
    requires ticker in files && CandlestickChart(ticker, files).Chart?
    ensures var t := CandlestickChart(ticker, files).trace;
      var kept := Trading.Kept(files[ticker]);
      |t.x| == |t.open| == |t.high| == |t.low| == |t.close| == |kept| &&
      forall i :: 0 <= i < |kept| ==>
        Some(t.x[i]) == ParseTimestamp(kept[i].date) && t.open[i] == kept[i].open &&
        t.high[i] == kept[i].high && t.low[i] == kept[i].low && t.close[i] == kept[i].close
  {
    var t := CandlestickChart(ticker, files).trace;
    var kept := Trading.Kept(files[ticker]);
    forall i | 0 <= i < |kept|
      ensures Some(t.x[i]) == ParseTimestamp(kept[i].date)
    {
      assert DateParses(kept[i]);
    }
  }

  /** The candlestick and the volume endpoints agree on a ticker: both answer with data or
      both fail, and when they answer, their dates are the same rows, the volume endpoint's
      being the candles' dates formatted `%Y-%m-%d`. */
  lemma {:induction false} SameRowsAsVolume(ticker: string, files: map<string, seq<RawRecord>>)
    ensures CandlestickChart(ticker, files).Chart? <==>
              Trading.GetTradingVolume(ticker, files).VolumeData?
    ensures CandlestickChart(ticker, files).Chart? ==>
              var t := CandlestickChart(ticker, files).trace;
              var v := Trading.GetTradingVolume(ticker, files);
              |t.x| == |v.x| &&
              forall i :: 0 <= i < |t.x| ==> Valid(t.x[i]) && v.x[i] == FormatDate(t.x[i])
  {
    if ticker in files && CleanRecords(files[ticker]).Ok? {
      var rows := CleanRecords(files[ticker]).value;
      assert Trading.LoadStockData(files[ticker]) == Ok(rows);
    }
  }
}
