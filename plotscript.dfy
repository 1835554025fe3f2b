/** The stand-alone analysis script: load every ticker's file with all six value columns
    coerced to numbers, keep the Adj_Close columns side by side, and compute the series of
    its eight charts (daily returns, 30-day rolling mean and standard deviation, cumulative
    returns, 50-day SMA and EMA, Bollinger bands, RSI, MACD). */
module PlotScript {
  import opened Wrappers
  import opened Dates
  import opened Records
  import opened Series
  import opened Returns
  import opened Rolling
  import opened Momentum
  import opened Ewm
  import opened Align
  import opened Frames
  import opened Charts
  import Store

  /** The folder the script reads price files from. */
  const Directory: string := "Financial Data"
  /** `window` of the rolling statistics. */
  const StatsWindow: nat := 30
  /** `window_sma` and `window_ema`. */
  const AverageWindow: nat := 50
  /** `window_bb`. */
  const BandWindow: nat := 20

  const NoData: string := "No data was successfully loaded!"
  const NoReturns: string := "No valid daily returns data to plot."

  /** One chart window: its title, the lines drawn for each ticker (ticker by ticker, in
      the order of the loop), and its horizontal reference lines. */
  datatype Chart = Chart(title: string, drawn: seq<seq<Trace>>, levels: seq<real>)

  /** How a run ends: with one of the two messages, or with the charts shown in turn. */
  datatype Outcome = Message(text: string) | Shown(charts: seq<Chart>)

  /** The line the load loop prints for one ticker. */
  function LoadMessage(symbol: string, files: map<string, seq<RawRecord>>): string
  {
    match Store.FailureOf(symbol, files)
    case None => "Successfully processed " + symbol
    case Some(Missing(_)) => "Data for " + symbol + " not found in " + Directory + ". Skipping."
    case Some(Failed(_, e)) => "Error processing " + symbol + ": " + Describe(e)
  }

  /** A ticker without a file is skipped, one that loads is reported processed, and one whose
      file fails to load is reported with the error's message. */
  lemma LoadMessageCases(symbol: string, files: map<string, seq<RawRecord>>)
    ensures symbol !in files ==>
              LoadMessage(symbol, files) ==
                "Data for " + symbol + " not found in " + Directory + ". Skipping."
    ensures symbol in files && CleanRecords(files[symbol]).Ok? ==>
              LoadMessage(symbol, files) == "Successfully processed " + symbol
    ensures symbol in files && CleanRecords(files[symbol]).Err? ==>
              LoadMessage(symbol, files) ==
                "Error processing " + symbol + ": " + Describe(CleanRecords(files[symbol]).error)
  {
  }

  /** The lines printed by the load loop, one per ticker, in ticker order. */
  function LoadLog(symbols: seq<string>, files: map<string, seq<RawRecord>>): (log: seq<string>)
    ensures |log| == |symbols|
    decreases |symbols|
  {
    if |symbols| == 0 then []
    else LoadLog(symbols[..|symbols| - 1], files) + [LoadMessage(symbols[|symbols| - 1], files)]
  }

  /** The line printed for each ticker is that ticker's message. */
  lemma {:induction false} LoadLogAt(symbols: seq<string>, files: map<string, seq<RawRecord>>)
    ensures forall i :: 0 <= i < |symbols| ==> LoadLog(symbols, files)[i] == LoadMessage(symbols[i], files)
    decreases |symbols|
  {
    if |symbols| > 0 {
      var init := symbols[..|symbols| - 1];
      LoadLogAt(init, files);
      assert forall i :: 0 <= i < |init| ==> init[i] == symbols[i];
    }
  }

  /** The table of stored frames: all six value columns coerced. */
  function Stored(files: map<string, seq<RawRecord>>): (data: map<string, seq<Row<DateTime>>>)
    ensures forall s :: s in data <==>
              s in Store.StockSymbols && s in files && CleanRecords(files[s]).Ok?
    ensures forall s, c :: s in data ==> Numbers(data[s], c).Some?
  {
    var data := Store.Loaded(Store.StockSymbols, files, Columns);
    assert forall s, c :: s in data ==> Numbers(data[s], c).Some? by {
      forall s, c | s in data ensures Numbers(data[s], c).Some? {
        ColumnCases(c);
        assert Some(data[s]) == Store.Prepared(files[s], Columns);
      }
    }
    data
  }

  /** No entry of a list is repeated. */
  predicate NoRepeats(s: seq<string>)
  {
    forall i, j :: 0 <= i < j < |s| ==> s[i] != s[j]
  }

  /** No ticker is listed twice. */
  lemma StockSymbolsDistinct()
    ensures NoRepeats(Store.StockSymbols)
  {
  }

  /** Keeping some entries of a list without repeats leaves a list without repeats. */
  lemma {:induction false} ValidSymbolsDistinct(symbols: seq<string>, known: set<string>)
    requires NoRepeats(symbols)
    ensures NoRepeats(ValidSymbols(symbols, known))
    decreases |symbols|
  {
    if |symbols| > 0 {
      var init := symbols[..|symbols| - 1];
      var last := symbols[|symbols| - 1];
      assert forall k :: 0 <= k < |init| ==> init[k] == symbols[k];
      assert last !in init;
      ValidSymbolsDistinct(init, known);
      assert symbols == init + [last];
      var prev := ValidSymbols(init, known);
      var v := ValidSymbols(symbols, known);
      assert v == prev + (if last in known then [last] else []);
      assert last !in prev;
      forall i, j | 0 <= i < j < |v| ensures v[i] != v[j] {
        assert v[i] == prev[i] && prev[i] in prev;
        if j < |prev| {
          assert v[j] == prev[j];
        } else {
          assert v[j] == last;
        }
      }
    }
  }

  /** `pd.DataFrame(data)`: the Adj_Close columns of the stored tickers, in the order they
      were loaded, over the union of their indexes; a ticker whose dates are that index keeps
      its column as it is, any other is reindexed onto it. */
  function AdjCloseTable(files: map<string, seq<RawRecord>>): (t: Table)
    ensures t.WellFormed()
    ensures t.columns == ValidSymbols(Store.StockSymbols, Stored(files).Keys)
    ensures forall s :: s in t.columns <==>
              s in Store.StockSymbols && s in files && CleanRecords(files[s]).Ok?
    ensures Aligned(Stored(files), t)
  {
    var data := Stored(files);
    var symbols := ValidSymbols(Store.StockSymbols, data.Keys);
    StockSymbolsDistinct();
    ValidSymbolsDistinct(Store.StockSymbols, data.Keys);
    DistinctOfDistinct(symbols);
    var t := AdjCloseFrame(data, symbols);
    assert t.columns == symbols;
    t
  }

  /** The daily-returns lines of one ticker: its returns on the dates every ticker has one. */
  function ReturnsColumn(lines: seq<Line>, j: nat): (r: seq<real>)
    requires forall k :: 0 <= k < |lines| ==> j < |lines[k].values|
    ensures |r| == |lines| && forall k :: 0 <= k < |lines| ==> r[k] == lines[k].values[j]
  {
    seq(|lines|, k requires 0 <= k < |lines| => lines[k].values[j])
  }

  /** Daily returns: one curve per ticker over the rows `dropna` keeps. */
  function ReturnsLines(columns: seq<string>, lines: seq<Line>, j: nat): (traces: seq<Trace>)
    requires j < |columns| && forall k :: 0 <= k < |lines| ==> |lines[k].values| == |columns|
    ensures |traces| == 1 && traces[0].Curve? && traces[0].name == columns[j]
    ensures traces[0].x == LineDates(lines) && |traces[0].y| == |lines|
    ensures forall k :: 0 <= k < |lines| ==> traces[0].y[k] == Some(lines[k].values[j])
  {
    [Curve(columns[j], LineDates(lines), Lift(ReturnsColumn(lines, j)))]
  }

  /** The 30-day rolling mean of a ticker: missing for the first 29 dates, and elsewhere
      the mean of the window whenever the window has no gap. */
  function MeanLines(t: Table, j: nat): (traces: seq<Trace>)
    requires t.WellFormed() && j < |t.columns|
    ensures |traces| == 1 && traces[0].Curve? && traces[0].x == t.index
    ensures traces[0].name == t.columns[j] + " Rolling Mean"
    ensures |traces[0].y| == |t.index|
    ensures forall i :: 0 <= i < |t.index| ==>
              (traces[0].y[i].Some? <==> i >= StatsWindow - 1 && Full(t.cells[j], StatsWindow, i))
    ensures forall i :: 0 <= i < |t.index| && traces[0].y[i].Some? ==>
              traces[0].y[i].value * StatsWindow as real == Sum(Window(t.cells[j], StatsWindow, i))
  {
    [Curve(t.columns[j] + " Rolling Mean", t.index, RollingMean(t.cells[j], StatsWindow))]
  }

  /** The 30-day rolling standard deviation of a ticker: missing for the first 29 dates,
      never negative, and the square root of the window's sample variance. */
  function StdLines(t: Table, j: nat, sqrt: real -> real): (traces: seq<Trace>)
    requires t.WellFormed() && j < |t.columns| && IsSquareRoot(sqrt)
    ensures |traces| == 1 && traces[0].Curve? && traces[0].x == t.index
    ensures traces[0].name == t.columns[j] + " Rolling Std Dev"
    ensures |traces[0].y| == |t.index|
    ensures forall i :: 0 <= i < |t.index| ==>
              (traces[0].y[i].Some? <==> i >= StatsWindow - 1 && Full(t.cells[j], StatsWindow, i))
    ensures forall i :: 0 <= i < |t.index| && traces[0].y[i].Some? ==>
              traces[0].y[i].value >= 0.0 &&
              traces[0].y[i].value * traces[0].y[i].value ==
                Variance(Window(t.cells[j], StatsWindow, i))
  {
    [Curve(t.columns[j] + " Rolling Std Dev", t.index, RollingStd(t.cells[j], StatsWindow, sqrt))]
  }

  /** `y` compounds the returns `r`: it starts at `1 + r[0]` and each value is the previous
      one times `1 + r[k]`. */
  predicate Compounds(y: seq<Option<real>>, r: seq<real>)
  {
    |y| == |r| && (|r| > 0 ==> y[0] == Some(1.0 + r[0])) &&
    forall k :: 0 < k < |r| ==> CompoundStep(y, r, k)
  }

  /** Step `k` of the running product. */
  predicate CompoundStep(y: seq<Option<real>>, r: seq<real>, k: nat)
    requires 0 < k < |y| == |r|
  {
    y[k].Some? && y[k - 1].Some? && y[k].value == y[k - 1].value * (1.0 + r[k])
  }

  /** Cumulative returns of a ticker: the running product of `1 + r` over its kept daily
      returns. */
  function CumulativeLines(columns: seq<string>, lines: seq<Line>, j: nat): (traces: seq<Trace>)
    requires j < |columns| && forall k :: 0 <= k < |lines| ==> |lines[k].values| == |columns|
    ensures |traces| == 1 && traces[0].Curve? && traces[0].name == columns[j]
    ensures traces[0].x == LineDates(lines)
    ensures Compounds(traces[0].y, ReturnsColumn(lines, j))
  {
    var r := ReturnsColumn(lines, j);
    var c := CumulativeReturns(r);
    var y := Lift(c);
    forall k | 0 < k < |r| ensures CompoundStep(y, r, k) {
      assert y[k] == Some(c[k]) && y[k - 1] == Some(c[k - 1]);
    }
    assert Compounds(y, r);
    [Curve(columns[j], LineDates(lines), Lift(c))]
  }

  /** `y` smooths the prices `p` with factor `a`: it starts at `p[0]` and each value is
      `a·p[k] + (1 - a)` times the previous one. */
  predicate Smooths(y: seq<Option<real>>, p: seq<real>, a: real)
  {
    |y| == |p| && (|p| > 0 ==> y[0] == Some(p[0])) &&
    forall k :: 0 < k < |p| ==> SmoothStep(y, p, a, k)
  }

  /** Step `k` of the smoothing recurrence. */
  predicate SmoothStep(y: seq<Option<real>>, p: seq<real>, a: real, k: nat)
    requires 0 < k < |y| == |p|
  {
    y[k].Some? && y[k - 1].Some? && y[k].value == a * p[k] + (1.0 - a) * y[k - 1].value
  }

  /** A ticker's price with its 50-day simple and exponential moving averages; the EMA runs
      over the dates that have a price. */
  function AverageLines(t: Table, j: nat): (traces: seq<Trace>)
    requires t.WellFormed() && j < |t.columns|
    ensures |traces| == 3 && traces[0].Curve? && traces[1].Curve? && traces[2].Curve?
    ensures traces[0] == Curve(t.columns[j] + " Price", t.index, t.cells[j])
    ensures traces[1] ==
              Curve(t.columns[j] + " 50-Day SMA", t.index, RollingMean(t.cells[j], AverageWindow))
    ensures traces[2].name == t.columns[j] + " 50-Day EMA"
    ensures traces[2].x == PresentDates(t.index, t.cells[j])
    ensures Smooths(traces[2].y, Present(t.cells[j]), Alpha(AverageWindow))
  {
    var col := t.cells[j];
    var s := t.columns[j];
    var p := Present(col);
    var a := Alpha(AverageWindow);
    var e := Ema(p, AverageWindow);
    var y := Lift(e);
    forall k | 0 < k < |p| ensures SmoothStep(y, p, a, k) {
      assert y[k] == Some(e[k]) && y[k - 1] == Some(e[k - 1]);
    }
    assert Smooths(y, p, a);
    [Curve(s + " Price", t.index, col),
     Curve(s + " 50-Day SMA", t.index, RollingMean(col, AverageWindow)),
     Curve(s + " 50-Day EMA", PresentDates(t.index, col), Lift(e))]
  }

  /** A ticker's price, its 20-day moving average and the two bands, which enclose the
      average symmetrically wherever they are defined. */
  function BandLines(t: Table, j: nat, sqrt: real -> real): (traces: seq<Trace>)
    requires t.WellFormed() && j < |t.columns| && IsSquareRoot(sqrt)
    ensures |traces| == 4
    ensures forall k :: 0 <= k < 4 ==>
              traces[k].Curve? && traces[k].x == t.index && |traces[k].y| == |t.index|
    ensures traces[0].name == t.columns[j] + " Price" && traces[0].y == t.cells[j]
    ensures traces[1].name == t.columns[j] + " 20-Day SMA" &&
            traces[1].y == RollingMean(t.cells[j], BandWindow)
    ensures traces[2].name == t.columns[j] + " Upper Bollinger Band"
    ensures traces[3].name == t.columns[j] + " Lower Bollinger Band"
    ensures forall i :: 0 <= i < |t.index| && traces[2].y[i].Some? ==>
              traces[3].y[i].Some? && traces[1].y[i].Some? &&
              traces[3].y[i].value <= traces[1].y[i].value <= traces[2].y[i].value &&
              traces[2].y[i].value - traces[1].y[i].value ==
                traces[1].y[i].value - traces[3].y[i].value
  {
    var s := t.columns[j];
    var b := Bollinger(t.cells[j], BandWindow, sqrt);
    [Curve(s + " Price", t.index, t.cells[j]), Curve(s + " 20-Day SMA", t.index, b.sma),
     Curve(s + " Upper Bollinger Band", t.index, b.upper),
     Curve(s + " Lower Bollinger Band", t.index, b.lower)]
  }

  /** The RSI of a ticker: missing before position 13, and within [0, 100] where defined. */
  function RsiLines(t: Table, j: nat): (traces: seq<Trace>)
    requires t.WellFormed() && j < |t.columns|
    ensures |traces| == 1 && traces[0].Curve? && traces[0].x == t.index
    ensures traces[0].name == t.columns[j] + " RSI" && |traces[0].y| == |t.index|
    ensures forall i :: 0 <= i < |t.index| && i < RsiWindow - 1 ==> traces[0].y[i] == None
    ensures forall i :: 0 <= i < |t.index| && traces[0].y[i].Some? ==>
              0.0 <= traces[0].y[i].value <= 100.0
  {
    [Curve(t.columns[j] + " RSI", t.index, Rsi(t.cells[j], RsiWindow))]
  }

  /** The MACD line of a ticker, the 12-span minus the 26-span average of its prices, and
      its signal line, the 9-span average of the MACD line. */
  function MacdLines(t: Table, j: nat): (traces: seq<Trace>)
    requires t.WellFormed() && j < |t.columns|
    ensures var p := Present(t.cells[j]);
      var line := Lift(MacdOf(p, FastSpan, SlowSpan, SignalSpan).macd);
      |traces| == 2 && traces[0].Curve? && traces[1].Curve? &&
      traces[0].name == t.columns[j] + " MACD" && traces[1].name == t.columns[j] + " Signal Line" &&
      traces[0].x == traces[1].x == PresentDates(t.index, t.cells[j]) &&
      |traces[0].y| == |p| && traces[0].y == line &&
      (forall k :: 0 <= k < |p| ==>
        traces[0].y[k] == Some(Ema(p, FastSpan)[k] - Ema(p, SlowSpan)[k])) &&
      traces[1].y == Lift(Ema(MacdOf(p, FastSpan, SlowSpan, SignalSpan).macd, SignalSpan))
  {
    var col := t.cells[j];
    var m := MacdOf(Present(col), FastSpan, SlowSpan, SignalSpan);
    var dates := PresentDates(t.index, col);
    [Curve(t.columns[j] + " MACD", dates, Lift(m.macd)),
     Curve(t.columns[j] + " Signal Line", dates, Lift(m.signal))]
  }

  /** The chart of the daily returns of every ticker. */
  function DailyReturnsChart(t: Table): (c: Chart)
    requires t.WellFormed()
    ensures c.title == "Daily Returns Over Time" && c.levels == []
    ensures |c.drawn| == |t.columns|
    ensures forall j :: 0 <= j < |t.columns| ==> c.drawn[j] == ReturnsLines(t.columns, DailyReturnsFrame(t), j)
  {
    var lines := DailyReturnsFrame(t);
    Chart("Daily Returns Over Time", seq(|t.columns|, j requires 0 <= j < |t.columns| => ReturnsLines(t.columns, lines, j)), [])
  }

  /** The chart of the 30-day rolling means. */
  function RollingMeanChart(t: Table): (c: Chart)
    requires t.WellFormed()
    ensures c.title == "30-Day Rolling Mean of Adjusted Close Price" && c.levels == []
    ensures |c.drawn| == |t.columns|
    ensures forall j :: 0 <= j < |t.columns| ==> c.drawn[j] == MeanLines(t, j)
  {
    Chart("30-Day Rolling Mean of Adjusted Close Price", seq(|t.columns|, j requires 0 <= j < |t.columns| => MeanLines(t, j)), [])
  }

  /** The chart of the 30-day rolling standard deviations. */
  function RollingStdChart(t: Table, sqrt: real -> real): (c: Chart)
    requires t.WellFormed() && IsSquareRoot(sqrt)
    ensures c.title == "30-Day Rolling Standard Deviation of Adjusted Close Price" && c.levels == []
    ensures |c.drawn| == |t.columns|
    ensures forall j :: 0 <= j < |t.columns| ==> c.drawn[j] == StdLines(t, j, sqrt)
  {
    Chart("30-Day Rolling Standard Deviation of Adjusted Close Price", seq(|t.columns|, j requires 0 <= j < |t.columns| => StdLines(t, j, sqrt)), [])
  }

  /** The chart of the cumulative returns. */
  function CumulativeChart(t: Table): (c: Chart)
    requires t.WellFormed()
    ensures c.title == "Cumulative Returns Over Time" && c.levels == []
    ensures |c.drawn| == |t.columns|
    ensures forall j :: 0 <= j < |t.columns| ==> c.drawn[j] == CumulativeLines(t.columns, DailyReturnsFrame(t), j)
  {
    var lines := DailyReturnsFrame(t);
    Chart("Cumulative Returns Over Time", seq(|t.columns|, j requires 0 <= j < |t.columns| => CumulativeLines(t.columns, lines, j)), [])
  }

  /** The chart of each price with its 50-day SMA and EMA. */
  function AverageChart(t: Table): (c: Chart)
    requires t.WellFormed()
    ensures c.title == "SMA and EMA" && c.levels == []
    ensures |c.drawn| == |t.columns|
    ensures forall j :: 0 <= j < |t.columns| ==> c.drawn[j] == AverageLines(t, j)
  {
    Chart("SMA and EMA", seq(|t.columns|, j requires 0 <= j < |t.columns| => AverageLines(t, j)), [])
  }

  /** The chart of each price with its Bollinger bands. */
  function BandChart(t: Table, sqrt: real -> real): (c: Chart)
    requires t.WellFormed() && IsSquareRoot(sqrt)
    ensures c.title == "Bollinger Bands" && c.levels == []
    ensures |c.drawn| == |t.columns|
    ensures forall j :: 0 <= j < |t.columns| ==> c.drawn[j] == BandLines(t, j, sqrt)
  {
    Chart("Bollinger Bands", seq(|t.columns|, j requires 0 <= j < |t.columns| => BandLines(t, j, sqrt)), [])
  }

  /** The chart of the RSI of every ticker, with the overbought and oversold lines. */
  function RsiChart(t: Table): (c: Chart)
    requires t.WellFormed()
    ensures c.title == "RSI for Stocks" && c.levels == [Overbought, Oversold]
    ensures |c.drawn| == |t.columns|
    ensures forall j :: 0 <= j < |t.columns| ==> c.drawn[j] == RsiLines(t, j)
  {
    Chart("RSI for Stocks", seq(|t.columns|, j requires 0 <= j < |t.columns| => RsiLines(t, j)), [Overbought, Oversold])
  }

  /** The chart of the MACD and signal lines. */
  function MacdChart(t: Table): (c: Chart)
    requires t.WellFormed()
    ensures c.title == "MACD (Moving Average Convergence Divergence)" && c.levels == []
    ensures |c.drawn| == |t.columns|
    ensures forall j :: 0 <= j < |t.columns| ==> c.drawn[j] == MacdLines(t, j)
  {
    Chart("MACD (Moving Average Convergence Divergence)", seq(|t.columns|, j requires 0 <= j < |t.columns| => MacdLines(t, j)), [])
  }

  /** The titles of the script's charts, in the order it shows them. */
  const ChartTitles: seq<string> :=
    ["Daily Returns Over Time", "30-Day Rolling Mean of Adjusted Close Price",
     "30-Day Rolling Standard Deviation of Adjusted Close Price", "Cumulative Returns Over Time",
     "SMA and EMA", "Bollinger Bands", "RSI for Stocks",
     "MACD (Moving Average Convergence Divergence)"]

  /** The eight charts of a run, in the order the script shows them. */
  function AllCharts(t: Table, sqrt: real -> real): (charts: seq<Chart>)
    requires t.WellFormed() && IsSquareRoot(sqrt)
    ensures |charts| == |ChartTitles|
    ensures forall k :: 0 <= k < |charts| ==>
              charts[k].title == ChartTitles[k] && |charts[k].drawn| == |t.columns|
  {
    [DailyReturnsChart(t), RollingMeanChart(t), RollingStdChart(t, sqrt), CumulativeChart(t),
     AverageChart(t), BandChart(t, sqrt), RsiChart(t), MacdChart(t)]
  }

  /** The end of a run: no ticker loaded, no complete row of returns, or the charts. */
  function Run(files: map<string, seq<RawRecord>>, sqrt: real -> real): (o: Outcome)
    requires IsSquareRoot(sqrt)
    ensures o == Message(NoData) <==>
              forall s :: s in Store.StockSymbols ==> s !in files || CleanRecords(files[s]).Err?
    ensures o == Message(NoReturns) <==>
              Stored(files) != map[] && DailyReturnsFrame(AdjCloseTable(files)) == []
    ensures o.Shown? <==> Stored(files) != map[] && DailyReturnsFrame(AdjCloseTable(files)) != []
    ensures o.Shown? ==> o.charts == AllCharts(AdjCloseTable(files), sqrt)
  {
    if Stored(files) == map[] then Message(NoData)
    else
      var t := AdjCloseTable(files);
      if DailyReturnsFrame(t) == [] then Message(NoReturns) else Shown(AllCharts(t, sqrt))
  }

  /** Every stored frame has all six value columns as numbers, so `data[symbol]` is a
      numeric Adj_Close series and a ticker that failed is simply absent. */
  lemma StoredNumeric(files: map<string, seq<RawRecord>>)
    ensures forall s :: s in Stored(files) ==> Numbers(Stored(files)[s], AdjClose).Some?
    ensures forall s :: s in Store.StockSymbols && s in files && CleanRecords(files[s]).Ok? ==>
              Some(Stored(files)[s]) == Store.Prepared(files[s], Columns)
  {
  }

  /** For a single loaded ticker of non-zero prices whose dates increase, the cumulative
      return at step `k` is `p[k+1] / p[0]`: compounding the daily returns telescopes. */
  lemma CumulativeSingle(index: seq<DateTime>, s: string, p: seq<real>, k: nat)
    requires |index| == |p| && NonZero(p) && k + 1 < |p|
    ensures var t := Table(index, [s], [Lift(p)]);
      var c := CumulativeLines(t.columns, DailyReturnsFrame(t), 0)[0];
      |c.y| == |p| - 1 && c.y[k] == Some(p[k + 1] / p[0])
  {
    var t := Table(index, [s], [Lift(p)]);
    DailyReturnsFrameSingle(index, s, p);
    var lines := DailyReturnsFrame(t);
    var r := ReturnsColumn(lines, 0);
    DailyReturnsFormula(p);
    assert r == DailyReturns(p);
    CumulativeReturnsTelescope(p, k);
  }

  /** The 50-day EMA at step `k` lies between the lowest and highest price so far. */
  lemma AverageWithinPrices(t: Table, j: nat, k: nat)
    requires t.WellFormed() && j < |t.columns| && k < |Present(t.cells[j])|
    ensures var p := Present(t.cells[j]);
      var y := AverageLines(t, j)[2].y;
      y[k].Some? && MinOf(p[..k + 1]) <= y[k].value <= MaxOf(p[..k + 1])
  {
    EmaBounds(Present(t.cells[j]), AverageWindow, k);
  }

  /** A 30-day window of one price gives that price as its mean and zero as its deviation. */
  lemma StatsConstant(t: Table, j: nat, i: nat, c: real, sqrt: real -> real)
    requires t.WellFormed() && j < |t.columns| && IsSquareRoot(sqrt)
    requires StatsWindow - 1 <= i < |t.index|
    requires forall k :: i + 1 - StatsWindow <= k <= i ==> t.cells[j][k] == Some(c)
    ensures MeanLines(t, j)[0].y[i] == Some(c)
    ensures StdLines(t, j, sqrt)[0].y[i] == Some(0.0)
  {
    RollingMeanConstant(t.cells[j], StatsWindow, i, c);
    RollingStdConstant(t.cells[j], StatsWindow, sqrt, i, c);
  }

  /** Loading one more ticker prints one more line. */
  lemma LoadLogSnoc(symbols: seq<string>, i: nat, files: map<string, seq<RawRecord>>)
    requires i < |symbols|
    ensures LoadLog(symbols[..i + 1], files) == LoadLog(symbols[..i], files) + [LoadMessage(symbols[i], files)]
  {
    assert symbols[..i + 1][..i] == symbols[..i];
  }

  /** Loading the next ticker of a list stores it exactly when it loads cleanly. */
  lemma LoadedStep(symbols: seq<string>, i: nat, files: map<string, seq<RawRecord>>)
    requires i < |symbols|
    ensures Store.Loaded(symbols[..i + 1], files, Columns) ==
              if Store.FailureOf(symbols[i], files).None?
              then Store.Loaded(symbols[..i], files, Columns)[symbols[i] := Store.Prepared(files[symbols[i]], Columns).value]
              else Store.Loaded(symbols[..i], files, Columns)
  {
    assert symbols[..i + 1] == symbols[..i] + [symbols[i]];
    Store.LoadedSnoc(symbols[..i], symbols[i], files, Columns);
  }

  /** One pass of the load loop: ticker `i` is loaded into `data`, and its line returned. */
  method LoadStep(loader: Store.Loader, symbols: seq<string>, i: nat, files: map<string, seq<RawRecord>>)
    returns (message: string)
    requires i < |symbols|
    requires loader.data == Store.Loaded(symbols[..i], files, Columns)
    modifies loader
    ensures loader.data == Store.Loaded(symbols[..i + 1], files, Columns)
    ensures message == LoadMessage(symbols[i], files)
  {
    LoadedStep(symbols, i, files);
    message := LoadMessage(symbols[i], files);
    loader.Load(symbols[i], files, Columns);
  }

  /** The load loop: each ticker is loaded into `data` in turn, and its line printed. */
  method LoadAll(loader: Store.Loader, symbols: seq<string>, files: map<string, seq<RawRecord>>)
    returns (log: seq<string>)
    requires loader.data == map[]
    modifies loader
    ensures loader.data == Store.Loaded(symbols, files, Columns)
    ensures log == LoadLog(symbols, files)
  {
    log := [];
    var i := 0;
    assert Store.Loaded(symbols[..0], files, Columns) == map[];
    while i < |symbols|
      invariant 0 <= i <= |symbols|
      invariant loader.data == Store.Loaded(symbols[..i], files, Columns)
      invariant log == LoadLog(symbols[..i], files)
    {
      var message := LoadStep(loader, symbols, i, files);
      LoadLogSnoc(symbols, i, files);
      log := log + [message];
      i := i + 1;
    }
    assert symbols[..i] == symbols;
  }

  /** The script's top level: the load loop fills `data` and prints a line per ticker; then
      the run ends with a message or shows its charts. */
  method RunScript(files: map<string, seq<RawRecord>>, sqrt: real -> real)
    returns (o: Outcome, log: seq<string>)
    requires IsSquareRoot(sqrt)
    ensures o == Run(files, sqrt)
    ensures log == LoadLog(Store.StockSymbols, files)
  {
    var loader := new Store.Loader();
    log := LoadAll(loader, Store.StockSymbols, files);
    assert loader.data == Stored(files);
    if loader.data == map[] {
      o := Message(NoData);
      return;
    }
    var t := AdjCloseTable(files);
    if DailyReturnsFrame(t) == [] {
      o := Message(NoReturns);
    } else {
      o := Shown(AllCharts(t, sqrt));
    }
  }
}
