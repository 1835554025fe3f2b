/** The `/stock/graph` endpoint of the Plotly backend: parameter defaults, symbol
    validation, and one figure per graph type built over the aligned Adj_Close table. */
module App {
  import opened Wrappers
  import Text
  import opened Dates
  import opened Records
  import opened Series
  import opened Returns
  import opened Rolling
  import opened Align
  import opened Frames
  import opened Charts
  import Store

  /** What the endpoint sends back: an error with its status, or a figure. */
  datatype Response = Failure(status: nat, message: string) | Chart(figure: Figure)

  const MissingParameters: string := "Please provide 'symbols' and 'graph_type' parameters."
  const NoValidSymbols: string := "No valid stock symbols provided."
  const InvalidGraphType: string := "Invalid graph type"

  /** The graph types this endpoint draws. */
  const GraphTypes: set<string> := {"daily_returns", "rolling_mean", "bollinger_bands", "rsi", "macd"}

  /** `request.args.get('symbols', '').split(',')`: never empty; an absent parameter gives the
      single empty symbol. */
  function RequestedSymbols(param: Option<string>): (symbols: seq<string>)
    ensures |symbols| >= 1
    ensures param.None? ==> symbols == [""]
    ensures param.Some? && ',' !in param.value ==> symbols == [param.value]
    ensures forall k :: 0 <= k < |symbols| ==> ',' !in symbols[k]
    ensures Text.Join(symbols, ',') == (if param.Some? then param.value else "")
  {
    var text := if param.Some? then param.value else "";
    Text.JoinSplit(text, ',');
    if ',' !in text then Text.SplitWithoutSeparator(text, ','); Text.Split(text, ',')
    else Text.Split(text, ',')
  }

  /** `request.args.get('graph_type', 'daily_returns')`. */
  function RequestedGraphType(param: Option<string>): (graphType: string)
    ensures param.None? ==> graphType == "daily_returns"
    ensures param.Some? ==> graphType == param.value
  {
    if param.Some? then param.value else "daily_returns"
  }

  /** Every loaded frame has a numeric Adj_Close column, as the loader coerces it. */
  predicate AdjCloseNumeric(data: map<string, seq<Row<DateTime>>>)
  {
    forall s :: s in data ==> Numbers(data[s], AdjClose).Some?
  }

  /** The startup load of this script coerces Adj_Close, so the table it builds satisfies the
      invariant the endpoint relies on. */
  lemma LoadedAdjCloseNumeric(files: map<string, seq<RawRecord>>)
    ensures AdjCloseNumeric(Store.Loaded(Store.StockSymbols, files, [AdjClose]))
  {
    var data := Store.Loaded(Store.StockSymbols, files, [AdjClose]);
    forall s | s in data ensures Numbers(data[s], AdjClose).Some? {
      assert Some(data[s]) == Store.Prepared(files[s], [AdjClose]);
    }
  }

  /** The four Bollinger traces of every requested symbol, in request order; a symbol
      requested twice is drawn twice. */
  function BollingerTraces(t: Table, symbols: seq<string>, sqrt: real -> real): (traces: seq<Trace>)
    requires t.WellFormed() && IsSquareRoot(sqrt)
    requires forall s :: s in symbols ==> s in t.columns
    ensures |traces| == 4 * |symbols|
    ensures forall i :: 0 <= i < |symbols| ==>
              traces[4 * i..4 * i + 4] == BandCurves(t, symbols[i], sqrt)
    decreases |symbols|
  {
    if |symbols| == 0 then []
    else
      var init := symbols[..|symbols| - 1];
      var last := symbols[|symbols| - 1];
      var prev := BollingerTraces(t, init, sqrt);
      BollingerBlocksSnoc(t, init, last, prev, sqrt);
      assert init + [last] == symbols;
      prev + BandCurves(t, last, sqrt)
  }

  /** Appending the bands of one more symbol keeps every earlier symbol's four traces in place. */
  lemma BollingerBlocksSnoc(t: Table, init: seq<string>, last: string, prev: seq<Trace>, sqrt: real -> real)
    requires t.WellFormed() && IsSquareRoot(sqrt) && last in t.columns
    requires forall s :: s in init ==> s in t.columns
    requires |prev| == 4 * |init|
    requires forall i :: 0 <= i < |init| ==> prev[4 * i..4 * i + 4] == BandCurves(t, init[i], sqrt)
    ensures var symbols := init + [last];
            var traces := prev + BandCurves(t, last, sqrt);
            |traces| == 4 * |symbols| &&
            forall i :: 0 <= i < |symbols| ==> traces[4 * i..4 * i + 4] == BandCurves(t, symbols[i], sqrt)
  {
    var symbols := init + [last];
    var block := BandCurves(t, last, sqrt);
    var traces := prev + block;
    forall i | 0 <= i < |symbols| ensures traces[4 * i..4 * i + 4] == BandCurves(t, symbols[i], sqrt) {
      if i < |init| {
        assert symbols[i] == init[i];
        assert traces[4 * i..4 * i + 4] == prev[4 * i..4 * i + 4];
      } else {
        assert i == |init| && 4 * i == |prev| && |block| == 4;
        assert traces[4 * i..4 * i + 4] == block;
      }
    }
  }

  /** One RSI curve per requested symbol, in request order. */
  function RsiTraces(t: Table, symbols: seq<string>): (traces: seq<Trace>)
    requires t.WellFormed()
    requires forall s :: s in symbols ==> s in t.columns
    ensures |traces| == |symbols|
    ensures forall i :: 0 <= i < |symbols| ==> traces[i] == RsiCurve(t, symbols[i])
    decreases |symbols|
  {
    if |symbols| == 0 then []
    else RsiTraces(t, symbols[..|symbols| - 1]) + [RsiCurve(t, symbols[|symbols| - 1])]
  }

  /** The MACD and signal curves of every requested symbol, in request order. */
  function MacdTraces(t: Table, symbols: seq<string>): (traces: seq<Trace>)
    requires t.WellFormed()
    requires forall s :: s in symbols ==> s in t.columns
    ensures |traces| == 2 * |symbols|
    ensures forall i :: 0 <= i < |symbols| ==>
              traces[2 * i..2 * i + 2] ==
                MacdCurves(t, symbols[i], symbols[i] + " MACD", symbols[i] + " Signal")
    decreases |symbols|
  {
    if |symbols| == 0 then []
    else
      var init := symbols[..|symbols| - 1];
      var last := symbols[|symbols| - 1];
      var prev := MacdTraces(t, init);
      var block := MacdCurves(t, last, last + " MACD", last + " Signal");
      MacdBlocksSnoc(t, init, last, prev);
      assert init + [last] == symbols;
      prev + block
  }

  /** Appending the curves of one more symbol keeps every earlier symbol's pair in place. */
  lemma MacdBlocksSnoc(t: Table, init: seq<string>, last: string, prev: seq<Trace>)
    requires t.WellFormed() && last in t.columns
    requires forall s :: s in init ==> s in t.columns
    requires |prev| == 2 * |init|
    requires forall i :: 0 <= i < |init| ==>
               prev[2 * i..2 * i + 2] == MacdCurves(t, init[i], init[i] + " MACD", init[i] + " Signal")
    ensures var symbols := init + [last];
            var traces := prev + MacdCurves(t, last, last + " MACD", last + " Signal");
            |traces| == 2 * |symbols| &&
            forall i :: 0 <= i < |symbols| ==>
              traces[2 * i..2 * i + 2] ==
                MacdCurves(t, symbols[i], symbols[i] + " MACD", symbols[i] + " Signal")
  {
    var symbols := init + [last];
    var block := MacdCurves(t, last, last + " MACD", last + " Signal");
    var traces := prev + block;
    forall i | 0 <= i < |symbols|
      ensures traces[2 * i..2 * i + 2] ==
                MacdCurves(t, symbols[i], symbols[i] + " MACD", symbols[i] + " Signal")
    {
      if i < |init| {
        assert symbols[i] == init[i];
        assert traces[2 * i..2 * i + 2] == prev[2 * i..2 * i + 2];
      } else {
        assert i == |init| && 2 * i == |prev| && |block| == 2;
        assert traces[2 * i..2 * i + 2] == block;
      }
    }
  }

  /** Drawing one more symbol appends its four Bollinger traces. */
  lemma BollingerTracesSnoc(t: Table, symbols: seq<string>, i: nat, sqrt: real -> real)
    requires t.WellFormed() && IsSquareRoot(sqrt) && i < |symbols|
    requires forall s :: s in symbols ==> s in t.columns
    ensures BollingerTraces(t, symbols[..i + 1], sqrt) ==
              BollingerTraces(t, symbols[..i], sqrt) + BandCurves(t, symbols[i], sqrt)
  {
    assert symbols[..i + 1][..i] == symbols[..i];
  }

  /** Drawing one more symbol appends its MACD and signal traces. */
  lemma MacdTracesSnoc(t: Table, symbols: seq<string>, i: nat)
    requires t.WellFormed() && i < |symbols|
    requires forall s :: s in symbols ==> s in t.columns
    ensures MacdTraces(t, symbols[..i + 1]) ==
              MacdTraces(t, symbols[..i]) +
              MacdCurves(t, symbols[i], symbols[i] + " MACD", symbols[i] + " Signal")
  {
    assert symbols[..i + 1][..i] == symbols[..i];
  }

  /** The figure drawn for a graph type over the aligned table of the valid symbols, or none
      for a type the endpoint does not know. */
  function Draw(graphType: string, t: Table, valid: seq<string>, sqrt: real -> real)
    : (f: Option<Figure>)
    requires t.WellFormed() && IsSquareRoot(sqrt)
    requires forall s :: s in valid ==> s in t.columns
    ensures f.Some? <==> graphType in GraphTypes
    ensures graphType in {"daily_returns", "rolling_mean"} ==>
              |f.value.traces| == |t.columns| && f.value.levels == []
    ensures graphType == "bollinger_bands" ==> |f.value.traces| == 4 * |valid| && f.value.levels == []
    ensures graphType == "rsi" ==> |f.value.traces| == |valid| && f.value.levels == [70.0, 30.0]
    ensures graphType == "macd" ==> |f.value.traces| == 2 * |valid| && f.value.levels == []
  {
    if graphType == "daily_returns" then
      Some(Figure("Daily Returns for Selected Symbols",
                  LineCurves(t.columns, DailyReturnsFrame(t)), []))
    else if graphType == "rolling_mean" then
      Some(Figure("Rolling Mean (20-day) for Selected Symbols",
                  FrameCurves(RollingMeanFrame(t, SmaWindow)), []))
    else if graphType == "bollinger_bands" then
      Some(Figure("Bollinger Bands", BollingerTraces(t, valid, sqrt), []))
    else if graphType == "rsi" then
      Some(Figure("Relative Strength Index (RSI)", RsiTraces(t, valid), [Overbought, Oversold]))
    else if graphType == "macd" then
      Some(Figure("MACD (Moving Average Convergence Divergence)", MacdTraces(t, valid), []))
    else None
  }

  /** The valid symbols of a request are all loaded with a numeric Adj_Close column. */
  lemma ValidLoadable(data: map<string, seq<Row<DateTime>>>, symbols: seq<string>)
    requires AdjCloseNumeric(data)
    ensures Loadable(data, ValidSymbols(symbols, data.Keys))
  {
  }

  /** The response the endpoint owes a request: the parameter check first, then the symbol
      check, then the graph type. */
  function Respond(symbolsParam: Option<string>, graphTypeParam: Option<string>,
                   data: map<string, seq<Row<DateTime>>>, sqrt: real -> real): (r: Response)
    requires AdjCloseNumeric(data) && IsSquareRoot(sqrt)
    ensures var graphType := RequestedGraphType(graphTypeParam);
      var valid := ValidSymbols(RequestedSymbols(symbolsParam), data.Keys);
      (r == Failure(400, MissingParameters) <==> graphType == "") &&
      (r == Failure(400, NoValidSymbols) <==> graphType != "" && valid == []) &&
      (r == Failure(400, InvalidGraphType) <==>
         graphType != "" && valid != [] && graphType !in GraphTypes) &&
      (r.Chart? <==> graphType in GraphTypes && valid != [])
  {
    var graphType := RequestedGraphType(graphTypeParam);
    var valid := ValidSymbols(RequestedSymbols(symbolsParam), data.Keys);
    if graphType == "" then Failure(400, MissingParameters)
    else if valid == [] then Failure(400, NoValidSymbols)
    else
      ValidLoadable(data, RequestedSymbols(symbolsParam));
      match Plotted(graphType, data, valid, sqrt)
      case Some(f) => Chart(f)
      case None => Failure(400, InvalidGraphType)
  }

  /** The figure of a graph type over the aligned Adj_Close table of the valid symbols. */
  function Plotted(graphType: string, data: map<string, seq<Row<DateTime>>>, valid: seq<string>,
                   sqrt: real -> real): (f: Option<Figure>)
    requires Loadable(data, valid) && IsSquareRoot(sqrt)
    ensures f.Some? <==> graphType in GraphTypes
  {
    Draw(graphType, AdjCloseFrame(data, valid), valid, sqrt)
  }

  /** A request naming one loaded symbol with a gap-free, non-zero
      price column gets one daily-returns curve with a return for every date but the first. */
  lemma DailyReturnsOneSymbol(data: map<string, seq<Row<DateTime>>>, s: string, p: seq<real>,
                              sqrt: real -> real)
    requires AdjCloseNumeric(data) && IsSquareRoot(sqrt) && s in data && ',' !in s
    requires Numbers(data[s], AdjClose) == Some(Lift(p)) && |p| >= 1 && NonZero(p)
    ensures var r := Respond(Some(s), None, data, sqrt);
      r.Chart? && |r.figure.traces| == 1 && r.figure.traces[0].name == s &&
      |r.figure.traces[0].y| == |p| - 1 &&
      forall k :: 0 <= k < |p| - 1 ==> r.figure.traces[0].y[k] == Some(p[k + 1] / p[k] - 1.0)
  {
    assert RequestedSymbols(Some(s)) == [s];
    assert ValidSymbols([s], data.Keys) == ValidSymbols([], data.Keys) + [s];
    AdjCloseFrameSingle(data, s);
    var t := AdjCloseFrame(data, [s]);
    assert t == Table(DatesOf(data[s]), [s], [Lift(p)]);
    DailyReturnsFrameSingle(DatesOf(data[s]), s, p);
  }

  /** The loop body of the Bollinger branch: the four traces of one symbol, in order. */
  method AddBands(fig: Canvas, t: Table, s: string, sqrt: real -> real)
    requires t.WellFormed() && s in t.columns && IsSquareRoot(sqrt)
    modifies fig
    ensures fig.traces == old(fig.traces) + BandCurves(t, s, sqrt)
    ensures fig.title == old(fig.title) && fig.levels == old(fig.levels)
  {
    var curves := BandCurves(t, s, sqrt);
    var c0, c1, c2, c3 := curves[0], curves[1], curves[2], curves[3];
    assert curves == [c0, c1, c2, c3];
    fig.AddTrace(c0);
    fig.AddTrace(c1);
    fig.AddTrace(c2);
    fig.AddTrace(c3);
  }

  /** The Bollinger branch: for each requested symbol, its price, moving average and bands. */
  method DrawBollinger(t: Table, valid: seq<string>, sqrt: real -> real) returns (f: Figure)
    requires t.WellFormed() && IsSquareRoot(sqrt)
    requires forall s :: s in valid ==> s in t.columns
    ensures f == Figure("Bollinger Bands", BollingerTraces(t, valid, sqrt), [])
  {
    var fig := new Canvas();
    var i := 0;
    while i < |valid|
      invariant 0 <= i <= |valid|
      invariant fig.traces == BollingerTraces(t, valid[..i], sqrt)
      invariant fig.title == "" && fig.levels == []
    {
      BollingerTracesSnoc(t, valid, i, sqrt);
      AddBands(fig, t, valid[i], sqrt);
      i := i + 1;
    }
    assert valid[..i] == valid;
    fig.SetTitle("Bollinger Bands");
    f := fig.Value();
  }

  /** The RSI branch: one curve per requested symbol, then the 70 and 30 lines. */
  method DrawRsi(t: Table, valid: seq<string>) returns (f: Figure)
    requires t.WellFormed()
    requires forall s :: s in valid ==> s in t.columns
    ensures f == Figure("Relative Strength Index (RSI)", RsiTraces(t, valid), [Overbought, Oversold])
  {
    var fig := new Canvas();
    var i := 0;
    while i < |valid|
      invariant 0 <= i <= |valid|
      invariant fig.traces == RsiTraces(t, valid[..i])
      invariant fig.title == "" && fig.levels == []
    {
      assert valid[..i + 1][..i] == valid[..i];
      fig.AddTrace(RsiCurve(t, valid[i]));
      i := i + 1;
    }
    assert valid[..i] == valid;
    fig.AddLevel(Overbought);
    fig.AddLevel(Oversold);
    fig.SetTitle("Relative Strength Index (RSI)");
    f := fig.Value();
  }

  /** The MACD branch: the MACD and signal curves of each requested symbol. */
  method DrawMacd(t: Table, valid: seq<string>) returns (f: Figure)
    requires t.WellFormed()
    requires forall s :: s in valid ==> s in t.columns
    ensures f == Figure("MACD (Moving Average Convergence Divergence)", MacdTraces(t, valid), [])
  {
    var fig := new Canvas();
    var i := 0;
    while i < |valid|
      invariant 0 <= i <= |valid|
      invariant fig.traces == MacdTraces(t, valid[..i])
      invariant fig.title == "" && fig.levels == []
    {
      MacdTracesSnoc(t, valid, i);
      AddMacd(fig, t, valid[i]);
      i := i + 1;
    }
    assert valid[..i] == valid;
    fig.SetTitle("MACD (Moving Average Convergence Divergence)");
    f := fig.Value();
  }

  /** The loop body of the MACD branch: the MACD curve, then the signal curve. */
  method AddMacd(fig: Canvas, t: Table, s: string)
    requires t.WellFormed() && s in t.columns
    modifies fig
    ensures fig.traces == old(fig.traces) + MacdCurves(t, s, s + " MACD", s + " Signal")
    ensures fig.title == old(fig.title) && fig.levels == old(fig.levels)
  {
    var curves := MacdCurves(t, s, s + " MACD", s + " Signal");
    var macd, signal := curves[0], curves[1];
    assert curves == [macd, signal];
    fig.AddTrace(macd);
    fig.AddTrace(signal);
  }

  /** `stock_graph()`: the endpoint itself. */
  method StockGraph(symbolsParam: Option<string>, graphTypeParam: Option<string>,
                    data: map<string, seq<Row<DateTime>>>, sqrt: real -> real)
    returns (r: Response)
    requires AdjCloseNumeric(data) && IsSquareRoot(sqrt)
    ensures r == Respond(symbolsParam, graphTypeParam, data, sqrt)
  {
    var symbols := RequestedSymbols(symbolsParam);
    var graphType := RequestedGraphType(graphTypeParam);
    if graphType == "" {
      return Failure(400, MissingParameters);
    }
    var valid := ValidSymbols(symbols, data.Keys);
    if valid == [] {
      return Failure(400, NoValidSymbols);
    }
    var t := AdjCloseFrame(data, valid);
    var f := DrawGraph(graphType, t, valid, sqrt);
    match f
    case Some(fig) => r := Chart(fig);
    case None => r := Failure(400, InvalidGraphType);
  }

  /** The graph-type dispatch of `stock_graph()`: one figure per known type, none otherwise. */
  method DrawGraph(graphType: string, t: Table, valid: seq<string>, sqrt: real -> real)
    returns (f: Option<Figure>)
    requires t.WellFormed() && IsSquareRoot(sqrt)
    requires forall s :: s in valid ==> s in t.columns
    ensures f == Draw(graphType, t, valid, sqrt)
  {
    if graphType == "daily_returns" {
      f := Some(Figure("Daily Returns for Selected Symbols",
                       LineCurves(t.columns, DailyReturnsFrame(t)), []));
    } else if graphType == "rolling_mean" {
      f := Some(Figure("Rolling Mean (20-day) for Selected Symbols",
                       FrameCurves(RollingMeanFrame(t, SmaWindow)), []));
    } else if graphType == "bollinger_bands" {
      var fig := DrawBollinger(t, valid, sqrt);
      f := Some(fig);
    } else if graphType == "rsi" {
      var fig := DrawRsi(t, valid);
      f := Some(fig);
    } else if graphType == "macd" {
      var fig := DrawMacd(t, valid);
      f := Some(fig);
    } else {
      f := None;
    }
  }
}
