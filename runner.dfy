/** The matplotlib variant of the `/stock/graph` endpoint: the same validation and indicator
    helpers as the Plotly backend, plus a single-symbol candlestick chart whose price and volume
    columns are coerced to numbers first. */
module Runner {
  import opened Wrappers
  import opened Series
  import opened Dates
  import opened Records
  import opened Rolling
  import opened Align
  import opened Charts
  import Frames
  import App

  /** What the endpoint sends back: an error, a candlestick chart, or a plotted figure. */
  datatype Image =
    | Failure(status: nat, message: string)
    | CandleChart(title: string, candles: seq<Candle<DateTime>>)
    | Plot(figure: Figure)

  const SingleSymbolOnly: string := "Candlestick chart can only be generated for a single symbol."

  /** The columns the candlestick branch selects and coerces, in this order. */
  const OhlcColumns: seq<Column> := [Open, High, Low, Close, Volume]

  /** The graph types this endpoint draws. */
  const RunnerGraphTypes: set<string> := App.GraphTypes + {"candlestick"}

  /** `calculate_bollinger_bands(series)` as drawn here: the price, the moving average, and the
      band between the upper and lower line shaded. */
  function BandTraces(t: Table, s: string, sqrt: real -> real): (traces: seq<Trace>)
    requires t.WellFormed() && s in t.columns && IsSquareRoot(sqrt)
    ensures |traces| == 3
    ensures traces[0] == Curve(s + " Price", t.index, ColumnOf(t, s))
    ensures traces[1] == Curve(s + " SMA", t.index, RollingMean(ColumnOf(t, s), SmaWindow))
    ensures traces[2].Area? && traces[2].x == t.index
    ensures |traces[2].upper| == |traces[2].lower| == |t.index|
    ensures forall i :: 0 <= i < |t.index| && traces[2].upper[i].Some? ==>
              traces[2].lower[i].Some? && traces[1].y[i].Some? &&
              traces[2].lower[i].value <= traces[1].y[i].value <= traces[2].upper[i].value &&
              traces[2].upper[i].value - traces[1].y[i].value ==
                traces[1].y[i].value - traces[2].lower[i].value
  {
    var col := ColumnOf(t, s);
    var b := Bollinger(col, SmaWindow, sqrt);
    [Curve(s + " Price", t.index, col), Curve(s + " SMA", t.index, b.sma),
     Area(t.index, b.upper, b.lower)]
  }

  /** The three Bollinger traces of every requested symbol, in request order. */
  function BollingerTraces(t: Table, symbols: seq<string>, sqrt: real -> real): (traces: seq<Trace>)
    requires t.WellFormed() && IsSquareRoot(sqrt)
    requires forall s :: s in symbols ==> s in t.columns
    ensures |traces| == 3 * |symbols|
    ensures forall i :: 0 <= i < |symbols| ==>
              traces[3 * i..3 * i + 3] == BandTraces(t, symbols[i], sqrt)
    decreases |symbols|
  {
    if |symbols| == 0 then []
    else
      var init := symbols[..|symbols| - 1];
      var last := symbols[|symbols| - 1];
      var prev := BollingerTraces(t, init, sqrt);
      BollingerBlocksSnoc(t, init, last, prev, sqrt);
      assert init + [last] == symbols;
      prev + BandTraces(t, last, sqrt)
  }

  /** Appending the bands of one more symbol keeps every earlier symbol's three traces in place. */
  lemma BollingerBlocksSnoc(t: Table, init: seq<string>, last: string, prev: seq<Trace>, sqrt: real -> real)
    requires t.WellFormed() && IsSquareRoot(sqrt) && last in t.columns
    requires forall s :: s in init ==> s in t.columns
    requires |prev| == 3 * |init|
    requires forall i :: 0 <= i < |init| ==> prev[3 * i..3 * i + 3] == BandTraces(t, init[i], sqrt)
    ensures var symbols := init + [last];
            var traces := prev + BandTraces(t, last, sqrt);
            |traces| == 3 * |symbols| &&
            forall i :: 0 <= i < |symbols| ==> traces[3 * i..3 * i + 3] == BandTraces(t, symbols[i], sqrt)
  {
    var symbols := init + [last];
    var block := BandTraces(t, last, sqrt);
    var traces := prev + block;
    forall i | 0 <= i < |symbols| ensures traces[3 * i..3 * i + 3] == BandTraces(t, symbols[i], sqrt) {
      if i < |init| {
        assert symbols[i] == init[i];
        assert traces[3 * i..3 * i + 3] == prev[3 * i..3 * i + 3];
      } else {
        assert i == |init| && 3 * i == |prev| && |block| == 3;
        assert traces[3 * i..3 * i + 3] == block;
      }
    }
  }

  /** Drawing one more symbol appends its three Bollinger traces. */
  lemma BollingerTracesSnoc(t: Table, symbols: seq<string>, i: nat, sqrt: real -> real)
    requires t.WellFormed() && IsSquareRoot(sqrt) && i < |symbols|
    requires forall s :: s in symbols ==> s in t.columns
    ensures BollingerTraces(t, symbols[..i + 1], sqrt) ==
              BollingerTraces(t, symbols[..i], sqrt) + BandTraces(t, symbols[i], sqrt)
  {
    assert symbols[..i + 1][..i] == symbols[..i];
  }

  /** The figure of a non-candlestick graph type: as in the Plotly backend, except that the
      Bollinger chart shades the band instead of drawing its two lines. */
  function Draw(graphType: string, t: Table, valid: seq<string>, sqrt: real -> real)
    : (f: Option<Figure>)
    requires t.WellFormed() && IsSquareRoot(sqrt)
    requires forall s :: s in valid ==> s in t.columns
    ensures f.Some? <==> graphType in App.GraphTypes
    ensures graphType == "bollinger_bands" ==>
              f == Some(Figure("Bollinger Bands", BollingerTraces(t, valid, sqrt), []))
    ensures graphType != "bollinger_bands" ==> f == App.Draw(graphType, t, valid, sqrt)
  {
    if graphType == "bollinger_bands" then
      Some(Figure("Bollinger Bands", BollingerTraces(t, valid, sqrt), []))
    else App.Draw(graphType, t, valid, sqrt)
  }

  /** The candles of one symbol's frame with the five price and volume columns coerced: every
      cell is a number (NaN where the text was not one), in row order. */
  function CandlestickRows(rows: seq<Row<DateTime>>): (candles: seq<Candle<DateTime>>)
    ensures |candles| == |rows|
    ensures forall i :: 0 <= i < |rows| ==>
              candles[i].date == rows[i].date &&
              candles[i].open == Coerce(rows[i].Get(Open)) &&
              candles[i].high == Coerce(rows[i].Get(High)) &&
              candles[i].low == Coerce(rows[i].Get(Low)) &&
              candles[i].close == Coerce(rows[i].Get(Close)) &&
              candles[i].volume == Coerce(rows[i].Get(Volume))
  {
    Ohlc(CoerceRows(rows, ColumnSet(OhlcColumns)))
  }

  /** The image the endpoint owes a request: the parameter check, the symbol check, the
      single-symbol rule for candlesticks, then the graph type. */
  function Respond(symbolsParam: Option<string>, graphTypeParam: Option<string>,
                   data: map<string, seq<Row<DateTime>>>, sqrt: real -> real): (r: Image)
    requires App.AdjCloseNumeric(data) && IsSquareRoot(sqrt)
    ensures var graphType := App.RequestedGraphType(graphTypeParam);
      var valid := ValidSymbols(App.RequestedSymbols(symbolsParam), data.Keys);
      (r == Failure(400, App.MissingParameters) <==> graphType == "") &&
      (r == Failure(400, App.NoValidSymbols) <==> graphType != "" && valid == []) &&
      (r == Failure(400, SingleSymbolOnly) <==> graphType == "candlestick" && |valid| > 1) &&
      (r.CandleChart? <==> graphType == "candlestick" && |valid| == 1) &&
      (r == Failure(400, App.InvalidGraphType) <==>
         graphType != "" && valid != [] && graphType !in RunnerGraphTypes) &&
      (r.Plot? <==> graphType in App.GraphTypes && valid != [])
  {
    var graphType := App.RequestedGraphType(graphTypeParam);
    var valid := ValidSymbols(App.RequestedSymbols(symbolsParam), data.Keys);
    if graphType == "" then Failure(400, App.MissingParameters)
    else if valid == [] then Failure(400, App.NoValidSymbols)
    else if graphType == "candlestick" then
      if |valid| > 1 then Failure(400, SingleSymbolOnly)
      else
        assert valid[0] in valid;
        CandleChart(valid[0] + " Candlestick Chart", CandlestickRows(data[valid[0]]))
    else
      App.ValidLoadable(data, App.RequestedSymbols(symbolsParam));
      match Plotted(graphType, data, valid, sqrt)
      case Some(f) => Plot(f)
      case None => Failure(400, App.InvalidGraphType)
  }

  /** A candlestick answer charts the one valid symbol's coerced rows under its title. */
  lemma RespondCandlestick(symbolsParam: Option<string>, graphTypeParam: Option<string>,
                           data: map<string, seq<Row<DateTime>>>, sqrt: real -> real)
    requires App.AdjCloseNumeric(data) && IsSquareRoot(sqrt)
    ensures var r := Respond(symbolsParam, graphTypeParam, data, sqrt);
      var valid := ValidSymbols(App.RequestedSymbols(symbolsParam), data.Keys);
      r.CandleChart? ==>
        |valid| == 1 && valid[0] in data &&
        r.title == valid[0] + " Candlestick Chart" && r.candles == CandlestickRows(data[valid[0]])
  {
  }

  /** The figure of a non-candlestick graph type over the aligned Adj_Close table. */
  function Plotted(graphType: string, data: map<string, seq<Row<DateTime>>>, valid: seq<string>,
                   sqrt: real -> real): (f: Option<Figure>)
    requires Loadable(data, valid) && IsSquareRoot(sqrt)
    ensures f.Some? <==> graphType in App.GraphTypes
  {
    Draw(graphType, AdjCloseFrame(data, valid), valid, sqrt)
  }

  /** The candlestick branch: select the five columns, coerce them one by one, and chart them
      under the symbol's title. */
  method Candlestick(symbol: string, rows: seq<Row<DateTime>>) returns (r: Image)
    ensures r == CandleChart(symbol + " Candlestick Chart", CandlestickRows(rows))
  {
    var ohlc := new Frame(rows);
    ohlc.CoerceColumns(OhlcColumns);
    r := CandleChart(symbol + " Candlestick Chart", Ohlc(ohlc.rows));
  }

  /** The loop body of the Bollinger branch: price, moving average and shaded band. */
  method AddBand(fig: Canvas, t: Table, s: string, sqrt: real -> real)
    requires t.WellFormed() && s in t.columns && IsSquareRoot(sqrt)
    modifies fig
    ensures fig.traces == old(fig.traces) + BandTraces(t, s, sqrt)
    ensures fig.title == old(fig.title) && fig.levels == old(fig.levels)
  {
    var traces := BandTraces(t, s, sqrt);
    var price, sma, band := traces[0], traces[1], traces[2];
    assert traces == [price, sma, band];
    fig.AddTrace(price);
    fig.AddTrace(sma);
    fig.AddTrace(band);
  }

  /** The Bollinger branch, symbol by symbol. */
  method DrawBollinger(t: Table, valid: seq<string>, sqrt: real -> real) returns (f: Figure)
    requires t.WellFormed() && IsSquareRoot(sqrt)
    requires forall s :: s in valid ==> s in t.columns
    ensures f == Figure("Bollinger Bands", BollingerTraces(t, valid, sqrt), [])
  {
    var fig := new Canvas();
    var i := 0;
    while i < |valid|
      invariant 0 <= i <= |valid|
      invariant fig.traces == BollingerTraces(t, valid[..i], sqrt)
      invariant fig.title == "" && fig.levels == []
    {
      BollingerTracesSnoc(t, valid, i, sqrt);
      AddBand(fig, t, valid[i], sqrt);
      i := i + 1;
    }
    assert valid[..i] == valid;
    fig.SetTitle("Bollinger Bands");
    f := fig.Value();
  }

  /** `stock_graph()` of the matplotlib backend. */
  method StockGraph(symbolsParam: Option<string>, graphTypeParam: Option<string>,
                    data: map<string, seq<Row<DateTime>>>, sqrt: real -> real)
    returns (r: Image)
    requires App.AdjCloseNumeric(data) && IsSquareRoot(sqrt)
    ensures r == Respond(symbolsParam, graphTypeParam, data, sqrt)
  {
    var symbols := App.RequestedSymbols(symbolsParam);
    var graphType := App.RequestedGraphType(graphTypeParam);
    if graphType == "" {
      return Failure(400, App.MissingParameters);
    }
    var valid := ValidSymbols(symbols, data.Keys);
    if valid == [] {
      return Failure(400, App.NoValidSymbols);
    }
    if graphType == "candlestick" {
      if |valid| > 1 {
        return Failure(400, SingleSymbolOnly);
      }
      assert valid[0] in valid;
      r := Candlestick(valid[0], data[valid[0]]);
      return;
    }
    App.ValidLoadable(data, symbols);
    var t := AdjCloseFrame(data, valid);
    var f := DrawGraph(graphType, t, valid, sqrt);
    match f
    case Some(fig) => r := Plot(fig);
    case None => r := Failure(400, App.InvalidGraphType);
  }

  /** The graph-type dispatch: the shaded Bollinger chart here, the shared figures otherwise. */
  method DrawGraph(graphType: string, t: Table, valid: seq<string>, sqrt: real -> real)
    returns (f: Option<Figure>)
    requires t.WellFormed() && IsSquareRoot(sqrt)
    requires forall s :: s in valid ==> s in t.columns
    ensures f == Draw(graphType, t, valid, sqrt)
  {
    if graphType == "bollinger_bands" {
      var fig := DrawBollinger(t, valid, sqrt);
      f := Some(fig);
    } else {
      f := App.DrawGraph(graphType, t, valid, sqrt);
    }
  }
}
