/** The React page: a text box whose value filters the known symbols as the user types, a
    graph-type select, and a button that sends one request to one of the three backends and
    keeps the figure the answer describes, or an error line. JavaScript values are modelled
    as the `Value` datatype, the backends' answers as the `Value`s their `jsonify` builds. */
module Frontend {
  import opened Wrappers
  import opened Dates
  import opened Records
  import Text
  import Trading
  import Candlestick

  /** The symbols the page suggests. */
  const StockSymbols: seq<string> :=
    ["AAPL", "MSFT", "GOOG", "AMZN", "TSLA", "SPY", "NVDA", "META", "NFLX", "AMD"]

  const EmptyInput: string := "Please enter a stock symbol."
  const FetchFailed: string := "Failed to fetch graph data. Please check the symbol or backend."

  // ---------------------------------------------------------------------------------------
  // The symbol filter

  /** `symbol.toLowerCase().includes(query.toLowerCase())`. */
  predicate Matches(symbol: string, query: string)
  {
    Text.Contains(Text.ToLower(symbol), Text.ToLower(query))
  }

  /** `a` is `b` with some entries removed: what is left keeps its order. */
  predicate Subsequence(a: seq<string>, b: seq<string>)
    decreases |b|
  {
    if |a| == 0 then true
    else if |b| == 0 then false
    else (a[0] == b[0] && Subsequence(a[1..], b[1..])) || Subsequence(a, b[1..])
  }

  /** `list.filter(symbol => ...)` with the case-insensitive match. */
  function Filter(list: seq<string>, query: string): (r: seq<string>)
    ensures forall s :: s in r <==> s in list && Matches(s, query)
    ensures Subsequence(r, list)
    decreases |list|
  {
    if |list| == 0 then []
    else
      var rest := Filter(list[1..], query);
      assert forall s :: s in list <==> s == list[0] || s in list[1..];
      if Matches(list[0], query) then
        var r := [list[0]] + rest;
        assert r[1..] == rest;
        r
      else
        assert rest != [] ==> Subsequence(rest, list[1..]);
        rest
  }

  /** `filteredSymbols`: the known symbols matching the text box, in their listed order. */
  function FilteredSymbols(query: string): (r: seq<string>)
    ensures forall s :: s in r <==> s in StockSymbols && Matches(s, query)
    ensures Subsequence(r, StockSymbols)
  {
    Filter(StockSymbols, query)
  }

  /** An empty text box suggests every symbol. */
  lemma {:induction false} EmptyQueryKeepsAll(list: seq<string>)
    ensures Filter(list, "") == list
    decreases |list|
  {
    if |list| > 0 {
      EmptyQueryKeepsAll(list[1..]);
      Text.ContainsEmpty(Text.ToLower(list[0]));
      assert Text.ToLower("") == "";
    }
  }

  /** The filter does not see the case of the query: lower-casing it first changes nothing. */
  lemma {:induction false} FilterIgnoresCase(list: seq<string>, query: string)
    ensures Filter(list, Text.ToLower(query)) == Filter(list, query)
    decreases |list|
  {
    Text.ToLowerIdempotent(query);
    if |list| > 0 {
      FilterIgnoresCase(list[1..], query);
    }
  }

  /** Every symbol matches itself, so picking a suggestion keeps it suggested. */
  lemma PickedSymbolStaysListed(symbol: string)
    requires symbol in StockSymbols
    ensures symbol in FilteredSymbols(symbol)
  {
    assert Text.OccursAt(Text.ToLower(symbol), Text.ToLower(symbol), 0);
  }

  // ---------------------------------------------------------------------------------------
  // JavaScript values and the backends' answers

  /** A JavaScript value as the page sees it after `axios` parsed an answer. */
  datatype Value =
    | Undefined
    | Null
    | Flag(b: bool)
    | Number(n: real)
    | Chars(s: string)
    | Stamp(t: DateTime)
    | List(items: seq<Value>)
    | Object(fields: map<string, Value>)

  /** `v.key`: `None` where JavaScript throws a `TypeError` (reading from `undefined` or
      `null`), `undefined` for a key an object does not have. */
  function Member(v: Value, key: string): (r: Option<Value>)
    ensures r.None? <==> v.Undefined? || v.Null?
    ensures v.Object? ==> r == Some(if key in v.fields then v.fields[key] else Undefined)
  {
    match v
    case Undefined => None
    case Null => None
    case Object(m) => Some(if key in m then m[key] else Undefined)
    case _ => Some(Undefined)
  }

  /** `v[0]`: the first element of an array, or of a string, or an object's `"0"` entry. */
  function First(v: Value): (r: Option<Value>)
    ensures r.None? <==> v.Undefined? || v.Null?
    ensures v.List? ==> r == Some(if |v.items| > 0 then v.items[0] else Undefined)
  {
    match v
    case Undefined => None
    case Null => None
    case List(items) => Some(if |items| > 0 then items[0] else Undefined)
    case Chars(s) => Some(if |s| > 0 then Chars([s[0]]) else Undefined)
    case Object(m) => Some(if "0" in m then m["0"] else Undefined)
    case _ => Some(Undefined)
  }

  /** A cell that JSON can hold: text, or a number that is present. A missing number is NaN,
      which `jsonify` writes as the bare token `NaN`, and JSON has no such token. */
  predicate Writable(c: Cell)
  {
    c.Str? || c.value.Some?
  }

  /** Every cell of the column can be written as JSON. */
  predicate AllWritable(cells: seq<Cell>)
  {
    forall i :: 0 <= i < |cells| ==> Writable(cells[i])
  }

  /** How `jsonify` sends a cell JSON can hold: text as a string, a number as a number. */
  function CellValue(c: Cell): (v: Value)
    requires Writable(c)
    ensures c.Str? ==> v == Chars(c.text)
    ensures c.Num? ==> v == Number(c.value.value)
  {
    match c
    case Str(t) => Chars(t)
    case Num(x) => Number(x.value)
  }

  /** A column of cells as an array. */
  function CellList(cells: seq<Cell>): (v: Value)
    requires AllWritable(cells)
    ensures v.List? && |v.items| == |cells|
    ensures forall i :: 0 <= i < |cells| ==> v.items[i] == CellValue(cells[i])
  {
    List(seq(|cells|, i requires 0 <= i < |cells| => CellValue(cells[i])))
  }

  /** A list of strings as an array. */
  function TextList(texts: seq<string>): (v: Value)
    ensures v.List? && |v.items| == |texts|
    ensures forall i :: 0 <= i < |texts| ==> v.items[i] == Chars(texts[i])
  {
    List(seq(|texts|, i requires 0 <= i < |texts| => Chars(texts[i])))
  }

  /** A list of timestamps as an array. */
  function StampList(times: seq<DateTime>): (v: Value)
    ensures v.List? && |v.items| == |times|
    ensures forall i :: 0 <= i < |times| ==> v.items[i] == Stamp(times[i])
  {
    List(seq(|times|, i requires 0 <= i < |times| => Stamp(times[i])))
  }

  /** The body of a successful volume answer: `{x, y}`. */
  function VolumeBody(r: Trading.Response): (body: Value)
    requires r.VolumeData? && AllWritable(r.y)
    ensures body.Object? && body.fields.Keys == {"x", "y"}
    ensures body.fields["x"] == TextList(r.x) && body.fields["y"] == CellList(r.y)
  {
    Object(map["x" := TextList(r.x), "y" := CellList(r.y)])
  }

  /** The body of a successful candlestick answer: `{data: [trace], layout}`. */
  function CandleBody(r: Candlestick.Response): (body: Value)
    requires r.Chart? && PricesWritable(r.trace)
    ensures body.Object? && "data" in body.fields && "layout" in body.fields
    ensures body.fields["data"] == List([CandleTraceValue(r.trace)])
  {
    Object(map["data" := List([CandleTraceValue(r.trace)]),
               "layout" := Object(map["title" := Chars(r.title),
                                      "xaxis" := Object(map["title" := Chars("Date")]),
                                      "yaxis" := Object(map["title" := Chars("Price")]),
                                      "showlegend" := Flag(false)])])
  }

  /** Every price of the trace can be written as JSON. */
  predicate PricesWritable(t: Candlestick.CandleTrace)
  {
    AllWritable(t.open) && AllWritable(t.high) && AllWritable(t.low) && AllWritable(t.close)
  }

  /** The candlestick trace the backend sends: the dates under `x`, the prices, a name. */
  function CandleTraceValue(t: Candlestick.CandleTrace): (v: Value)
    requires PricesWritable(t)
    ensures v.Object? && "x" in v.fields && "dates" !in v.fields
    ensures v.fields["x"] == StampList(t.x)
    ensures "open" in v.fields && v.fields["open"] == CellList(t.open)
    ensures "high" in v.fields && v.fields["high"] == CellList(t.high)
    ensures "low" in v.fields && v.fields["low"] == CellList(t.low)
    ensures "close" in v.fields && v.fields["close"] == CellList(t.close)
  {
    Object(map["x" := StampList(t.x), "open" := CellList(t.open), "high" := CellList(t.high),
               "low" := CellList(t.low), "close" := CellList(t.close),
               "type" := Chars("candlestick"), "name" := Chars(t.name)])
  }

  /** What `axios` hands the page for a successful volume answer: the parsed body, or, when a
      volume is NaN, the answer's text `raw` as a string, because `JSON.parse` rejects the
      `NaN` token and the failure is swallowed. The page reads any string alike, so `raw` is
      left free. */
  function VolumeReply(r: Trading.Response, raw: string): (v: Value)
    requires r.VolumeData?
    ensures AllWritable(r.y) ==> v == VolumeBody(r)
    ensures !AllWritable(r.y) ==> v == Chars(raw)
  {
    if AllWritable(r.y) then VolumeBody(r) else Chars(raw)
  }

  /** What `axios` hands the page for a successful candlestick answer: the parsed body, or the
      answer's text `raw` when a price is NaN. */
  function CandleReply(r: Candlestick.Response, raw: string): (v: Value)
    requires r.Chart?
    ensures PricesWritable(r.trace) ==> v == CandleBody(r)
    ensures !PricesWritable(r.trace) ==> v == Chars(raw)
  {
    if PricesWritable(r.trace) then CandleBody(r) else Chars(raw)
  }

  // ---------------------------------------------------------------------------------------
  // Requests and the figure built from an answer

  /** A GET request: its URL and its query parameters. */
  datatype Request = Request(url: string, params: map<string, string>)

  const CandlestickOrigin: string := "http://127.0.0.1:5002"
  const VolumeOrigin: string := "http://127.0.0.1:5003"
  const GraphOrigin: string := "http://127.0.0.1:5000"

  /** The request for the current text and graph type: the candlestick and the volume
      backends take the text in the path, the graph backend takes both as parameters. */
  function RequestFor(symbols: string, graphType: string): (r: Request)
    ensures graphType == "candlestick" ==>
              r == Request(CandlestickOrigin + "/api/stocks/" + symbols + "/candlestick", map[])
    ensures graphType == "trading_volume" ==>
              r == Request(VolumeOrigin + "/api/stocks/" + symbols + "/volume", map[])
    ensures graphType != "candlestick" && graphType != "trading_volume" ==>
              r.url == GraphOrigin + "/stock/graph" &&
              r.params == map["symbols" := symbols, "graph_type" := graphType]
  {
    if graphType == "candlestick" then
      Request(CandlestickOrigin + "/api/stocks/" + symbols + "/candlestick", map[])
    else if graphType == "trading_volume" then
      Request(VolumeOrigin + "/api/stocks/" + symbols + "/volume", map[])
    else
      Request(GraphOrigin + "/stock/graph", map["symbols" := symbols, "graph_type" := graphType])
  }

  /** `{data: [trace], layout}`, the shape `setPlotData` is given in the first two branches. */
  function PlotOf(trace: Value, layout: Value): (p: Value)
    ensures p.Object? && "data" in p.fields && p.fields["data"] == List([trace])
  {
    Object(map["data" := List([trace]), "layout" := layout])
  }

  /** The candlestick branch, reading the dates from the field `datesKey` of the first trace:
      `None` where a lookup throws. */
  function CandlePlotReading(datesKey: string, symbols: string, body: Value): (p: Option<Value>)
    ensures p.Some? <==> Member(body, "data").Some? && Member(body, "data").value != Undefined &&
                         Member(body, "data").value != Null &&
                         First(Member(body, "data").value).value != Undefined &&
                         First(Member(body, "data").value).value != Null
  {
    match Member(body, "data")
    case None => None
    case Some(data) =>
      match First(data)
      case None => None
      case Some(first) =>
        if first.Undefined? || first.Null? then None
        else
          var trace := Object(map["x" := Member(first, datesKey).value,
                                  "open" := Member(first, "open").value,
                                  "high" := Member(first, "high").value,
                                  "low" := Member(first, "low").value,
                                  "close" := Member(first, "close").value,
                                  "type" := Chars("candlestick"),
                                  "name" := Chars(symbols + " Candlestick")]);
          var layout := Object(map["title" := Chars(symbols + " Candlestick Chart"),
                                   "xaxis" := Object(map["rangeslider" := Object(map["visible" := Flag(false)]),
                                                         "title" := Chars("Date")]),
                                   "yaxis" := Object(map["title" := Chars("Price")])]);
          Some(PlotOf(trace, layout))
  }

  /** The candlestick branch as the page writes it: the dates are read from `dates`. */
  function CandlePlotAsWritten(symbols: string, body: Value): Option<Value>
  {
    CandlePlotReading("dates", symbols, body)
  }

  /** The candlestick branch reading the dates from `x`, where the backend puts them. */
  function CandlePlot(symbols: string, body: Value): Option<Value>
  {
    CandlePlotReading("x", symbols, body)
  }

  /** The volume branch: a bar trace of the answer's `x` and `y`. */
  function VolumePlot(symbols: string, body: Value): (p: Option<Value>)
    ensures p.Some? <==> !body.Undefined? && !body.Null?
  {
    match Member(body, "x")
    case None => None
    case Some(x) =>
      var trace := Object(map["x" := x, "y" := Member(body, "y").value, "type" := Chars("bar"),
                              "name" := Chars(symbols + " Trading Volume")]);
      var layout := Object(map["title" := Chars(symbols + " Trading Volume"),
                               "xaxis" := Object(map["title" := Chars("Date")]),
                               "yaxis" := Object(map["title" := Chars("Volume")])]);
      Some(PlotOf(trace, layout))
  }

  /** The figure the page keeps for an answer (`None` for no answer: a network error or a
      status that is not 2xx), or `None` where reading the answer throws. The candlestick
      branch reads the dates from `dates`, as the page does. */
  function Render(symbols: string, graphType: string, reply: Option<Value>): (p: Option<Value>)
    ensures reply.None? ==> p.None?
    ensures reply.Some? && graphType != "candlestick" && graphType != "trading_volume" ==>
              p == reply
    ensures reply.Some? && graphType == "candlestick" ==>
              p == CandlePlotAsWritten(symbols, reply.value)
    ensures reply.Some? && graphType == "trading_volume" ==> p == VolumePlot(symbols, reply.value)
  {
    match reply
    case None => None
    case Some(body) =>
      if graphType == "candlestick" then CandlePlotAsWritten(symbols, body)
      else if graphType == "trading_volume" then VolumePlot(symbols, body)
      else Some(body)
  }

  /** The field `key` of the first trace of a figure, where there is one. */
  function TraceField(plot: Value, key: string): (v: Option<Value>)
    ensures plot.Object? && "data" in plot.fields && plot.fields["data"].List? &&
            |plot.fields["data"].items| > 0 && plot.fields["data"].items[0].Object? ==>
              v == Member(plot.fields["data"].items[0], key)
  {
    match Member(plot, "data")
    case None => None
    case Some(data) =>
      match First(data)
      case None => None
      case Some(first) => Member(first, key)
  }

  // ---------------------------------------------------------------------------------------
  // What the page shows for the backends' answers

  /** A volume answer without NaN is drawn as bars of exactly the dates and volumes the
      backend sent. */
  lemma VolumeShowsBackendData(symbols: string, v: Trading.Response, raw: string)
    requires v.VolumeData? && AllWritable(v.y)
    ensures var p := Render(symbols, "trading_volume", Some(VolumeReply(v, raw)));
      p.Some? && TraceField(p.value, "x") == Some(TextList(v.x)) &&
      TraceField(p.value, "y") == Some(CellList(v.y)) &&
      TraceField(p.value, "type") == Some(Chars("bar"))
  {
  }

  /** A volume answer with a NaN volume reaches the page as text: the bars are drawn with
      neither dates nor volumes, whatever the answer held. */
  lemma VolumeWithNaNLosesData(symbols: string, v: Trading.Response, raw: string)
    requires v.VolumeData? && !AllWritable(v.y)
    ensures var p := Render(symbols, "trading_volume", Some(VolumeReply(v, raw)));
      p.Some? && TraceField(p.value, "x") == Some(Undefined) &&
      TraceField(p.value, "y") == Some(Undefined)
  {
  }

  /** Reading the dates from `x`, every candlestick answer without NaN is drawn with the
      backend's dates and its four price columns. */
  lemma CandleShowsBackendData(symbols: string, c: Candlestick.Response, raw: string)
    requires c.Chart? && PricesWritable(c.trace)
    ensures var p := CandlePlot(symbols, CandleReply(c, raw));
      p.Some? && TraceField(p.value, "x") == Some(StampList(c.trace.x)) &&
      TraceField(p.value, "open") == Some(CellList(c.trace.open)) &&
      TraceField(p.value, "high") == Some(CellList(c.trace.high)) &&
      TraceField(p.value, "low") == Some(CellList(c.trace.low)) &&
      TraceField(p.value, "close") == Some(CellList(c.trace.close))
  {
    var first := CandleTraceValue(c.trace);
    assert First(CandleBody(c).fields["data"]) == Some(first);
  }

  /** As written, the page reads `dates`, which the candlestick backend never sends: every
      candlestick figure it keeps has no dates, whatever the answer held. */
  lemma CandleAsWrittenLosesDates(symbols: string, c: Candlestick.Response, raw: string)
    requires c.Chart? && PricesWritable(c.trace)
    ensures var p := Render(symbols, "candlestick", Some(CandleReply(c, raw)));
      p.Some? && TraceField(p.value, "x") == Some(Undefined) &&
      TraceField(p.value, "x") != Some(StampList(c.trace.x))
  {
    var first := CandleTraceValue(c.trace);
    assert First(CandleBody(c).fields["data"]) == Some(first);
  }

  /** A candlestick answer with a NaN price reaches the page as text, and reading its first
      trace throws: no figure is kept, whichever field the dates are read from. */
  lemma CandleWithNaNFails(symbols: string, c: Candlestick.Response, raw: string)
    requires c.Chart? && !PricesWritable(c.trace)
    ensures Render(symbols, "candlestick", Some(CandleReply(c, raw))).None?
    ensures CandlePlot(symbols, CandleReply(c, raw)).None?
  {
  }

  // ---------------------------------------------------------------------------------------
  // The page's state

  /** The state hooks of the `App` component, and the requests sent so far. */
  class Viewer {
    var symbols: string
    var graphType: string
    var plotData: Option<Value>
    var loading: bool
    var error: Option<string>
    var sent: seq<Request>

    /** The initial state: an empty text box, daily returns selected, nothing drawn. */
    constructor ()
      ensures symbols == "" && graphType == "daily_returns" && plotData == None
      ensures !loading && error == None && sent == []
    {
      symbols := "";
      graphType := "daily_returns";
      plotData := None;
      loading := false;
      error := None;
      sent := [];
    }

    /** Typing in the text box, or clicking a suggestion. */
    method SetSymbols(text: string)
      modifies this
      ensures symbols == text
      ensures graphType == old(graphType) && plotData == old(plotData) && loading == old(loading)
      ensures error == old(error) && sent == old(sent)
    {
      symbols := text;
    }

    /** Choosing a graph type. */
    method SetGraphType(choice: string)
      modifies this
      ensures graphType == choice
      ensures symbols == old(symbols) && plotData == old(plotData) && loading == old(loading)
      ensures error == old(error) && sent == old(sent)
    {
      graphType := choice;
    }

    /** The suggestions listed under the text box: none while it is empty. */
    function Suggestions(): (r: seq<string>)
      reads this
      ensures symbols == "" ==> r == []
      ensures symbols != "" ==> forall s :: s in r <==> s in StockSymbols && Matches(s, symbols)
    {
      if symbols == "" then [] else FilteredSymbols(symbols)
    }

    /** `fetchGraphData`, with the three backends as `serve`: the answer's body, or `None`
        where `axios` rejects. A blank text box sends nothing. */
    method FetchGraphData(serve: Request -> Option<Value>)
      modifies this
      ensures symbols == old(symbols) && graphType == old(graphType)
      ensures Text.Trim(symbols) == "" ==>
                error == Some(EmptyInput) && sent == old(sent) && plotData == old(plotData) &&
                loading == old(loading)
      ensures Text.Trim(symbols) != "" ==>
                var request := RequestFor(symbols, graphType);
                sent == old(sent) + [request] && !loading &&
                var figure := Render(symbols, graphType, serve(request));
                if figure.Some? then plotData == figure && error == None
                else plotData == old(plotData) && error == Some(FetchFailed)
    {
      var text, kind := symbols, graphType;
      if Text.Trim(text) == "" {
        error := Some(EmptyInput);
        return;
      }
      loading := true;
      error := None;
      var request := RequestFor(text, kind);
      sent := sent + [request];
      var reply := serve(request);
      var figure: Option<Value>;
      if reply.None? {
        figure := None;
      } else if kind == "candlestick" {
        figure := CandlePlotAsWritten(text, reply.value);
      } else if kind == "trading_volume" {
        figure := VolumePlot(text, reply.value);
      } else {
        figure := reply;
      }
      if figure.Some? {
        plotData := figure;
      } else {
        error := Some(FetchFailed);
      }
      loading := false;
    }
  }
}
