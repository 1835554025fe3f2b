/** The figures the graph endpoints draw, as data: named curves over dates, shaded bands,
    and horizontal reference lines; and the indicator curves drawn for one symbol. */
module Charts {
  import opened Wrappers
  import opened Series
  import opened Dates
  import opened Returns
  import opened Rolling
  import opened Momentum
  import opened Ewm
  import opened Align
  import opened Frames

  /** A plotted line with a legend name, or the shaded area between two lines. */
  datatype Trace =
    | Curve(name: string, x: seq<DateTime>, y: seq<Option<real>>)
    | Area(x: seq<DateTime>, upper: seq<Option<real>>, lower: seq<Option<real>>)

  /** A figure: its title, its traces in drawing order, and horizontal lines at fixed levels. */
  datatype Figure = Figure(title: string, traces: seq<Trace>, levels: seq<real>)

  /** The window of the rolling-mean chart and of the Bollinger bands. */
  const SmaWindow: nat := 20
  /** The RSI window. */
  const RsiWindow: nat := 14
  /** The MACD spans: fast, slow and signal. */
  const FastSpan: nat := 12
  const SlowSpan: nat := 26
  const SignalSpan: nat := 9
  /** The RSI overbought and oversold levels. */
  const Overbought: real := 70.0
  const Oversold: real := 30.0

  /** `adj_close[symbol]`: the column of a symbol in an aligned table. */
  function ColumnOf(t: Table, s: string): (col: seq<Option<real>>)
    requires t.WellFormed() && s in t.columns
    ensures |col| == |t.index|
  {
    t.cells[FirstIndex(t.columns, s)]
  }

  /** A line chart of a whole frame (`px.line(frame)`): one curve per column, named after it. */
  function FrameCurves(t: Table): (traces: seq<Trace>)
    requires t.WellFormed()
    ensures |traces| == |t.columns|
    ensures forall j :: 0 <= j < |t.columns| ==>
              traces[j] == Curve(t.columns[j], t.index, t.cells[j])
  {
    seq(|t.columns|, j requires 0 <= j < |t.columns| => Curve(t.columns[j], t.index, t.cells[j]))
  }

  /** The dates of a list of complete rows. */
  function LineDates(lines: seq<Line>): (ds: seq<DateTime>)
    ensures |ds| == |lines| && forall k :: 0 <= k < |lines| ==> ds[k] == lines[k].date
  {
    seq(|lines|, k requires 0 <= k < |lines| => lines[k].date)
  }

  /** A line chart of complete rows with `n` values each: one gap-free curve per column. */
  function LineCurves(columns: seq<string>, lines: seq<Line>): (traces: seq<Trace>)
    requires forall k :: 0 <= k < |lines| ==> |lines[k].values| == |columns|
    ensures |traces| == |columns|
    ensures forall j :: 0 <= j < |columns| ==>
              traces[j].Curve? && traces[j].name == columns[j] && traces[j].x == LineDates(lines) &&
              |traces[j].y| == |lines| &&
              forall k :: 0 <= k < |lines| ==> traces[j].y[k] == Some(lines[k].values[j])
  {
    seq(|columns|, j requires 0 <= j < |columns| =>
      Curve(columns[j], LineDates(lines),
            seq(|lines|, k requires 0 <= k < |lines| => Some(lines[k].values[j]))))
  }

  /** The dates at which a column has a value, in order. */
  function PresentDates(index: seq<DateTime>, col: seq<Option<real>>): (ds: seq<DateTime>)
    requires |index| == |col|
    ensures |ds| == |Present(col)|
    ensures forall d :: d in ds ==> d in index
    decreases |col|
  {
    if |col| == 0 then []
    else
      var rest := PresentDates(index[1..], col[1..]);
      assert forall d :: d in rest ==> d in index by {
        forall d | d in rest ensures d in index {
          var k :| 0 <= k < |index[1..]| && index[1..][k] == d;
          assert index[k + 1] == d;
        }
      }
      (if col[0].Some? then [index[0]] else []) + rest
  }

  /** The Bollinger traces of one symbol in `app.py`: price, moving average, upper and lower
      band, all on the table's index. */
  function BandCurves(t: Table, s: string, sqrt: real -> real): (traces: seq<Trace>)
    requires t.WellFormed() && s in t.columns && IsSquareRoot(sqrt)
    ensures |traces| == 4
    ensures forall k :: 0 <= k < 4 ==>
              traces[k].Curve? && traces[k].x == t.index && |traces[k].y| == |t.index|
    ensures traces[0].name == s + " Price" && traces[0].y == ColumnOf(t, s)
    ensures traces[1].name == s + " SMA" && traces[1].y == RollingMean(ColumnOf(t, s), SmaWindow)
    ensures traces[2].name == s + " Upper Band" && traces[3].name == s + " Lower Band"
    ensures forall i :: 0 <= i < |t.index| && traces[2].y[i].Some? ==>
              traces[3].y[i].Some? && traces[1].y[i].Some? &&
              traces[3].y[i].value <= traces[1].y[i].value <= traces[2].y[i].value
  {
    var col := ColumnOf(t, s);
    var b := Bollinger(col, SmaWindow, sqrt);
    [Curve(s + " Price", t.index, col), Curve(s + " SMA", t.index, b.sma),
     Curve(s + " Upper Band", t.index, b.upper), Curve(s + " Lower Band", t.index, b.lower)]
  }

  /** The RSI curve of one symbol, named after it. */
  function RsiCurve(t: Table, s: string): (trace: Trace)
    requires t.WellFormed() && s in t.columns
    ensures trace.Curve? && trace.name == s && trace.x == t.index && |trace.y| == |t.index|
    ensures forall i :: 0 <= i < |t.index| && trace.y[i].Some? ==> 0.0 <= trace.y[i].value <= 100.0
    ensures forall i :: 0 <= i < |t.index| && i < RsiWindow - 1 ==> trace.y[i] == None
  {
    Curve(s, t.index, Rsi(ColumnOf(t, s), RsiWindow))
  }

  /** The MACD and signal curves of one symbol, over the dates at which it has a price. */
  function MacdCurves(t: Table, s: string, macdName: string, signalName: string): (traces: seq<Trace>)
    requires t.WellFormed() && s in t.columns
    ensures |traces| == 2 && traces[0].Curve? && traces[1].Curve?
    ensures traces[0].name == macdName && traces[1].name == signalName
    ensures var p := Present(ColumnOf(t, s));
      var m := MacdOf(p, FastSpan, SlowSpan, SignalSpan);
      traces[0].y == Lift(m.macd) && traces[1].y == Lift(m.signal) &&
      traces[0].x == traces[1].x == PresentDates(t.index, ColumnOf(t, s)) &&
      |traces[0].x| == |p|
  {
    var col := ColumnOf(t, s);
    var m := MacdOf(Present(col), FastSpan, SlowSpan, SignalSpan);
    var dates := PresentDates(t.index, col);
    [Curve(macdName, dates, Lift(m.macd)), Curve(signalName, dates, Lift(m.signal))]
  }

  /** The figure a plotting branch fills in step by step: a Plotly `go.Figure()` or the
      current matplotlib figure. */
  class Canvas {
    var title: string
    var traces: seq<Trace>
    var levels: seq<real>

    /** A new, empty figure. */
    constructor ()
      ensures title == "" && traces == [] && levels == []
    {
      title := "";
      traces := [];
      levels := [];
    }

    /** `fig.add_trace(trace)`, `plt.plot(...)` or `plt.fill_between(...)`. */
    method AddTrace(trace: Trace)
      modifies this
      ensures traces == old(traces) + [trace]
      ensures title == old(title) && levels == old(levels)
    {
      traces := traces + [trace];
    }

    /** `fig.add_hline(y=level)` or `plt.axhline(y=level)`. */
    method AddLevel(level: real)
      modifies this
      ensures levels == old(levels) + [level]
      ensures title == old(title) && traces == old(traces)
    {
      levels := levels + [level];
    }

    /** `fig.update_layout(title=...)` or `plt.title(...)`. */
    method SetTitle(t: string)
      modifies this
      ensures title == t && traces == old(traces) && levels == old(levels)
    {
      title := t;
    }

    /** The figure as it stands. */
    function Value(): (f: Figure)
      reads this
      ensures f.title == title && f.traces == traces && f.levels == levels
    {
      Figure(title, traces, levels)
    }
  }
}
