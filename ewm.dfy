/** pandas' `ewm(span=n, adjust=False).mean()` over one gap-free column, and the MACD
    indicator built from three of them. */
module Ewm {
  import opened Series

  /** The smoothing factor `2 / (span + 1)`, which lies in (0, 1]. */
  function Alpha(span: nat): (a: real)
    requires span >= 1
    ensures 0.0 < a <= 1.0
    ensures a * (span as real + 1.0) == 2.0
  {
    var n := span as real + 1.0;
    assert 2.0 / n <= 1.0 by {
      RatioBelowOne(2.0, n);
    }
    2.0 / n
  }

  /** The recurrence with `adjust=False`: the first value, then `a·p[t] + (1 - a)·ema[t-1]`. */
  function EmaAt(p: seq<real>, a: real, t: nat): real
    requires t < |p|
  {
    if t == 0 then p[0] else a * p[t] + (1.0 - a) * EmaAt(p, a, t - 1)
  }

  /** The exponentially weighted moving average of `p` with the given span. */
  function Ema(p: seq<real>, span: nat): (e: seq<real>)
    requires span >= 1
    ensures |e| == |p|
    ensures |p| > 0 ==> e[0] == p[0]
    ensures forall t :: 0 < t < |p| ==> e[t] == Alpha(span) * p[t] + (1.0 - Alpha(span)) * e[t - 1]
  {
    seq(|p|, t requires 0 <= t < |p| => EmaAt(p, Alpha(span), t))
  }

  lemma ProductNonNegative(a: real, b: real)
    requires a >= 0.0 && b >= 0.0
    ensures a * b >= 0.0
  {
  }

  /** A weighted average of two values between `lo` and `hi` stays between them. */
  lemma Convex(a: real, x: real, y: real, lo: real, hi: real)
    requires 0.0 <= a <= 1.0
    requires lo <= x <= hi && lo <= y <= hi
    ensures lo <= a * x + (1.0 - a) * y <= hi
  {
    ProductNonNegative(a, x - lo);
    ProductNonNegative(1.0 - a, y - lo);
    ProductNonNegative(a, hi - x);
    ProductNonNegative(1.0 - a, hi - y);
    assert a * x + (1.0 - a) * y - lo == a * (x - lo) + (1.0 - a) * (y - lo);
    assert hi - (a * x + (1.0 - a) * y) == a * (hi - x) + (1.0 - a) * (hi - y);
  }

  /** When every price so far lies between `lo` and `hi`, so does the average. */
  lemma {:induction false} EmaAtWithin(p: seq<real>, a: real, t: nat, lo: real, hi: real)
    requires t < |p| && 0.0 <= a <= 1.0
    requires forall k :: 0 <= k <= t ==> lo <= p[k] <= hi
    ensures lo <= EmaAt(p, a, t) <= hi
    decreases t
  {
    if t > 0 {
      EmaAtWithin(p, a, t - 1, lo, hi);
      Convex(a, p[t], EmaAt(p, a, t - 1), lo, hi);
    }
  }

  /** The average at `t` lies between the smallest and the largest price up to `t`. */
  lemma EmaBounds(p: seq<real>, span: nat, t: nat)
    requires span >= 1 && t < |p|
    ensures MinOf(p[..t + 1]) <= Ema(p, span)[t] <= MaxOf(p[..t + 1])
  {
    var w := p[..t + 1];
    assert forall k :: 0 <= k <= t ==> w[k] == p[k];
    EmaAtWithin(p, Alpha(span), t, MinOf(w), MaxOf(w));
  }

  /** A constant series is its own average. */
  lemma EmaConstant(p: seq<real>, span: nat, c: real)
    requires span >= 1
    requires forall k :: 0 <= k < |p| ==> p[k] == c
    ensures forall t :: 0 <= t < |p| ==> Ema(p, span)[t] == c
  {
    forall t | 0 <= t < |p| ensures Ema(p, span)[t] == c {
      EmaAtWithin(p, Alpha(span), t, c, c);
    }
  }

  /** The MACD line and its signal line. */
  datatype Macd = Macd(macd: seq<real>, signal: seq<real>)

  /** Fast average minus slow average, and the signal average of that difference. */
  function MacdOf(p: seq<real>, short: nat, long: nat, signalSpan: nat): (m: Macd)
    requires short >= 1 && long >= 1 && signalSpan >= 1
    ensures |m.macd| == |m.signal| == |p|
    ensures forall t :: 0 <= t < |p| ==> m.macd[t] == Ema(p, short)[t] - Ema(p, long)[t]
    ensures m.signal == Ema(m.macd, signalSpan)
  {
    var fast := Ema(p, short);
    var slow := Ema(p, long);
    var line := seq(|p|, t requires 0 <= t < |p| => fast[t] - slow[t]);
    Macd(line, Ema(line, signalSpan))
  }

  /** The signal line stays within the range the MACD line has covered so far. */
  lemma SignalBounds(p: seq<real>, short: nat, long: nat, signalSpan: nat, t: nat)
    requires short >= 1 && long >= 1 && signalSpan >= 1 && t < |p|
    ensures var m := MacdOf(p, short, long, signalSpan);
      MinOf(m.macd[..t + 1]) <= m.signal[t] <= MaxOf(m.macd[..t + 1])
  {
    EmaBounds(MacdOf(p, short, long, signalSpan).macd, signalSpan, t);
  }

  /** A flat price series has a MACD line and a signal line of zeros. */
  lemma MacdConstant(p: seq<real>, short: nat, long: nat, signalSpan: nat, c: real)
    requires short >= 1 && long >= 1 && signalSpan >= 1
    requires forall k :: 0 <= k < |p| ==> p[k] == c
    ensures var m := MacdOf(p, short, long, signalSpan);
      (forall t :: 0 <= t < |p| ==> m.macd[t] == 0.0) &&
      (forall t :: 0 <= t < |p| ==> m.signal[t] == 0.0)
  {
    EmaConstant(p, short, c);
    EmaConstant(p, long, c);
    var m := MacdOf(p, short, long, signalSpan);
    EmaConstant(m.macd, signalSpan, 0.0);
  }
}
