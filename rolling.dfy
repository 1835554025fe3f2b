/** pandas' `rolling(window=w)` statistics over one column whose missing positions are
    `None`: the mean and the sample standard deviation of the last `w` values, undefined until
    `w` values exist and wherever one of them is missing. */
module Rolling {
  import opened Wrappers
  import opened Series

  /** The `w` positions ending at `t` all hold a value. */
  predicate Full(s: seq<Option<real>>, w: nat, t: nat)
    requires 1 <= w && w - 1 <= t < |s|
  {
    forall k :: t + 1 - w <= k <= t ==> s[k].Some?
  }

  /** The `w` values ending at position `t`. */
  function Window(s: seq<Option<real>>, w: nat, t: nat): (v: seq<real>)
    requires 1 <= w && w - 1 <= t < |s| && Full(s, w, t)
    ensures |v| == w
    ensures forall k :: 0 <= k < w ==> Some(v[k]) == s[t + 1 - w + k]
  {
    seq(w, k requires 0 <= k < w => s[t + 1 - w + k].value)
  }

  /** A gap-free column has every window full, holding the prices `p[t+1-w..t+1]`. */
  lemma WindowOfLift(p: seq<real>, w: nat, t: nat)
    requires 1 <= w && w - 1 <= t < |p|
    ensures Full(Lift(p), w, t)
    ensures Window(Lift(p), w, t) == p[t + 1 - w..t + 1]
  {
  }

  /** `rolling(window=w).mean()`: undefined before position `w - 1` and where the window has a
      gap, otherwise the mean of the window ending there. */
  function RollingMean(s: seq<Option<real>>, w: nat): (r: seq<Option<real>>)
    requires w >= 1
    ensures |r| == |s|
    ensures forall t :: 0 <= t < |s| ==> (r[t].Some? <==> t >= w - 1 && Full(s, w, t))
    ensures forall t :: 0 <= t < |s| && r[t].Some? ==>
              r[t].value * w as real == Sum(Window(s, w, t))
  {
    seq(|s|, t requires 0 <= t < |s| =>
      if t >= w - 1 && Full(s, w, t) then Some(Mean(Window(s, w, t))) else None)
  }

  /** Each defined rolling mean lies between the smallest and the largest value of its window. */
  lemma RollingMeanBounds(s: seq<Option<real>>, w: nat, t: nat)
    requires 1 <= w && w - 1 <= t < |s| && Full(s, w, t)
    ensures MinOf(Window(s, w, t)) <= RollingMean(s, w)[t].value <= MaxOf(Window(s, w, t))
  {
    var v := Window(s, w, t);
    MeanBounds(v, MinOf(v), MaxOf(v));
  }

  /** A window of equal values has that value as its rolling mean. */
  lemma RollingMeanConstant(s: seq<Option<real>>, w: nat, t: nat, c: real)
    requires 1 <= w && w - 1 <= t < |s|
    requires forall k :: t + 1 - w <= k <= t ==> s[k] == Some(c)
    ensures RollingMean(s, w)[t] == Some(c)
  {
    MeanConstant(Window(s, w, t), c);
  }

  /** A square is non-negative. */
  lemma Square(x: real)
    ensures x * x >= 0.0
    ensures x == 0.0 ==> x * x == 0.0
  {
    if x < 0.0 {
      var y := -x;
      assert x * x == y * y;
    }
  }

  lemma CancelSquare(y: real, z: real)
    requires y != 0.0 && z == y * y
    ensures z / y == y
  {
  }

  /** Only zero squares to zero. */
  lemma ZeroSquare(y: real, z: real)
    requires z == y * y
    ensures z == 0.0 ==> y == 0.0
  {
    if y != 0.0 {
      CancelSquare(y, z);
    }
  }

  /** The squared distances of the values from `m`. */
  function SquaredDeviations(s: seq<real>, m: real): (d: seq<real>)
    ensures |d| == |s|
    ensures forall k :: 0 <= k < |s| ==> d[k] >= 0.0
    ensures forall k :: 0 <= k < |s| && s[k] == m ==> d[k] == 0.0
  {
    var d := seq(|s|, k requires 0 <= k < |s| => (s[k] - m) * (s[k] - m));
    assert forall k :: 0 <= k < |s| ==>
             d[k] >= 0.0 && (s[k] == m ==> d[k] == 0.0) by {
      forall k | 0 <= k < |s|
        ensures d[k] >= 0.0 && (s[k] == m ==> d[k] == 0.0)
      {
        var x := s[k] - m;
        Square(x);
        assert d[k] == x * x;
      }
    }
    d
  }

  /** Sample variance (`ddof=1`), defined from two values on. */
  function Variance(s: seq<real>): (v: real)
    requires |s| >= 2
    ensures v >= 0.0
  {
    var d := SquaredDeviations(s, Mean(s));
    SumNonNegative(d);
    Sum(d) / (|s| - 1) as real
  }

  /** Values that are all equal have variance zero. */
  lemma VarianceConstant(s: seq<real>, c: real)
    requires |s| >= 2
    requires forall k :: 0 <= k < |s| ==> s[k] == c
    ensures Variance(s) == 0.0
  {
    MeanConstant(s, c);
    SumConstant(SquaredDeviations(s, c), 0.0);
  }

  /** `sqrt` is a square root on the non-negative reals. */
  ghost predicate IsSquareRoot(sqrt: real -> real)
  {
    forall x :: 0.0 <= x ==> 0.0 <= sqrt(x) && sqrt(x) * sqrt(x) == x
  }

  lemma SquareRootOfZero(sqrt: real -> real)
    requires IsSquareRoot(sqrt)
    ensures sqrt(0.0) == 0.0
  {
    var y := sqrt(0.0);
    ZeroSquare(y, y * y);
  }

  /** The standard deviation at position `t`: defined only for a full window of at least
      two values. */
  function StdAt(s: seq<Option<real>>, w: nat, t: nat, sqrt: real -> real): (r: Option<real>)
    requires w >= 1 && t < |s| && IsSquareRoot(sqrt)
    ensures r.Some? <==> w >= 2 && t >= w - 1 && Full(s, w, t)
    ensures r.Some? ==> r.value >= 0.0 && r.value * r.value == Variance(Window(s, w, t))
  {
    if w >= 2 && t >= w - 1 && Full(s, w, t) then
      var v := Variance(Window(s, w, t));
      assert 0.0 <= sqrt(v) && sqrt(v) * sqrt(v) == v;
      Some(sqrt(v))
    else None
  }

  /** `rolling(window=w).std()`: the square root of the window's sample variance; undefined
      where the mean is, and everywhere when `w` is 1. */
  function RollingStd(s: seq<Option<real>>, w: nat, sqrt: real -> real): (r: seq<Option<real>>)
    requires w >= 1 && IsSquareRoot(sqrt)
    ensures |r| == |s|
    ensures forall t :: 0 <= t < |s| ==> (r[t].Some? <==> w >= 2 && t >= w - 1 && Full(s, w, t))
    ensures forall t :: 0 <= t < |s| && r[t].Some? ==>
              r[t].value >= 0.0 && r[t].value * r[t].value == Variance(Window(s, w, t))
  {
    seq(|s|, t requires 0 <= t < |s| => StdAt(s, w, t, sqrt))
  }

  /** A window of equal values has standard deviation zero. */
  lemma RollingStdConstant(s: seq<Option<real>>, w: nat, sqrt: real -> real, t: nat, c: real)
    requires 2 <= w && w - 1 <= t < |s| && IsSquareRoot(sqrt)
    requires forall k :: t + 1 - w <= k <= t ==> s[k] == Some(c)
    ensures RollingStd(s, w, sqrt)[t] == Some(0.0)
  {
    VarianceConstant(Window(s, w, t), c);
    SquareRootOfZero(sqrt);
  }

  /** The moving average with the bands two standard deviations above and below it. */
  datatype Bands = Bands(sma: seq<Option<real>>, upper: seq<Option<real>>, lower: seq<Option<real>>)

  /** `sma + 2 * std` and `sma - 2 * std`, undefined wherever either term is. */
  function Bollinger(s: seq<Option<real>>, w: nat, sqrt: real -> real): (b: Bands)
    requires w >= 1 && IsSquareRoot(sqrt)
    ensures |b.sma| == |b.upper| == |b.lower| == |s|
    ensures b.sma == RollingMean(s, w)
    ensures forall t :: 0 <= t < |s| ==>
              (b.upper[t].Some? <==> RollingStd(s, w, sqrt)[t].Some?) &&
              (b.lower[t].Some? <==> b.upper[t].Some?)
    ensures forall t :: 0 <= t < |s| && b.upper[t].Some? ==>
              b.sma[t].Some? && b.lower[t].value <= b.sma[t].value <= b.upper[t].value &&
              b.upper[t].value - b.sma[t].value == b.sma[t].value - b.lower[t].value
    ensures forall t :: 0 <= t < |s| && b.upper[t].Some? ==>
              b.upper[t].value - b.lower[t].value == 4.0 * RollingStd(s, w, sqrt)[t].value
  {
    var sma := RollingMean(s, w);
    var std := RollingStd(s, w, sqrt);
    Bands(sma,
          seq(|s|, t requires 0 <= t < |s| =>
            if sma[t].Some? && std[t].Some? then Some(sma[t].value + 2.0 * std[t].value) else None),
          seq(|s|, t requires 0 <= t < |s| =>
            if sma[t].Some? && std[t].Some? then Some(sma[t].value - 2.0 * std[t].value) else None))
  }

  /** Over a window of equal values the bands close onto the moving average. */
  lemma BollingerConstant(s: seq<Option<real>>, w: nat, sqrt: real -> real, t: nat, c: real)
    requires 2 <= w && w - 1 <= t < |s| && IsSquareRoot(sqrt)
    requires forall k :: t + 1 - w <= k <= t ==> s[k] == Some(c)
    ensures Bollinger(s, w, sqrt).sma[t] == Some(c)
    ensures Bollinger(s, w, sqrt).upper[t] == Some(c)
    ensures Bollinger(s, w, sqrt).lower[t] == Some(c)
  {
    RollingMeanConstant(s, w, t, c);
    RollingStdConstant(s, w, sqrt, t, c);
  }
}
