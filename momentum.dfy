/** The relative strength index: the rolling averages of up-moves and down-moves of one
    gap-free column and the ratio `100 - 100 / (1 + gain / loss)` between them. */
module Momentum {
  import opened Wrappers
  import opened Series
  import opened Rolling

  /** `diff(1).where(delta > 0, 0)`: the rise at each step, and 0 where the price fell, stayed
      flat, or the difference is NaN because a price (or, at the first row, the predecessor)
      is missing: NaN fails the comparison and is replaced too. */
  function Gains(s: seq<Option<real>>): (g: seq<real>)
    ensures |g| == |s|
    ensures |s| > 0 ==> g[0] == 0.0
    ensures forall t :: 0 <= t < |s| ==> g[t] >= 0.0
    ensures forall t :: 0 < t < |s| ==>
              (g[t] > 0.0 <==> s[t].Some? && s[t - 1].Some? && s[t].value > s[t - 1].value)
  {
    seq(|s|, t requires 0 <= t < |s| =>
      if t > 0 && s[t].Some? && s[t - 1].Some? && s[t].value - s[t - 1].value > 0.0
      then s[t].value - s[t - 1].value else 0.0)
  }

  /** `-diff(1).where(delta < 0, 0)`: the fall at each step, and 0 elsewhere. */
  function Losses(s: seq<Option<real>>): (l: seq<real>)
    ensures |l| == |s|
    ensures |s| > 0 ==> l[0] == 0.0
    ensures forall t :: 0 <= t < |s| ==> l[t] >= 0.0
    ensures forall t :: 0 < t < |s| ==>
              (l[t] > 0.0 <==> s[t].Some? && s[t - 1].Some? && s[t].value < s[t - 1].value)
  {
    seq(|s|, t requires 0 <= t < |s| =>
      if t > 0 && s[t].Some? && s[t - 1].Some? && s[t].value - s[t - 1].value < 0.0
      then -(s[t].value - s[t - 1].value) else 0.0)
  }

  /** Every step between two prices splits into its rise minus its fall, and at most one of
      them is non-zero. */
  lemma GainsMinusLosses(s: seq<Option<real>>, t: nat)
    requires 0 < t < |s| && s[t].Some? && s[t - 1].Some?
    ensures Gains(s)[t] - Losses(s)[t] == s[t].value - s[t - 1].value
    ensures Gains(s)[t] == 0.0 || Losses(s)[t] == 0.0
  {
  }

  /** `100 - 100 / (1 + rs)` with `rs = gain / loss` under IEEE division: a zero loss makes
      `rs` infinite and the index 100 when there was a gain, and undefined (0 / 0) when there
      was none. */
  function RsiFromAverages(gain: real, loss: real): (r: Option<real>)
    requires gain >= 0.0 && loss >= 0.0
    ensures r.Some? <==> gain + loss > 0.0
    ensures r.Some? ==> 0.0 <= r.value <= 100.0
    ensures r.Some? ==> r.value * (gain + loss) == 100.0 * gain
  {
    if loss > 0.0 then
      RsiAlgebra(gain, loss);
      Some(100.0 - 100.0 / (1.0 + gain / loss))
    else if gain > 0.0 then Some(100.0)
    else None
  }

  lemma DivUnique(x: real, n: real, d: real)
    requires d != 0.0 && x * d == n
    ensures x == n / d
  {
  }

  lemma DivSum(a: real, b: real, d: real)
    requires d != 0.0
    ensures a / d + b / d == (a + b) / d
  {
    DivUnique(a / d + b / d, a + b, d);
  }

  /** With a positive loss the index is `100·gain / (gain + loss)`. */
  lemma RsiAlgebra(gain: real, loss: real)
    requires gain >= 0.0 && loss > 0.0
    ensures 100.0 - 100.0 / (1.0 + gain / loss) == 100.0 * gain / (gain + loss)
    ensures 0.0 <= 100.0 * gain / (gain + loss) <= 100.0
  {
    var s := gain + loss;
    var rs := gain / loss;
    assert (1.0 + rs) * loss == loss + rs * loss;
    DivUnique(1.0 + rs, s, loss);
    var u := 1.0 + rs;
    var y := 100.0 / u;
    assert y * u == 100.0;
    assert s == u * loss;
    assert y * s == (y * u) * loss;
    DivUnique(y, 100.0 * loss, s);
    DivSum(100.0 * gain, 100.0 * loss, s);
    DivUnique(100.0, 100.0 * s, s);
    RatioBelowOne(gain, s);
    assert 100.0 * gain / s == 100.0 * (gain / s);
  }

  /** The rolling average gain at `t`: gains are never missing, so it is defined from
      position `w - 1` on. */
  function AverageGain(s: seq<Option<real>>, w: nat, t: nat): (g: real)
    requires 1 <= w && w - 1 <= t < |s|
    ensures g >= 0.0
    ensures Some(g) == RollingMean(Lift(Gains(s)), w)[t]
  {
    MeanNonNegative(Window(Lift(Gains(s)), w, t));
    RollingMean(Lift(Gains(s)), w)[t].value
  }

  /** The rolling average loss at `t`, defined from position `w - 1` on. */
  function AverageLoss(s: seq<Option<real>>, w: nat, t: nat): (l: real)
    requires 1 <= w && w - 1 <= t < |s|
    ensures l >= 0.0
    ensures Some(l) == RollingMean(Lift(Losses(s)), w)[t]
  {
    MeanNonNegative(Window(Lift(Losses(s)), w, t));
    RollingMean(Lift(Losses(s)), w)[t].value
  }

  /** `calculate_rsi(series, window)`: undefined before position `window - 1` and wherever
      both averages are zero, otherwise within [0, 100]. A missing price does not make the
      index missing: its steps count as neither rise nor fall. */
  function Rsi(s: seq<Option<real>>, w: nat): (r: seq<Option<real>>)
    requires w >= 1
    ensures |r| == |s|
    ensures forall t :: 0 <= t < |s| && t < w - 1 ==> r[t] == None
    ensures forall t :: 0 <= t < |s| && t >= w - 1 ==>
              (r[t].Some? <==> AverageGain(s, w, t) + AverageLoss(s, w, t) > 0.0)
    ensures forall t :: 0 <= t < |s| && r[t].Some? ==> 0.0 <= r[t].value <= 100.0
  {
    seq(|s|, t requires 0 <= t < |s| =>
      if t >= w - 1 then RsiFromAverages(AverageGain(s, w, t), AverageLoss(s, w, t)) else None)
  }

  /** Where one of the averages is positive, the index is `100·G / (G + L)`. */
  lemma RsiFormula(s: seq<Option<real>>, w: nat, t: nat)
    requires 1 <= w && w - 1 <= t < |s|
    requires AverageGain(s, w, t) + AverageLoss(s, w, t) > 0.0
    ensures var G := AverageGain(s, w, t);
      var L := AverageLoss(s, w, t);
      Rsi(s, w)[t] == Some(100.0 * G / (G + L))
  {
    var G := AverageGain(s, w, t);
    var L := AverageLoss(s, w, t);
    assert Rsi(s, w)[t] == RsiFromAverages(G, L);
    RsiRatio(G, L);
  }

  /** Both branches of the IEEE reading agree with `100·G / (G + L)`. */
  lemma RsiRatio(gain: real, loss: real)
    requires gain >= 0.0 && loss >= 0.0 && gain + loss > 0.0
    ensures RsiFromAverages(gain, loss) == Some(100.0 * gain / (gain + loss))
  {
    var r := RsiFromAverages(gain, loss);
    DivUnique(r.value, 100.0 * gain, gain + loss);
  }

  /** A window of strictly rising prices reads 100. */
  lemma RsiRising(p: seq<real>, w: nat, t: nat)
    requires 2 <= w && w - 1 <= t < |p|
    requires forall k :: 0 < k < |p| ==> p[k] > p[k - 1]
    ensures Rsi(Lift(p), w)[t] == Some(100.0)
  {
    var s := Lift(p);
    var gw := Window(Lift(Gains(s)), w, t);
    var lw := Window(Lift(Losses(s)), w, t);
    MeanConstant(lw, 0.0);
    assert gw[w - 1] == Gains(s)[t] > 0.0;
    MeanNonNegative(gw);
  }

  /** A window of strictly falling prices reads 0. */
  lemma RsiFalling(p: seq<real>, w: nat, t: nat)
    requires 2 <= w && w - 1 <= t < |p|
    requires forall k :: 0 < k < |p| ==> p[k] < p[k - 1]
    ensures Rsi(Lift(p), w)[t] == Some(0.0)
  {
    var s := Lift(p);
    var gw := Window(Lift(Gains(s)), w, t);
    var lw := Window(Lift(Losses(s)), w, t);
    MeanConstant(gw, 0.0);
    assert lw[w - 1] == Losses(s)[t] > 0.0;
    MeanNonNegative(lw);
  }

  /** A flat window gives 0 / 0: the index is undefined there. */
  lemma RsiFlat(p: seq<real>, w: nat, t: nat)
    requires 1 <= w && w - 1 <= t < |p|
    requires forall k :: 0 < k < |p| ==> p[k] == p[k - 1]
    ensures Rsi(Lift(p), w)[t] == None
  {
    var s := Lift(p);
    MeanConstant(Window(Lift(Gains(s)), w, t), 0.0);
    MeanConstant(Window(Lift(Losses(s)), w, t), 0.0);
  }
}
