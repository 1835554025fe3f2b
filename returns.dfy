/** Daily returns, cumulative returns and drawdown: `pct_change`, `(1 + r).cumprod()` and
    `cum / cum.cummax() - 1`, over a column whose missing positions are `None`. */
module Returns {
  import opened Wrappers
  import opened Series

  /** pandas' `pct_change()` on one column, without filling gaps: position `t` is
      `s[t] / s[t-1] - 1` when both prices are present and the earlier one is not zero. */
  function PctChange(s: seq<Option<real>>): (r: seq<Option<real>>)
    ensures |r| == |s|
    ensures |s| > 0 ==> r[0] == None
    ensures forall t {:trigger r[t]} :: 0 < t < |s| ==>
              (r[t].Some? <==> s[t].Some? && s[t - 1].Some? && s[t - 1].value != 0.0)
    ensures forall t {:trigger r[t]} :: 0 < t < |s| && r[t].Some? ==>
              s[t].Some? && s[t - 1].Some? && s[t].value == s[t - 1].value * (1.0 + r[t].value)
  {
    seq(|s|, t requires 0 <= t < |s| =>
      if t > 0 && s[t].Some? && s[t - 1].Some? && s[t - 1].value != 0.0
      then Some(s[t].value / s[t - 1].value - 1.0)
      else None)
  }

  /** No price is zero, so no return divides by zero. */
  predicate NonZero(p: seq<real>)
  {
    forall k :: 0 <= k < |p| ==> p[k] != 0.0
  }

  /** `calculate_daily_returns`: `pct_change().dropna()` on a gap-free column. */
  function DailyReturns(p: seq<real>): seq<real>
  {
    Present(PctChange(Lift(p)))
  }

  /** The returns `p[t+1] / p[t] - 1` of a gap-free, non-zero price run, one per step. */
  function SimpleReturns(p: seq<real>): (r: seq<real>)
    requires |p| >= 1 && NonZero(p)
    ensures |r| == |p| - 1
  {
    seq(|p| - 1, t requires 0 <= t < |p| - 1 => p[t + 1] / p[t] - 1.0)
  }

  /** The first position is dropped, not zero-filled: `n` non-zero prices give the `n - 1`
      returns `p[t+1] / p[t] - 1`. */
  lemma DailyReturnsFormula(p: seq<real>)
    requires |p| >= 1 && NonZero(p)
    ensures DailyReturns(p) == SimpleReturns(p)
    ensures |DailyReturns(p)| == |p| - 1
    ensures forall t :: 0 <= t < |p| - 1 ==> DailyReturns(p)[t] == p[t + 1] / p[t] - 1.0
  {
    var r := SimpleReturns(p);
    var x := PctChange(Lift(p));
    assert x == [None] + Lift(r);
    assert x[1..] == Lift(r);
    PresentLift(r);
  }

  /** Appending a price appends its return. */
  lemma SimpleReturnsSnoc(p: seq<real>)
    requires |p| >= 2 && NonZero(p)
    ensures SimpleReturns(p) == SimpleReturns(p[..|p| - 1]) + [p[|p| - 1] / p[|p| - 2] - 1.0]
  {
    var n := |p|;
    var q := p[..n - 1];
    var a := SimpleReturns(p);
    var b := SimpleReturns(q) + [p[n - 1] / p[n - 2] - 1.0];
    forall t | 0 <= t < |a| ensures a[t] == b[t] {
      if t < n - 2 {
        assert q[t] == p[t] && q[t + 1] == p[t + 1];
      }
    }
    assert a == b;
  }

  /** The first `k` returns are the returns of the first `k + 1` prices. */
  lemma SimpleReturnsPrefix(p: seq<real>, k: nat)
    requires NonZero(p) && k < |p|
    ensures SimpleReturns(p)[..k] == SimpleReturns(p[..k + 1])
  {
    var q := p[..k + 1];
    forall t | 0 <= t < k ensures SimpleReturns(p)[t] == SimpleReturns(q)[t] {
      assert q[t] == p[t] && q[t + 1] == p[t + 1];
    }
  }

  /** Growth factor of a run of returns: the product of `1 + r`. */
  function Growth(r: seq<real>): real
  {
    if |r| == 0 then 1.0 else Growth(r[..|r| - 1]) * (1.0 + r[|r| - 1])
  }

  lemma GrowthSnoc(r: seq<real>, x: real)
    ensures Growth(r + [x]) == Growth(r) * (1.0 + x)
  {
    assert (r + [x])[..|r|] == r;
  }

  /** `(1 + r).cumprod()` over returns that have no gaps: each value is the previous one
      times `1 + r[k]`, starting from `1 + r[0]`. */
  function CumulativeReturns(r: seq<real>): (c: seq<real>)
    ensures |c| == |r|
    ensures |r| > 0 ==> c[0] == 1.0 + r[0]
    ensures forall k :: 0 < k < |r| ==> c[k] == c[k - 1] * (1.0 + r[k])
  {
    var c := seq(|r|, k requires 0 <= k < |r| => Growth(r[..k + 1]));
    assert forall k :: 0 < k < |r| ==> r[..k + 1][..k] == r[..k];
    if |r| > 0 then
      GrowthSnoc([], r[0]);
      assert [] + [r[0]] == r[..1];
      c
    else c
  }

  lemma CumulativeReturnsAt(r: seq<real>, k: nat)
    requires k < |r|
    ensures CumulativeReturns(r)[k] == Growth(r[..k + 1])
  {
  }

  lemma QuotientChain(a: real, b: real, c: real)
    requires a != 0.0 && b != 0.0
    ensures (a / b) * (1.0 + (c / a - 1.0)) == c / b
  {
    assert 1.0 + (c / a - 1.0) == c / a;
    assert (a / b) * (c / a) == c / b;
  }

  /** One step of the telescoping product. */
  lemma GrowthStep(p: seq<real>)
    requires |p| >= 2 && NonZero(p)
    requires Growth(SimpleReturns(p[..|p| - 1])) == p[|p| - 2] / p[0]
    ensures Growth(SimpleReturns(p)) == p[|p| - 1] / p[0]
  {
    var n := |p|;
    var x := p[n - 1] / p[n - 2] - 1.0;
    SimpleReturnsSnoc(p);
    GrowthSnoc(SimpleReturns(p[..n - 1]), x);
    QuotientChain(p[n - 2], p[0], p[n - 1]);
  }

  /** Compounding telescopes: the growth over all returns is last price / first price. */
  lemma {:induction false} GrowthTelescopes(p: seq<real>)
    requires |p| >= 1 && NonZero(p)
    ensures Growth(SimpleReturns(p)) == p[|p| - 1] / p[0]
    decreases |p|
  {
    if |p| == 1 {
      assert SimpleReturns(p) == [];
      assert p[0] / p[0] == 1.0;
    } else {
      GrowthTelescopes(p[..|p| - 1]);
      GrowthStep(p);
    }
  }

  /** The growth over the first `k + 1` returns is `p[k+1] / p[0]`. */
  lemma GrowthOfPrefix(p: seq<real>, k: nat)
    requires NonZero(p) && k + 1 < |p|
    ensures Growth(SimpleReturns(p)[..k + 1]) == p[k + 1] / p[0]
  {
    var q := p[..k + 2];
    SimpleReturnsPrefix(p, k + 1);
    GrowthTelescopes(q);
    assert q[k + 1] == p[k + 1] && q[0] == p[0];
  }

  /** Cumulative return `k` of the dropna'd daily returns is `p[k+1] / p[0]`. */
  lemma CumulativeReturnsTelescope(p: seq<real>, k: nat)
    requires NonZero(p) && k + 1 < |p|
    ensures |CumulativeReturns(DailyReturns(p))| == |p| - 1
    ensures CumulativeReturns(DailyReturns(p))[k] == p[k + 1] / p[0]
  {
    DailyReturnsFormula(p);
    var r := SimpleReturns(p);
    CumulativeReturnsAt(r, k);
    GrowthOfPrefix(p, k);
  }

  /** `(1 + r).cumprod()` on a column with NaN: NaN where the return is NaN, otherwise the
      product of `1 + r` over every present return so far. */
  function CumProdSkipNa(r: seq<Option<real>>): (c: seq<Option<real>>)
    ensures |c| == |r|
    ensures forall t :: 0 <= t < |r| ==> (c[t].Some? <==> r[t].Some?)
  {
    seq(|r|, t requires 0 <= t < |r| =>
      if r[t].Some? then Some(Growth(Present(r[..t + 1]))) else None)
  }

  /** The largest present value among the first `t + 1` positions, or `None` when all of
      them are missing; it is attained by one of them and bounds all of them. */
  function PrefixMax(c: seq<Option<real>>, t: nat): (m: Option<real>)
    requires t < |c|
    ensures forall k :: 0 <= k <= t && c[k].Some? ==> m.Some? && c[k].value <= m.value
    decreases t
  {
    if t == 0 then c[0]
    else
      var prev := PrefixMax(c, t - 1);
      if c[t].None? then prev
      else if prev.None? || c[t].value > prev.value then c[t]
      else prev
  }

  /** The running maximum is missing only when every value so far is, and otherwise it is one
      of them. */
  lemma {:induction false} PrefixMaxAttained(c: seq<Option<real>>, t: nat)
    requires t < |c|
    ensures PrefixMax(c, t).Some? <==> exists k :: 0 <= k <= t && c[k].Some?
    ensures PrefixMax(c, t).Some? ==> exists k :: 0 <= k <= t && c[k] == PrefixMax(c, t)
    decreases t
  {
    if t > 0 {
      PrefixMaxAttained(c, t - 1);
    }
  }

  /** `cummax()` on a column with NaN: NaN where the value is NaN, otherwise the largest
      present value so far. */
  function CumMaxSkipNa(c: seq<Option<real>>): (m: seq<Option<real>>)
    ensures |m| == |c|
    ensures forall t :: 0 <= t < |c| ==> (m[t].Some? <==> c[t].Some?)
    ensures forall t :: 0 <= t < |c| && c[t].Some? ==> m[t] == PrefixMax(c, t)
  {
    seq(|c|, t requires 0 <= t < |c| => if c[t].Some? then PrefixMax(c, t) else None)
  }

  /** One value against its running maximum: `x / peak - 1`, NaN where either is NaN or the
      maximum is zero. */
  function Relative(x: Option<real>, peak: Option<real>): (r: Option<real>)
    ensures r.Some? <==> x.Some? && peak.Some? && peak.value != 0.0
    ensures r.Some? ==> r.value == x.value / peak.value - 1.0
  {
    if x.Some? && peak.Some? && peak.value != 0.0 then Some(x.value / peak.value - 1.0) else None
  }

  /** `cum / cum.cummax() - 1`: NaN where either is NaN (or the maximum is zero). */
  function Drawdown(c: seq<Option<real>>): (d: seq<Option<real>>)
    ensures |d| == |c|
    ensures forall t :: 0 <= t < |c| ==> d[t] == Relative(c[t], CumMaxSkipNa(c)[t])
  {
    var m := CumMaxSkipNa(c);
    seq(|c|, t requires 0 <= t < |c| => Relative(c[t], m[t]))
  }

  lemma RatioInUnitInterval(x: real, m: real)
    requires 0.0 < x <= m
    ensures 0.0 < x / m <= 1.0
    ensures x / m == 1.0 <==> x == m
  {
    var q := x / m;
    assert q * m == x;
  }

  /** Wherever the cumulative return is positive the drawdown lies in (-1, 0], and it is 0
      exactly at new highs, where the value equals its running maximum. */
  lemma DrawdownBounds(c: seq<Option<real>>, t: nat)
    requires t < |c| && c[t].Some? && c[t].value > 0.0
    ensures Drawdown(c)[t].Some?
    ensures -1.0 < Drawdown(c)[t].value <= 0.0
    ensures Drawdown(c)[t].value == 0.0 <==> c[t].value == CumMaxSkipNa(c)[t].value
  {
    var m := CumMaxSkipNa(c)[t].value;
    RatioInUnitInterval(c[t].value, m);
  }

  /** A prefix of the returns column is the returns column of the price prefix. */
  lemma PctChangePrefix(p: seq<real>, k: nat)
    requires k <= |p|
    ensures PctChange(Lift(p))[..k] == PctChange(Lift(p[..k]))
  {
    var a := PctChange(Lift(p))[..k];
    var b := PctChange(Lift(p[..k]));
    forall t | 0 <= t < k ensures a[t] == b[t] {
      assert Lift(p[..k])[t] == Lift(p)[t];
      if t > 0 {
        assert Lift(p[..k])[t - 1] == Lift(p)[t - 1];
      }
    }
  }

  /** The present returns up to row `t` are the simple returns of the first `t + 1` prices. */
  lemma PresentReturnsOfPrefix(p: seq<real>, t: nat)
    requires NonZero(p) && t < |p|
    ensures NonZero(p[..t + 1])
    ensures Present(PctChange(Lift(p))[..t + 1]) == SimpleReturns(p[..t + 1])
  {
    PctChangePrefix(p, t + 1);
    DailyReturnsFormula(p[..t + 1]);
  }

  /** With non-zero prices the cumulative return column telescopes: NaN at the first row and
      `p[t] / p[0]` at every later one. */
  lemma CumProdSkipNaTelescopes(p: seq<real>, t: nat)
    requires NonZero(p) && t < |p|
    ensures CumProdSkipNa(PctChange(Lift(p)))[t] == if t == 0 then None else Some(p[t] / p[0])
  {
    if t > 0 {
      var x := PctChange(Lift(p));
      var q := p[..t + 1];
      assert CumProdSkipNa(x)[t] == Some(Growth(Present(x[..t + 1])));
      PresentReturnsOfPrefix(p, t);
      GrowthTelescopes(q);
      assert q[t] == p[t] && q[0] == p[0];
    }
  }

  lemma PositiveQuotient(a: real, b: real)
    requires a > 0.0 && b > 0.0
    ensures a / b > 0.0
  {
  }

  /** Positive prices give a drawdown in (-1, 0] from the second row on. */
  lemma PositivePricesDrawdown(p: seq<real>, t: nat)
    requires forall k :: 0 <= k < |p| ==> p[k] > 0.0
    requires 0 < t < |p|
    ensures Drawdown(CumProdSkipNa(PctChange(Lift(p))))[t].Some?
    ensures -1.0 < Drawdown(CumProdSkipNa(PctChange(Lift(p))))[t].value <= 0.0
  {
    var c := CumProdSkipNa(PctChange(Lift(p)));
    CumProdSkipNaTelescopes(p, t);
    PositiveQuotient(p[t], p[0]);
    DrawdownBounds(c, t);
  }
}
