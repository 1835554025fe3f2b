/** Sums, averages, extremes and NaN-dropping over real-valued sequences, shared by the
    indicators. */
module Series {
  import opened Wrappers

  function Sum(s: seq<real>): real
  {
    if |s| == 0 then 0.0 else Sum(s[..|s| - 1]) + s[|s| - 1]
  }

  function Mean(s: seq<real>): real
    requires |s| > 0
  {
    Sum(s) / |s| as real
  }

  /** The sum of `n` copies of `v` is `n·v`. */
  lemma {:induction false} SumConstant(s: seq<real>, v: real)
    requires forall k :: 0 <= k < |s| ==> s[k] == v
    ensures Sum(s) == |s| as real * v
  {
    if |s| > 0 {
      SumConstant(s[..|s| - 1], v);
    }
  }

  /** The mean of a constant window is that constant. */
  lemma MeanConstant(s: seq<real>, v: real)
    requires |s| > 0
    requires forall k :: 0 <= k < |s| ==> s[k] == v
    ensures Mean(s) == v
  {
    SumConstant(s, v);
  }

  /** Sums of non-negative terms are non-negative, and positive once one term is. */
  lemma {:induction false} SumNonNegative(s: seq<real>)
    requires forall k :: 0 <= k < |s| ==> s[k] >= 0.0
    ensures Sum(s) >= 0.0
    ensures (exists k :: 0 <= k < |s| && s[k] > 0.0) ==> Sum(s) > 0.0
  {
    if |s| > 0 {
      SumNonNegative(s[..|s| - 1]);
      if exists k :: 0 <= k < |s| && s[k] > 0.0 {
        var k :| 0 <= k < |s| && s[k] > 0.0;
        if k < |s| - 1 {
          assert s[..|s| - 1][k] > 0.0;
        }
      }
    }
  }

  /** The mean of non-negative terms is non-negative, and positive once one term is. */
  lemma MeanNonNegative(s: seq<real>)
    requires |s| > 0
    requires forall k :: 0 <= k < |s| ==> s[k] >= 0.0
    ensures Mean(s) >= 0.0
    ensures (exists k :: 0 <= k < |s| && s[k] > 0.0) ==> Mean(s) > 0.0
  {
    SumNonNegative(s);
  }

  /** A sum of `n` terms between `lo` and `hi` lies between `n·lo` and `n·hi`. */
  lemma {:induction false} SumBounds(s: seq<real>, lo: real, hi: real)
    requires forall k :: 0 <= k < |s| ==> lo <= s[k] <= hi
    ensures |s| as real * lo <= Sum(s) <= |s| as real * hi
  {
    if |s| > 0 {
      SumBounds(s[..|s| - 1], lo, hi);
    }
  }

  /** The mean of terms between `lo` and `hi` lies between them. */
  lemma MeanBounds(s: seq<real>, lo: real, hi: real)
    requires |s| > 0
    requires forall k :: 0 <= k < |s| ==> lo <= s[k] <= hi
    ensures lo <= Mean(s) <= hi
  {
    SumBounds(s, lo, hi);
    var n := |s| as real;
    assert Mean(s) * n == Sum(s);
  }

  /** A part of a positive whole is at most the whole. */
  lemma RatioBelowOne(x: real, n: real)
    requires 0.0 <= x <= n && n > 0.0
    ensures x / n <= 1.0
  {
    var q := x / n;
    assert q * n == x;
  }

  /** The smallest element. */
  function MinOf(s: seq<real>): (m: real)
    requires |s| > 0
    ensures m in s
    ensures forall k :: 0 <= k < |s| ==> m <= s[k]
  {
    if |s| == 1 then s[0]
    else
      var m := MinOf(s[..|s| - 1]);
      assert forall k :: 0 <= k < |s| - 1 ==> s[..|s| - 1][k] == s[k];
      if s[|s| - 1] < m then s[|s| - 1] else m
  }

  /** The largest element. */
  function MaxOf(s: seq<real>): (m: real)
    requires |s| > 0
    ensures m in s
    ensures forall k :: 0 <= k < |s| ==> s[k] <= m
  {
    if |s| == 1 then s[0]
    else
      var m := MaxOf(s[..|s| - 1]);
      assert forall k :: 0 <= k < |s| - 1 ==> s[..|s| - 1][k] == s[k];
      if s[|s| - 1] > m then s[|s| - 1] else m
  }

  /** A gap-free column: every position holds a value. */
  function Lift(s: seq<real>): (r: seq<Option<real>>)
    ensures |r| == |s| && forall k :: 0 <= k < |s| ==> r[k] == Some(s[k])
  {
    seq(|s|, k requires 0 <= k < |s| => Some(s[k]))
  }

  /** pandas' `dropna()` on one column: the present values, in order. */
  function Present(s: seq<Option<real>>): (r: seq<real>)
    ensures |r| <= |s|
  {
    if |s| == 0 then []
    else (if s[0].Some? then [s[0].value] else []) + Present(s[1..])
  }

  /** `dropna()` keeps exactly the present values. */
  lemma {:induction false} PresentMembers(s: seq<Option<real>>)
    ensures forall x :: x in Present(s) <==> Some(x) in s
  {
    if |s| > 0 {
      PresentMembers(s[1..]);
      assert s == [s[0]] + s[1..];
    }
  }

  /** Dropping NaN commutes with concatenation, so it keeps the order of the values. */
  lemma {:induction false} PresentAppend(a: seq<Option<real>>, b: seq<Option<real>>)
    ensures Present(a + b) == Present(a) + Present(b)
  {
    if |a| > 0 {
      assert (a + b)[1..] == a[1..] + b;
      PresentAppend(a[1..], b);
    } else {
      assert a + b == b;
    }
  }

  /** A column without gaps loses nothing to `dropna()`. */
  lemma {:induction false} PresentLift(s: seq<real>)
    ensures Present(Lift(s)) == s
  {
    if |s| > 0 {
      assert Lift(s)[1..] == Lift(s[1..]);
      PresentLift(s[1..]);
    }
  }
}
