/** Whole-frame operations on an aligned table: `pct_change()` column by column, `dropna()`
    over rows, and `rolling(window=w).mean()` column by column. */
module Frames {
  import opened Wrappers
  import opened Series
  import opened Dates
  import opened Align
  import opened Returns
  import opened Rolling

  /** Row `i` has a value in every column. */
  predicate Complete(t: Table, i: nat)
    requires t.WellFormed() && i < |t.index|
  {
    forall j :: 0 <= j < |t.cells| ==> t.cells[j][i].Some?
  }

  /** The positions, in order, of the complete rows among the first `n`. */
  function CompleteRows(t: Table, n: nat): (pos: seq<nat>)
    requires t.WellFormed() && n <= |t.index|
    ensures |pos| <= n
    ensures forall k :: 0 <= k < |pos| ==> pos[k] < n && Complete(t, pos[k])
    decreases n
  {
    if n == 0 then []
    else
      var prev := CompleteRows(t, n - 1);
      if Complete(t, n - 1) then prev + [n - 1] else prev
  }

  /** Every complete row before `n` is listed. */
  lemma {:induction false} CompleteRowsHas(t: Table, n: nat, i: nat)
    requires t.WellFormed() && n <= |t.index| && i < n && Complete(t, i)
    ensures i in CompleteRows(t, n)
    decreases n
  {
    if i < n - 1 {
      CompleteRowsHas(t, n - 1, i);
    }
  }

  /** The complete positions come in increasing order. */
  lemma {:induction false} CompleteRowsIncreasing(t: Table, n: nat)
    requires t.WellFormed() && n <= |t.index|
    ensures forall k, l :: 0 <= k < l < |CompleteRows(t, n)| ==> CompleteRows(t, n)[k] < CompleteRows(t, n)[l]
    decreases n
  {
    if n > 0 {
      CompleteRowsIncreasing(t, n - 1);
    }
  }

  /** A row of a frame with nothing missing. */
  datatype Line = Line(date: DateTime, values: seq<real>)

  /** The values of a complete row, column by column. */
  function RowValues(t: Table, i: nat): (vs: seq<real>)
    requires t.WellFormed() && i < |t.index| && Complete(t, i)
    ensures |vs| == |t.cells|
    ensures forall j :: 0 <= j < |t.cells| ==> Some(vs[j]) == t.cells[j][i]
  {
    seq(|t.cells|, j requires 0 <= j < |t.cells| => t.cells[j][i].value)
  }

  /** The lines of the rows at the given complete positions. */
  function LinesAt(t: Table, pos: seq<nat>): (lines: seq<Line>)
    requires t.WellFormed()
    requires forall k :: 0 <= k < |pos| ==> pos[k] < |t.index| && Complete(t, pos[k])
    ensures |lines| == |pos|
    ensures forall k :: 0 <= k < |pos| ==> lines[k] == Line(t.index[pos[k]], RowValues(t, pos[k]))
  {
    seq(|pos|, k requires 0 <= k < |pos| => Line(t.index[pos[k]], RowValues(t, pos[k])))
  }

  /** `dropna()`: the complete rows, in index order. */
  function DropNa(t: Table): (lines: seq<Line>)
    requires t.WellFormed()
    ensures |lines| <= |t.index|
    ensures forall k :: 0 <= k < |lines| ==> |lines[k].values| == |t.columns|
    ensures forall i :: 0 <= i < |t.index| && Complete(t, i) ==>
              Line(t.index[i], RowValues(t, i)) in lines
  {
    var pos := CompleteRows(t, |t.index|);
    var lines := LinesAt(t, pos);
    assert forall i :: 0 <= i < |t.index| && Complete(t, i) ==>
             Line(t.index[i], RowValues(t, i)) in lines by {
      forall i | 0 <= i < |t.index| && Complete(t, i)
        ensures Line(t.index[i], RowValues(t, i)) in lines
      {
        CompleteRowsHas(t, |t.index|, i);
        var k :| 0 <= k < |pos| && pos[k] == i;
        assert lines[k] == Line(t.index[i], RowValues(t, i));
      }
    }
    lines
  }

  /** Over an increasing index, `dropna()` keeps its lines in date order. */
  lemma DropNaIncreasing(t: Table)
    requires t.WellFormed() && StrictlyIncreasing(t.index)
    ensures forall k, l :: 0 <= k < l < |DropNa(t)| ==> Before(DropNa(t)[k].date, DropNa(t)[l].date)
  {
    var pos := CompleteRows(t, |t.index|);
    CompleteRowsIncreasing(t, |t.index|);
    forall k, l | 0 <= k < l < |DropNa(t)| ensures Before(DropNa(t)[k].date, DropNa(t)[l].date) {
      DropNaLine(t, |t.index|, k);
      DropNaLine(t, |t.index|, l);
    }
  }

  /** The row a line `dropna()` kept comes from: a complete row of the frame. */
  function DropNaSource(t: Table, k: nat): (i: nat)
    requires t.WellFormed() && k < |DropNa(t)|
    ensures i < |t.index| && Complete(t, i)
    ensures DropNa(t)[k] == Line(t.index[i], RowValues(t, i))
  {
    CompleteRows(t, |t.index|)[k]
  }

  /** `pct_change()` applied to every column. */
  function PctChangeFrame(t: Table): (r: Table)
    requires t.WellFormed()
    ensures r.WellFormed() && r.index == t.index && r.columns == t.columns
    ensures forall j :: 0 <= j < |t.cells| ==> r.cells[j] == PctChange(t.cells[j])
  {
    Table(t.index, t.columns,
          seq(|t.cells|, j requires 0 <= j < |t.cells| => PctChange(t.cells[j])))
  }

  /** `adj_close.pct_change().dropna()`: the returns of the dates on which every symbol has a
      return. */
  function DailyReturnsFrame(t: Table): (lines: seq<Line>)
    requires t.WellFormed()
    ensures |lines| <= |t.index|
    ensures forall k :: 0 <= k < |lines| ==> |lines[k].values| == |t.columns|
  {
    DropNa(PctChangeFrame(t))
  }

  /** Each kept line is a date after the first at which every symbol moved from its previous
      price by the recorded return. */
  lemma DailyReturnsFrameRows(t: Table, k: nat)
    requires t.WellFormed() && |t.columns| > 0 && k < |DailyReturnsFrame(t)|
    ensures exists i :: 0 < i < |t.index| && DailyReturnsFrame(t)[k].date == t.index[i] &&
              forall j :: 0 <= j < |t.cells| ==>
                t.cells[j][i].Some? && t.cells[j][i - 1].Some? && t.cells[j][i - 1].value != 0.0 &&
                DailyReturnsFrame(t)[k].values[j] == t.cells[j][i].value / t.cells[j][i - 1].value - 1.0
  {
    var r := PctChangeFrame(t);
    var i := DropNaSource(r, k);
    var line := DailyReturnsFrame(t)[k];
    assert line == Line(r.index[i], RowValues(r, i));
    assert r.cells[0][i].Some?;
    forall j | 0 <= j < |t.cells|
      ensures t.cells[j][i].Some? && t.cells[j][i - 1].Some? && t.cells[j][i - 1].value != 0.0 &&
              line.values[j] == t.cells[j][i].value / t.cells[j][i - 1].value - 1.0
    {
      assert Some(line.values[j]) == r.cells[j][i];
      PctChangeStep(t.cells[j], i);
    }
  }

  lemma PctChangeStep(s: seq<Option<real>>, i: nat)
    requires 0 < i < |s| && PctChange(s)[i].Some?
    ensures s[i].Some? && s[i - 1].Some? && s[i - 1].value != 0.0
    ensures PctChange(s)[i].value == s[i].value / s[i - 1].value - 1.0
  {
  }

  /** The complete rows of a column that is present everywhere except at position 0. */
  lemma {:induction false} CompleteRowsAfterFirst(t: Table, n: nat)
    requires t.WellFormed() && |t.cells| == 1 && 1 <= n <= |t.index|
    requires t.cells[0][0].None?
    requires forall i :: 0 < i < |t.index| ==> t.cells[0][i].Some?
    ensures |CompleteRows(t, n)| == n - 1
    ensures forall k :: 0 <= k < n - 1 ==> CompleteRows(t, n)[k] == k + 1
    decreases n
  {
    if n > 1 {
      CompleteRowsAfterFirst(t, n - 1);
      assert Complete(t, n - 1);
      assert CompleteRows(t, n) == CompleteRows(t, n - 1) + [n - 1];
    } else {
      assert !Complete(t, 0);
    }
  }

  /** For a single gap-free, non-zero column the kept rows are every row after the first. */
  lemma SingleCompleteRows(index: seq<DateTime>, s: string, p: seq<real>)
    requires |index| == |p| >= 1 && NonZero(p)
    ensures var r := PctChangeFrame(Table(index, [s], [Lift(p)]));
      var pos := CompleteRows(r, |index|);
      |pos| == |p| - 1 && forall k :: 0 <= k < |p| - 1 ==> pos[k] == k + 1
  {
    var r := PctChangeFrame(Table(index, [s], [Lift(p)]));
    assert r.cells[0] == PctChange(Lift(p));
    CompleteRowsAfterFirst(r, |index|);
  }

  /** Row `k + 1` of the percent changes of a single gap-free, non-zero column is complete and
      holds `p[k+1] / p[k] - 1`. */
  lemma SingleRowValues(index: seq<DateTime>, s: string, p: seq<real>, k: nat)
    requires |index| == |p| && NonZero(p) && k + 1 < |p|
    ensures var r := PctChangeFrame(Table(index, [s], [Lift(p)]));
      k + 1 < |r.index| && Complete(r, k + 1) && RowValues(r, k + 1) == [p[k + 1] / p[k] - 1.0]
  {
    var r := PctChangeFrame(Table(index, [s], [Lift(p)]));
    assert r.cells[0] == PctChange(Lift(p));
    assert Lift(p)[k + 1] == Some(p[k + 1]) && Lift(p)[k] == Some(p[k]);
    PctChangeStep(Lift(p), k + 1);
    var v := RowValues(r, k + 1);
    assert Some(v[0]) == r.cells[0][k + 1];
  }

  /** Line `k` of `dropna()` is the row at the `k`-th complete position. */
  lemma DropNaLine(t: Table, n: nat, k: nat)
    requires t.WellFormed() && n == |t.index| && k < |CompleteRows(t, n)|
    ensures |DropNa(t)| == |CompleteRows(t, n)|
    ensures DropNa(t)[k] == Line(t.index[CompleteRows(t, n)[k]], RowValues(t, CompleteRows(t, n)[k]))
  {
  }

  /** The line kept for step `k` of a single gap-free, non-zero column. */
  lemma SingleLine(index: seq<DateTime>, s: string, p: seq<real>, k: nat)
    requires |index| == |p| >= 1 && NonZero(p) && k < |p| - 1
    ensures |DailyReturnsFrame(Table(index, [s], [Lift(p)]))| == |p| - 1
    ensures DailyReturnsFrame(Table(index, [s], [Lift(p)]))[k] ==
              Line(index[k + 1], [p[k + 1] / p[k] - 1.0])
  {
    var t := Table(index, [s], [Lift(p)]);
    var r := PctChangeFrame(t);
    SingleCompleteRows(index, s, p);
    assert CompleteRows(r, |index|)[k] == k + 1;
    DropNaLine(r, |index|, k);
    SingleRowValues(index, s, p, k);
    assert DailyReturnsFrame(t) == DropNa(r);
  }

  /** A single gap-free symbol of `n` non-zero prices has `n - 1` daily returns, one for each
      date after the first, each `p[t+1] / p[t] - 1`. */
  lemma DailyReturnsFrameSingle(index: seq<DateTime>, s: string, p: seq<real>)
    requires |index| == |p| >= 1 && NonZero(p)
    ensures |DailyReturnsFrame(Table(index, [s], [Lift(p)]))| == |p| - 1
    ensures forall k :: 0 <= k < |p| - 1 ==>
              DailyReturnsFrame(Table(index, [s], [Lift(p)]))[k] ==
                Line(index[k + 1], [p[k + 1] / p[k] - 1.0])
  {
    SingleCompleteRows(index, s, p);
    forall k | 0 <= k < |p| - 1
      ensures DailyReturnsFrame(Table(index, [s], [Lift(p)]))[k] ==
                Line(index[k + 1], [p[k + 1] / p[k] - 1.0])
    {
      SingleLine(index, s, p, k);
    }
  }

  /** `rolling(window=w).mean()` applied to every column. */
  function RollingMeanFrame(t: Table, w: nat): (r: Table)
    requires t.WellFormed() && w >= 1
    ensures r.WellFormed() && r.index == t.index && r.columns == t.columns
    ensures forall j :: 0 <= j < |t.cells| ==> r.cells[j] == RollingMean(t.cells[j], w)
  {
    Table(t.index, t.columns,
          seq(|t.cells|, j requires 0 <= j < |t.cells| => RollingMean(t.cells[j], w)))
  }
}
