/** Request validation and alignment: the requested symbols kept when they were loaded, the
    columns of `pd.DataFrame({symbol: data[symbol]['Adj_Close'] ...})` (one per distinct
    symbol, in first-occurrence order) and its index, the union pandas forms of the symbols'
    indexes: one index, or several equal ones, as they are, and the sorted union otherwise. */
module Align {
  import opened Wrappers
  import opened Dates
  import opened Records

  /** `[symbol for symbol in symbols if symbol in data]`: the loaded symbols, in request
      order, duplicates kept. */
  function ValidSymbols(symbols: seq<string>, known: set<string>): (v: seq<string>)
    ensures |v| <= |symbols|
    ensures forall x :: x in v <==> x in symbols && x in known
    decreases |symbols|
  {
    if |symbols| == 0 then []
    else
      var init := symbols[..|symbols| - 1];
      var last := symbols[|symbols| - 1];
      assert symbols == init + [last];
      ValidSymbols(init, known) + (if last in known then [last] else [])
  }

  /** The filter distributes over concatenation, so it keeps request order. */
  lemma {:induction false} ValidSymbolsAppend(a: seq<string>, b: seq<string>, known: set<string>)
    ensures ValidSymbols(a + b, known) == ValidSymbols(a, known) + ValidSymbols(b, known)
    decreases |b|
  {
    if |b| > 0 {
      var init := b[..|b| - 1];
      assert (a + b)[..|a + b| - 1] == a + init;
      assert (a + b)[|a + b| - 1] == b[|b| - 1];
      ValidSymbolsAppend(a, init, known);
    } else {
      assert a + b == a;
    }
  }

  /** A request of loaded symbols only is kept as it is. */
  lemma {:induction false} ValidSymbolsAllKnown(symbols: seq<string>, known: set<string>)
    requires forall x :: x in symbols ==> x in known
    ensures ValidSymbols(symbols, known) == symbols
    decreases |symbols|
  {
    if |symbols| > 0 {
      var init := symbols[..|symbols| - 1];
      assert symbols == init + [symbols[|symbols| - 1]];
      ValidSymbolsAllKnown(init, known);
    }
  }

  /** The position of the first occurrence of `x`. */
  function FirstIndex(s: seq<string>, x: string): (i: nat)
    requires x in s
    ensures i < |s| && s[i] == x
    ensures forall k :: 0 <= k < i ==> s[k] != x
  {
    FirstIndexFrom(s, x, 0)
  }

  /** The first position at or after `from` holding `x`. */
  function FirstIndexFrom(s: seq<string>, x: string, from: nat): (i: nat)
    requires from <= |s| && exists k :: from <= k < |s| && s[k] == x
    ensures from <= i < |s| && s[i] == x
    ensures forall k :: from <= k < i ==> s[k] != x
    decreases |s| - from
  {
    if s[from] == x then from else FirstIndexFrom(s, x, from + 1)
  }

  /** The first occurrence in a prefix is the first occurrence in the whole. */
  lemma FirstIndexPrefix(s: seq<string>, n: nat, x: string)
    requires n <= |s| && x in s[..n]
    ensures FirstIndex(s, x) == FirstIndex(s[..n], x)
  {
    var i := FirstIndex(s[..n], x);
    var j := FirstIndex(s, x);
    assert s[..n][i] == s[i];
  }

  /** The keys of a dict built from `symbols`: each symbol once, in the order of its first
      occurrence. */
  function Distinct(s: seq<string>): (d: seq<string>)
    ensures forall x :: x in d <==> x in s
    ensures forall i, j :: 0 <= i < j < |d| ==> d[i] != d[j]
    ensures forall i, j :: 0 <= i < j < |d| ==> FirstIndex(s, d[i]) < FirstIndex(s, d[j])
    decreases |s|
  {
    if |s| == 0 then []
    else
      var init := s[..|s| - 1];
      var last := s[|s| - 1];
      assert s == init + [last];
      var prev := Distinct(init);
      DistinctSnoc(init, last, prev);
      if last in init then prev else prev + [last]
  }

  /** One more symbol keeps the key list: unchanged when the symbol is already a key, and
      extended by it at the end otherwise. */
  lemma DistinctSnoc(init: seq<string>, last: string, prev: seq<string>)
    requires forall x :: x in prev <==> x in init
    requires forall i, j :: 0 <= i < j < |prev| ==> prev[i] != prev[j]
    requires forall i, j :: 0 <= i < j < |prev| ==> FirstIndex(init, prev[i]) < FirstIndex(init, prev[j])
    ensures var s, d := init + [last], if last in init then prev else prev + [last];
      (forall x :: x in d <==> x in s) &&
      (forall i, j :: 0 <= i < j < |d| ==> d[i] != d[j]) &&
      (forall i, j :: 0 <= i < j < |d| ==> FirstIndex(s, d[i]) < FirstIndex(s, d[j]))
  {
    var s := init + [last];
    assert s[..|init|] == init;
    forall x | x in prev ensures FirstIndex(s, x) == FirstIndex(init, x) < |init| {
      FirstIndexPrefix(s, |init|, x);
    }
    if last !in init {
      assert FirstIndex(s, last) == |init|;
      var d := prev + [last];
      forall i, j | 0 <= i < j < |d|
        ensures d[i] != d[j] && FirstIndex(s, d[i]) < FirstIndex(s, d[j])
      {
        assert d[i] == prev[i] && d[i] in prev;
        if j < |prev| {
          assert d[j] == prev[j];
        }
      }
    }
  }

  /** Without repeated symbols the columns are the request itself. */
  lemma {:induction false} DistinctOfDistinct(s: seq<string>)
    requires forall i, j :: 0 <= i < j < |s| ==> s[i] != s[j]
    ensures Distinct(s) == s
    decreases |s|
  {
    if |s| > 0 {
      var init := s[..|s| - 1];
      assert s == init + [s[|s| - 1]];
      DistinctOfDistinct(init);
      assert s[|s| - 1] !in init;
    }
  }

  /** Each timestamp comes before the next: an index without repeats, in time order. */
  predicate StrictlyIncreasing(ds: seq<DateTime>)
  {
    forall i, j :: 0 <= i < j < |ds| ==> Before(ds[i], ds[j])
  }

  /** `d` put into its place in a sorted index; nothing is repeated. */
  function Insert(ds: seq<DateTime>, d: DateTime): (r: seq<DateTime>)
    requires StrictlyIncreasing(ds)
    ensures StrictlyIncreasing(r)
    ensures forall x :: x in r <==> x in ds || x == d
    decreases |ds|
  {
    if |ds| == 0 then [d]
    else if d == ds[0] then ds
    else if Before(d, ds[0]) then
      assert forall j :: 0 <= j < |ds| ==> Before(d, ds[j]) by {
        forall j | 0 <= j < |ds| ensures Before(d, ds[j]) {
          BeforeStrictTotal(d, ds[0], ds[j]);
        }
      }
      [d] + ds
    else
      var rest := Insert(ds[1..], d);
      BeforeStrictTotal(d, ds[0], d);
      assert forall x :: x in rest ==> Before(ds[0], x) by {
        forall x | x in rest ensures Before(ds[0], x) {
          if x != d {
            var j :| 0 <= j < |ds[1..]| && ds[1..][j] == x;
            assert ds[j + 1] == x;
          }
        }
      }
      [ds[0]] + rest
  }

  /** The sorted union of the given timestamps. */
  function SortedUnion(ds: seq<DateTime>): (r: seq<DateTime>)
    ensures StrictlyIncreasing(r)
    ensures forall x :: x in r <==> x in ds
    decreases |ds|
  {
    if |ds| == 0 then []
    else
      var init := ds[..|ds| - 1];
      assert ds == init + [ds[|ds| - 1]];
      Insert(SortedUnion(init), ds[|ds| - 1])
  }

  /** A sorted index is determined by the timestamps it holds. */
  lemma {:induction false} SortedUnique(a: seq<DateTime>, b: seq<DateTime>)
    requires StrictlyIncreasing(a) && StrictlyIncreasing(b)
    requires forall x :: x in a <==> x in b
    ensures a == b
    decreases |a|
  {
    if |a| > 0 {
      assert a[0] in a;
    }
    if |b| > 0 {
      assert b[0] in b;
    }
    if |a| > 0 && |b| > 0 {
      assert a[0] in b;
      assert b[0] in a;
      var i :| 0 <= i < |b| && b[i] == a[0];
      var j :| 0 <= j < |a| && a[j] == b[0];
      if i > 0 {
        assert Before(b[0], a[0]);
        BeforeStrictTotal(b[0], a[0], b[0]);
      }
      assert a[0] == b[0];
      forall x ensures x in a[1..] <==> x in b[1..] {
        if x in a[1..] {
          var k :| 0 <= k < |a[1..]| && a[1..][k] == x;
          assert Before(a[0], a[k + 1]);
          BeforeStrictTotal(a[0], x, a[0]);
          assert a[k + 1] in a;
          var m :| 0 <= m < |b| && b[m] == x;
          assert m != 0;
          assert b[1..][m - 1] == x;
        }
        if x in b[1..] {
          var k :| 0 <= k < |b[1..]| && b[1..][k] == x;
          assert Before(b[0], b[k + 1]);
          BeforeStrictTotal(b[0], x, b[0]);
          assert b[k + 1] in b;
          var m :| 0 <= m < |a| && a[m] == x;
          assert m != 0;
          assert a[1..][m - 1] == x;
        }
      }
      SortedUnique(a[1..], b[1..]);
      assert a == [a[0]] + a[1..] && b == [b[0]] + b[1..];
    }
  }

  /** A sorted run of timestamps is its own sorted union. */
  lemma SortedUnionOfSorted(ds: seq<DateTime>)
    requires StrictlyIncreasing(ds)
    ensures SortedUnion(ds) == ds
  {
    SortedUnique(SortedUnion(ds), ds);
  }

  /** The timestamps of a frame's rows, in row order. */
  function DatesOf(rows: seq<Row<DateTime>>): (ds: seq<DateTime>)
    ensures |ds| == |rows|
    ensures forall i :: 0 <= i < |rows| ==> ds[i] == rows[i].date
  {
    seq(|rows|, i requires 0 <= i < |rows| => rows[i].date)
  }

  /** The value a column holds under timestamp `d`: the one of the first row with that date,
      missing when no row has it. */
  function ValueAt(ds: seq<DateTime>, vs: seq<Option<real>>, d: DateTime): (v: Option<real>)
    requires |ds| == |vs|
    ensures d !in ds ==> v == None
    ensures d in ds ==> exists i :: 0 <= i < |ds| && ds[i] == d && v == vs[i] &&
                          forall k :: 0 <= k < i ==> ds[k] != d
    decreases |ds|
  {
    if |ds| == 0 then None
    else if ds[0] == d then vs[0]
    else
      var v := ValueAt(ds[1..], vs[1..], d);
      assert d in ds[1..] ==> exists i :: 0 <= i < |ds| && ds[i] == d && v == vs[i] &&
                                forall k :: 0 <= k < i ==> ds[k] != d by {
        if d in ds[1..] {
          var i :| 0 <= i < |ds[1..]| && ds[1..][i] == d && v == vs[1..][i] &&
                   forall k :: 0 <= k < i ==> ds[1..][k] != d;
          assert forall k :: 1 <= k < i + 1 ==> ds[k] == ds[1..][k - 1];
        }
      }
      v
  }

  /** In a column whose dates do not repeat, each date finds its own row. */
  lemma ValueAtOwnDate(ds: seq<DateTime>, vs: seq<Option<real>>, i: nat)
    requires |ds| == |vs| && i < |ds| && StrictlyIncreasing(ds)
    ensures ValueAt(ds, vs, ds[i]) == vs[i]
  {
    var j :| 0 <= j < |ds| && ds[j] == ds[i] && ValueAt(ds, vs, ds[i]) == vs[j] &&
             forall k :: 0 <= k < j ==> ds[k] != ds[i];
    if j != i {
      BeforeStrictTotal(ds[i], ds[j], ds[i]);
    }
  }

  /** Every symbol has a loaded frame with a numeric Adj_Close column. */
  predicate Loadable(data: map<string, seq<Row<DateTime>>>, symbols: seq<string>)
  {
    forall s :: s in symbols ==> s in data && Numbers(data[s], AdjClose).Some?
  }

  /** `Index.union` of two timestamp indexes, as pandas forms a frame's index from its series:
      the left index when the right one is empty or equal to it, the right index when the left
      one is empty, and the sorted union of their dates otherwise. */
  function Union(a: seq<DateTime>, b: seq<DateTime>): (r: seq<DateTime>)
    ensures forall x :: x in r <==> x in a || x in b
    ensures StrictlyIncreasing(a) && StrictlyIncreasing(b) ==> StrictlyIncreasing(r)
    ensures a == b ==> r == a
    ensures a == [] ==> r == b
  {
    if |b| == 0 || a == b then a
    else if |a| == 0 then b
    else SortedUnion(a + b)
  }

  /** `union_indexes`: the indexes folded left to right by `Union`. A single index comes out
      as it is, and no index at all gives an empty one. */
  function UnionIndexes(ixs: seq<seq<DateTime>>): (r: seq<DateTime>)
    ensures forall x :: x in r <==> exists k :: 0 <= k < |ixs| && x in ixs[k]
    decreases |ixs|
  {
    if |ixs| == 0 then []
    else
      var init := ixs[..|ixs| - 1];
      var r := Union(UnionIndexes(init), ixs[|ixs| - 1]);
      assert forall x :: x in r <==> exists k :: 0 <= k < |ixs| && x in ixs[k] by {
        forall x ensures x in r <==> exists k :: 0 <= k < |ixs| && x in ixs[k] {
          if x in r && x !in ixs[|ixs| - 1] {
            var k :| 0 <= k < |init| && x in init[k];
            assert ixs[k] == init[k];
          }
          if exists k :: 0 <= k < |ixs| && x in ixs[k] {
            var k :| 0 <= k < |ixs| && x in ixs[k];
            if k < |init| {
              assert init[k] == ixs[k];
            }
          }
        }
      }
      r
  }

  /** Indexes that are all one list give that list back, in its order and with its repeats. */
  lemma {:induction false} UnionIndexesCommon(ixs: seq<seq<DateTime>>, c: seq<DateTime>)
    requires |ixs| > 0 && forall k :: 0 <= k < |ixs| ==> ixs[k] == c
    ensures UnionIndexes(ixs) == c
    decreases |ixs|
  {
    if |ixs| > 1 {
      UnionIndexesCommon(ixs[..|ixs| - 1], c);
    } else {
      assert UnionIndexes(ixs[..0]) == [];
    }
  }

  /** Indexes that each increase strictly give a strictly increasing union. */
  lemma {:induction false} UnionIndexesSorted(ixs: seq<seq<DateTime>>)
    requires forall k :: 0 <= k < |ixs| ==> StrictlyIncreasing(ixs[k])
    ensures StrictlyIncreasing(UnionIndexes(ixs))
    decreases |ixs|
  {
    if |ixs| > 0 {
      UnionIndexesSorted(ixs[..|ixs| - 1]);
    }
  }

  /** The date lists of the given symbols' frames, one per symbol. */
  function DateLists(data: map<string, seq<Row<DateTime>>>, symbols: seq<string>): (ixs: seq<seq<DateTime>>)
    requires forall s :: s in symbols ==> s in data
    ensures |ixs| == |symbols|
    ensures forall j :: 0 <= j < |symbols| ==> ixs[j] == DatesOf(data[symbols[j]])
  {
    seq(|symbols|, j requires 0 <= j < |symbols| => DatesOf(data[symbols[j]]))
  }

  /** A frame of aligned columns: `cells[j]` is column `columns[j]`, one cell per index entry. */
  datatype Table = Table(index: seq<DateTime>, columns: seq<string>, cells: seq<seq<Option<real>>>)
  {
    predicate WellFormed()
    {
      |cells| == |columns| && forall j :: 0 <= j < |cells| ==> |cells[j]| == |index|
    }
  }

  /** One symbol's Adj_Close column placed on the index: kept as it is when its own dates are
      the index, and reindexed otherwise, missing where it has no row. */
  function AlignColumn(rows: seq<Row<DateTime>>, index: seq<DateTime>): (col: seq<Option<real>>)
    requires Numbers(rows, AdjClose).Some?
    ensures |col| == |index|
    ensures DatesOf(rows) == index ==> col == Numbers(rows, AdjClose).value
    ensures DatesOf(rows) != index ==> forall i :: 0 <= i < |index| ==>
              col[i] == ValueAt(DatesOf(rows), Numbers(rows, AdjClose).value, index[i])
  {
    var vs := Numbers(rows, AdjClose).value;
    if DatesOf(rows) == index then vs
    else seq(|index|, i requires 0 <= i < |index| => ValueAt(DatesOf(rows), vs, index[i]))
  }

  /** Placing a column whose dates increase strictly is looking each index date up in it. */
  lemma AlignIncreasing(rows: seq<Row<DateTime>>, index: seq<DateTime>, i: nat)
    requires Numbers(rows, AdjClose).Some? && StrictlyIncreasing(DatesOf(rows)) && i < |index|
    ensures AlignColumn(rows, index)[i] ==
              ValueAt(DatesOf(rows), Numbers(rows, AdjClose).value, index[i])
  {
    if DatesOf(rows) == index {
      ValueAtOwnDate(DatesOf(rows), Numbers(rows, AdjClose).value, i);
    }
  }

  /** The index of a frame built from the given symbols' columns: the union of their indexes. */
  function FrameIndex(data: map<string, seq<Row<DateTime>>>, columns: seq<string>): (index: seq<DateTime>)
    requires forall s :: s in columns ==> s in data
    ensures forall d :: d in index <==> exists j :: 0 <= j < |columns| && d in DatesOf(data[columns[j]])
    ensures (forall j :: 0 <= j < |columns| ==> StrictlyIncreasing(DatesOf(data[columns[j]]))) ==>
              StrictlyIncreasing(index)
  {
    var ixs := DateLists(data, columns);
    var index := UnionIndexes(ixs);
    assert forall d :: d in index ==> exists j :: 0 <= j < |columns| && d in DatesOf(data[columns[j]]) by {
      forall d | d in index ensures exists j :: 0 <= j < |columns| && d in DatesOf(data[columns[j]]) {
        var j :| 0 <= j < |ixs| && d in ixs[j];
        assert d in DatesOf(data[columns[j]]);
      }
    }
    assert (forall j :: 0 <= j < |columns| ==> StrictlyIncreasing(DatesOf(data[columns[j]]))) ==>
             StrictlyIncreasing(index) by {
      if forall j :: 0 <= j < |columns| ==> StrictlyIncreasing(DatesOf(data[columns[j]])) {
        UnionIndexesSorted(ixs);
      }
    }
    index
  }

  /** `t` holds loaded Adj_Close columns aligned on one index: the index holds exactly the
      columns' dates and increases when each column's dates do; a column whose own dates are the
      index holds its prices as they are, any other the price of its first row at each index
      date, missing where it has no row. */
  ghost predicate Aligned(data: map<string, seq<Row<DateTime>>>, t: Table)
  {
    t.WellFormed() &&
    (forall s :: s in t.columns ==> s in data && Numbers(data[s], AdjClose).Some?) &&
    (forall d :: d in t.index <==>
       exists j :: 0 <= j < |t.columns| && d in DatesOf(data[t.columns[j]])) &&
    ((forall j :: 0 <= j < |t.columns| ==> StrictlyIncreasing(DatesOf(data[t.columns[j]]))) ==>
       StrictlyIncreasing(t.index)) &&
    (forall j :: 0 <= j < |t.columns| && DatesOf(data[t.columns[j]]) == t.index ==>
       t.cells[j] == Numbers(data[t.columns[j]], AdjClose).value) &&
    (forall j, i :: 0 <= j < |t.columns| && DatesOf(data[t.columns[j]]) != t.index &&
                    0 <= i < |t.index| ==>
       t.cells[j][i] ==
         ValueAt(DatesOf(data[t.columns[j]]), Numbers(data[t.columns[j]], AdjClose).value, t.index[i]))
  }

  /** `pd.DataFrame({symbol: data[symbol]['Adj_Close'] for symbol in valid_symbols})`: one column
      per distinct symbol in first-occurrence order, aligned on the union of their indexes. */
  function AdjCloseFrame(data: map<string, seq<Row<DateTime>>>, symbols: seq<string>): (t: Table)
    requires Loadable(data, symbols)
    ensures t.columns == Distinct(symbols)
    ensures Aligned(data, t)
  {
    var columns := Distinct(symbols);
    var index := FrameIndex(data, columns);
    var cells := seq(|columns|, j requires 0 <= j < |columns| => AlignColumn(data[columns[j]], index));
    assert forall j :: 0 <= j < |columns| ==> cells[j] == AlignColumn(data[columns[j]], index);
    Table(index, columns, cells)
  }

  /** Symbols whose frames all carry one date list have it as their index, in file order and with
      its repeats, and keep their prices as they are. */
  lemma AdjCloseFrameCommon(data: map<string, seq<Row<DateTime>>>, symbols: seq<string>, c: seq<DateTime>)
    requires Loadable(data, symbols) && |symbols| > 0
    requires forall s :: s in symbols ==> DatesOf(data[s]) == c
    ensures AdjCloseFrame(data, symbols).index == c
    ensures forall j :: 0 <= j < |AdjCloseFrame(data, symbols).columns| ==>
              AdjCloseFrame(data, symbols).cells[j] ==
                Numbers(data[AdjCloseFrame(data, symbols).columns[j]], AdjClose).value
  {
    var columns := Distinct(symbols);
    assert symbols[0] in columns;
    UnionIndexesCommon(DateLists(data, columns), c);
  }

  /** The timestamps of all the given symbols' rows, symbol after symbol. */
  function AllDates(data: map<string, seq<Row<DateTime>>>, symbols: seq<string>): (ds: seq<DateTime>)
    requires forall s :: s in symbols ==> s in data
    ensures forall d :: d in ds <==> exists j :: 0 <= j < |symbols| && d in DatesOf(data[symbols[j]])
    decreases |symbols|
  {
    if |symbols| == 0 then []
    else
      var init := symbols[..|symbols| - 1];
      var last := symbols[|symbols| - 1];
      assert forall j :: 0 <= j < |init| ==> init[j] == symbols[j];
      AllDates(data, init) + DatesOf(data[last])
  }

  /** Symbols whose dates each increase strictly: the index is the sorted union of all their
      dates, and each cell the symbol's price at that date, missing where it has none. */
  lemma AdjCloseFrameSorted(data: map<string, seq<Row<DateTime>>>, symbols: seq<string>)
    requires Loadable(data, symbols)
    requires forall s :: s in symbols ==> StrictlyIncreasing(DatesOf(data[s]))
    ensures var t := AdjCloseFrame(data, symbols);
      t.index == SortedUnion(AllDates(data, t.columns)) &&
      forall j, i :: 0 <= j < |t.columns| && 0 <= i < |t.index| ==>
        t.cells[j][i] ==
          ValueAt(DatesOf(data[t.columns[j]]), Numbers(data[t.columns[j]], AdjClose).value, t.index[i])
  {
    var t := AdjCloseFrame(data, symbols);
    assert forall j :: 0 <= j < |t.columns| ==> t.columns[j] in symbols;
    SortedUnique(t.index, SortedUnion(AllDates(data, t.columns)));
    forall j, i | 0 <= j < |t.columns| && 0 <= i < |t.index|
      ensures t.cells[j][i] ==
                ValueAt(DatesOf(data[t.columns[j]]), Numbers(data[t.columns[j]], AdjClose).value, t.index[i])
    {
      var ds := DatesOf(data[t.columns[j]]);
      if ds == t.index {
        ValueAtOwnDate(ds, Numbers(data[t.columns[j]], AdjClose).value, i);
      }
    }
  }

  /** A single symbol is its own frame: its dates, in file order, are the index and its prices
      the only column. */
  lemma AdjCloseFrameSingle(data: map<string, seq<Row<DateTime>>>, s: string)
    requires Loadable(data, [s])
    ensures AdjCloseFrame(data, [s]) ==
              Table(DatesOf(data[s]), [s], [Numbers(data[s], AdjClose).value])
  {
    var t := AdjCloseFrame(data, [s]);
    DistinctOfDistinct([s]);
    AdjCloseFrameCommon(data, [s], DatesOf(data[s]));
    assert t.cells == [Numbers(data[s], AdjClose).value];
  }
}
