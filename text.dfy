/** The string operations the source relies on: substring search (Python's `in` and
    `str.contains`, JavaScript's `includes`), splitting at a separator, ASCII case
    mapping and whitespace trimming. */
module Text {

  /** `sub` occurs in `s` starting at index `i`. */
  predicate OccursAt(s: string, sub: string, i: nat)
  {
    i + |sub| <= |s| && forall j :: 0 <= j < |sub| ==> s[i + j] == sub[j]
  }

  /** A text set between a prefix and a suffix is the slice right after the prefix. */
  lemma Framed(p: string, a: string, q: string)
    ensures |p + a + q| == |p| + |a| + |q| && (p + a + q)[|p|..|p| + |a|] == a
  {
    var t := p + a + q;
    assert t == (p + a) + q;
    assert (p + a)[|p|..] == a;
  }

  /** The framed text determines what was set in the frame. */
  lemma FramedInjective(p: string, a: string, b: string, q: string)
    requires p + a + q == p + b + q
    ensures a == b
  {
    Framed(p, a, q);
    Framed(p, b, q);
  }

  /** Substring search, computed by trying every start position in turn. */
  function Contains(s: string, sub: string): (b: bool)
    ensures b <==> exists i: nat :: OccursAt(s, sub, i)
    decreases |s|
  {
    if |sub| > |s| then
      false
    else if OccursAt(s, sub, 0) then
      true
    else
      var rest := Contains(s[1..], sub);
      assert (exists i: nat :: OccursAt(s, sub, i)) ==> exists j: nat :: OccursAt(s[1..], sub, j) by {
        if exists i: nat :: OccursAt(s, sub, i) {
          var i: nat :| OccursAt(s, sub, i);
          assert i != 0;
          assert OccursAt(s[1..], sub, i - 1);
        }
      }
      assert (exists j: nat :: OccursAt(s[1..], sub, j)) ==> exists i: nat :: OccursAt(s, sub, i) by {
        if exists j: nat :: OccursAt(s[1..], sub, j) {
          var j: nat :| OccursAt(s[1..], sub, j);
          assert OccursAt(s, sub, j + 1);
        }
      }
      rest
  }

  /** The empty string occurs in every string. */
  lemma ContainsEmpty(s: string)
    ensures Contains(s, "")
  {
    assert OccursAt(s, "", 0);
  }

  /** The index of the first `c` in `s` at or after `from`, or `|s|` when there is none. */
  function IndexFrom(s: string, c: char, from: nat): (r: nat)
    requires from <= |s|
    ensures from <= r <= |s|
    ensures forall k :: from <= k < r ==> s[k] != c
    ensures r < |s| ==> s[r] == c
    decreases |s| - from
  {
    if from == |s| then |s|
    else if s[from] == c then from
    else IndexFrom(s, c, from + 1)
  }

  /** The index of the first `c` in `s`, or `|s|` when there is none. */
  function IndexOf(s: string, c: char): (r: nat)
    ensures r <= |s|
    ensures forall k :: 0 <= k < r ==> s[k] != c
    ensures r < |s| ==> s[r] == c
  {
    IndexFrom(s, c, 0)
  }

  /** Python's `s.split(str(c))[0]`: the text before the first `c`, or all of `s`. */
  function BeforeFirst(s: string, c: char): (r: string)
    ensures c !in r
    ensures |r| <= |s| && r == s[..|r|]
    ensures |r| < |s| <==> c in s
    ensures |r| < |s| ==> s[|r|] == c
  {
    s[..IndexOf(s, c)]
  }

  /** Text without `c`, then `c`, then anything: the text before the first `c` is the first
      part. */
  lemma BeforeFirstSeparator(a: string, c: char, b: string)
    requires c !in a
    ensures BeforeFirst(a + [c] + b, c) == a
  {
    var t := a + [c] + b;
    assert t[|a|] == c;
    assert forall k :: 0 <= k < |a| ==> t[k] == a[k];
    assert t[..|a|] == a;
  }

  /** Python's `s.split(str(sep))`: the pieces between separators, always at least one. */
  function Split(s: string, sep: char): (parts: seq<string>)
    ensures |parts| >= 1
    ensures forall k :: 0 <= k < |parts| ==> sep !in parts[k]
    decreases |s|
  {
    var i := IndexOf(s, sep);
    if i == |s| then [s] else [s[..i]] + Split(s[i + 1..], sep)
  }

  /** Python's `str(sep).join(parts)`, the inverse of `Split`. */
  function Join(parts: seq<string>, sep: char): string
    requires |parts| >= 1
  {
    if |parts| == 1 then parts[0] else parts[0] + [sep] + Join(parts[1..], sep)
  }

  /** Joining a first piece onto further pieces puts one separator between them. */
  lemma JoinCons(first: string, rest: seq<string>, sep: char)
    requires |rest| >= 1
    ensures Join([first] + rest, sep) == first + [sep] + Join(rest, sep)
  {
    assert ([first] + rest)[1..] == rest;
  }

  /** A text is the part before a position, the character there and the part after it. */
  lemma Reassemble(s: string, i: nat)
    requires i < |s|
    ensures s == s[..i] + [s[i]] + s[i + 1..]
  {
  }

  /** Splitting loses nothing: joining the pieces back gives the original text. */
  lemma {:induction false} JoinSplit(s: string, sep: char)
    ensures Join(Split(s, sep), sep) == s
    decreases |s|
  {
    var i := IndexOf(s, sep);
    if i < |s| {
      var rest := s[i + 1..];
      JoinSplit(rest, sep);
      JoinCons(s[..i], Split(rest, sep), sep);
      Reassemble(s, i);
    }
  }

  /** Splitting text without a separator gives that text alone; in particular `"".split(",")`
      is `[""]`. */
  lemma SplitWithoutSeparator(s: string, sep: char)
    requires sep !in s
    ensures Split(s, sep) == [s]
  {
  }

  /** ASCII lower-casing of one character. */
  function LowerChar(c: char): char
  {
    if 'A' <= c <= 'Z' then (c as int - 'A' as int + 'a' as int) as char else c
  }

  /** ASCII upper-casing of one character. */
  function UpperChar(c: char): char
  {
    if 'a' <= c <= 'z' then (c as int - 'a' as int + 'A' as int) as char else c
  }

  /** JavaScript's `toLowerCase` on ASCII text. */
  function ToLower(s: string): (r: string)
    ensures |r| == |s|
    ensures forall k :: 0 <= k < |s| ==> r[k] == LowerChar(s[k])
  {
    seq(|s|, k requires 0 <= k < |s| => LowerChar(s[k]))
  }

  /** Python's `str.upper` on ASCII text. */
  function ToUpper(s: string): (r: string)
    ensures |r| == |s|
    ensures forall k :: 0 <= k < |s| ==> r[k] == UpperChar(s[k])
  {
    seq(|s|, k requires 0 <= k < |s| => UpperChar(s[k]))
  }

  /** Lower-casing is idempotent, so comparing lower-cased texts ignores case. */
  lemma ToLowerIdempotent(s: string)
    ensures ToLower(ToLower(s)) == ToLower(s)
  {
  }

  /** The whitespace that JavaScript's `trim` removes, restricted to the characters this
      model knows: ASCII space, tab, line feed, vertical tab, form feed, carriage return,
      no-break space and the byte-order mark. */
  predicate IsWhitespace(c: char)
  {
    c == ' ' || c == '\t' || c == '\n' || c == '\U{000B}' || c == '\U{000C}' || c == '\r'
    || c == '\U{00A0}' || c == '\U{FEFF}'
  }

  /** The end of the run of whitespace that starts at `from`. */
  function WhitespaceRunFrom(s: string, from: nat): (n: nat)
    requires from <= |s|
    ensures from <= n <= |s|
    ensures forall k :: from <= k < n ==> IsWhitespace(s[k])
    ensures n < |s| ==> !IsWhitespace(s[n])
    decreases |s| - from
  {
    if from < |s| && IsWhitespace(s[from]) then WhitespaceRunFrom(s, from + 1) else from
  }

  /** The start of the run of whitespace that ends just before `to`. */
  function WhitespaceRunTo(s: string, to: nat): (n: nat)
    requires to <= |s|
    ensures n <= to
    ensures forall k :: n <= k < to ==> IsWhitespace(s[k])
    ensures n > 0 ==> !IsWhitespace(s[n - 1])
  {
    if to > 0 && IsWhitespace(s[to - 1]) then WhitespaceRunTo(s, to - 1) else to
  }

  /** Drops leading whitespace. */
  function TrimStart(s: string): (r: string)
    ensures |r| <= |s| && r == s[|s| - |r|..]
    ensures forall k :: 0 <= k < |s| - |r| ==> IsWhitespace(s[k])
    ensures r != [] ==> !IsWhitespace(r[0])
  {
    s[WhitespaceRunFrom(s, 0)..]
  }

  /** Drops trailing whitespace. */
  function TrimEnd(s: string): (r: string)
    ensures |r| <= |s| && r == s[..|r|]
    ensures forall k :: |r| <= k < |s| ==> IsWhitespace(s[k])
    ensures r != [] ==> !IsWhitespace(r[|r| - 1])
  {
    s[..WhitespaceRunTo(s, |s|)]
  }

  /** JavaScript's `String.prototype.trim`. */
  function Trim(s: string): string
  {
    TrimEnd(TrimStart(s))
  }

  /** Trimming leaves nothing exactly when the text is all whitespace (or empty). */
  lemma TrimEmptyIff(s: string)
    ensures Trim(s) == "" <==> forall k :: 0 <= k < |s| ==> IsWhitespace(s[k])
  {
    var t := TrimStart(s);
    if forall k :: 0 <= k < |s| ==> IsWhitespace(s[k]) {
      assert t == [];
    } else {
      var k :| 0 <= k < |s| && !IsWhitespace(s[k]);
      assert |s| - |t| <= k;
      assert t[k - (|s| - |t|)] == s[k];
      var r := TrimEnd(t);
      assert r != [];
    }
  }
}
