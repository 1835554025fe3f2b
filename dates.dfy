/** Timestamps as the loaders use them: the date text is cut at its first "." and must then
    match `%Y-%m-%d %H:%M:%S`, whose year takes four digits and whose other fields take one or
    two; `strftime('%Y-%m-%d')` formats the calendar date. */
module Dates {
  import opened Wrappers
  import Text
  import opened Numeric

  /** A pandas Timestamp at whole-second resolution. */
  datatype DateTime = DateTime(year: nat, month: nat, day: nat, hour: nat, minute: nat, second: nat)

  predicate IsLeapYear(y: nat)
  {
    y % 4 == 0 && (y % 100 != 0 || y % 400 == 0)
  }

  function DaysInMonth(y: nat, m: nat): nat
  {
    if m == 2 then (if IsLeapYear(y) then 29 else 28)
    else if m == 4 || m == 6 || m == 9 || m == 11 then 30
    else 31
  }

  /** A real calendar date and time of day, with a four-digit year. */
  predicate Valid(d: DateTime)
  {
    && 1 <= d.year <= 9999
    && 1 <= d.month <= 12
    && 1 <= d.day <= DaysInMonth(d.year, d.month)
    && d.hour < 24 && d.minute < 60 && d.second < 60
  }

  /** How many digits a text spends on month, day, hour, minute and second. */
  datatype Widths = Widths(month: nat, day: nat, hour: nat, minute: nat, second: nat)

  /** The widths `strftime` writes: every field zero-padded to two digits. */
  const TwoDigits := Widths(2, 2, 2, 2, 2)

  predicate ShortWidth(n: nat)
  {
    n == 1 || n == 2
  }

  predicate ShortWidths(w: Widths)
  {
    ShortWidth(w.month) && ShortWidth(w.day) && ShortWidth(w.hour) && ShortWidth(w.minute) && ShortWidth(w.second)
  }

  /** The numbers one or two digits can write. */
  function Limit(n: nat): nat
  {
    if n == 1 then 10 else 100
  }

  /** `s` holds a field of `n` digits, one or two, at `i`. */
  predicate ShortDigits(s: string, i: nat, n: nat)
  {
    ShortWidth(n) && i + n <= |s| && IsDigit(s[i]) && (n == 2 ==> IsDigit(s[i + 1]))
  }

  /** The value of that field. */
  function ShortValue(s: string, i: nat, n: nat): (v: nat)
    requires ShortDigits(s, i, n)
    ensures v < Limit(n)
  {
    if n == 1 then DigitValue(s[i]) else 10 * DigitValue(s[i]) + DigitValue(s[i + 1])
  }

  /** `v` written with `n` digits, zero-padded on the left as `%m`, `%d`, `%H`, `%M` and
      `%S` write it when `n` is two. */
  function Written(v: nat, n: nat): (r: string)
    requires ShortWidth(n) && v < Limit(n)
    ensures |r| == n && AllDigits(r) && ShortDigits(r, 0, n) && ShortValue(r, 0, n) == v
  {
    if n == 1 then [DigitChar(v)] else [DigitChar(v / 10), DigitChar(v % 10)]
  }

  /** Where each field starts in `YYYY-M-D H:M:S` written with widths `w`: the month at 5,
      each later field one separator after the end of the one before. */
  function DayAt(w: Widths): nat { 5 + w.month + 1 }
  function HourAt(w: Widths): nat { DayAt(w) + w.day + 1 }
  function MinuteAt(w: Widths): nat { HourAt(w) + w.hour + 1 }
  function SecondAt(w: Widths): nat { MinuteAt(w) + w.minute + 1 }
  function EndAt(w: Widths): nat { SecondAt(w) + w.second }

  /** `s` has the shape of `%Y-%m-%d %H:%M:%S` with widths `w`: four year digits, then five
      fields of one or two digits, with "-", "-", " ", ":" and ":" between them. */
  predicate LaidOut(s: string, w: Widths)
  {
    && ShortWidths(w) && |s| == EndAt(w)
    && AllDigits(s[..4]) && s[4] == '-'
    && ShortDigits(s, 5, w.month) && s[DayAt(w) - 1] == '-'
    && ShortDigits(s, DayAt(w), w.day) && s[HourAt(w) - 1] == ' '
    && ShortDigits(s, HourAt(w), w.hour) && s[MinuteAt(w) - 1] == ':'
    && ShortDigits(s, MinuteAt(w), w.minute) && s[SecondAt(w) - 1] == ':'
    && ShortDigits(s, SecondAt(w), w.second)
  }

  /** The width of the field of one or two digits at `from` that `sep` ends, or 0 when there
      is none. */
  function FieldWidth(s: string, from: nat, sep: char): (n: nat)
    ensures n == 0 || ShortWidth(n)
    ensures n > 0 ==> from + n < |s| && ShortDigits(s, from, n) && s[from + n] == sep
  {
    if from + 1 < |s| && IsDigit(s[from]) && s[from + 1] == sep then 1
    else if from + 2 < |s| && IsDigit(s[from]) && IsDigit(s[from + 1]) && s[from + 2] == sep then 2
    else 0
  }

  /** The width of the closing field of one or two digits at `from`, or 0. */
  function LastWidth(s: string, from: nat): (n: nat)
    ensures n == 0 || ShortWidth(n)
    ensures n > 0 ==> from + n == |s| && ShortDigits(s, from, n)
  {
    if from < |s| && ShortDigits(s, from, |s| - from) then |s| - from else 0
  }

  /** Reads the shape of the format from left to right, the way its pattern matches: four
      year digits and a "-", then each field up to the separator that ends it. */
  function Scan(s: string): (r: Option<Widths>)
    ensures r.Some? ==> LaidOut(s, r.value)
  {
    if |s| < 5 || !AllDigits(s[..4]) || s[4] != '-' then None
    else
      var mo := FieldWidth(s, 5, '-');
      var da := if mo == 0 then 0 else FieldWidth(s, 6 + mo, ' ');
      var h := if da == 0 then 0 else FieldWidth(s, 7 + mo + da, ':');
      var mi := if h == 0 then 0 else FieldWidth(s, 8 + mo + da + h, ':');
      var se := if mi == 0 then 0 else LastWidth(s, 9 + mo + da + h + mi);
      if se == 0 then None else Some(Widths(mo, da, h, mi, se))
  }

  /** A field ended by a non-digit separator is read at its own width. */
  lemma FieldWidthOf(s: string, from: nat, n: nat, sep: char)
    requires ShortDigits(s, from, n) && from + n < |s| && s[from + n] == sep && !IsDigit(sep)
    ensures FieldWidth(s, from, sep) == n
  {
  }

  /** The layout fixes its widths: the scanner finds exactly the widths a text is laid out
      with. */
  lemma ScanFinds(s: string, w: Widths)
    requires LaidOut(s, w)
    ensures Scan(s) == Some(w)
  {
    FieldWidthOf(s, 5, w.month, '-');
    FieldWidthOf(s, DayAt(w), w.day, ' ');
    FieldWidthOf(s, HourAt(w), w.hour, ':');
    FieldWidthOf(s, MinuteAt(w), w.minute, ':');
  }

  predicate HasLayout(s: string)
  {
    Scan(s).Some?
  }

  /** The widths with which a text of that shape writes its fields. */
  function WidthsOf(s: string): Widths
    requires HasLayout(s)
  {
    Scan(s).value
  }

  /** The six numbers written in a text laid out with widths `w`. */
  function Fields(s: string, w: Widths): DateTime
    requires LaidOut(s, w)
  {
    DateTime(DigitsValue(s[..4]), ShortValue(s, 5, w.month), ShortValue(s, DayAt(w), w.day),
             ShortValue(s, HourAt(w), w.hour), ShortValue(s, MinuteAt(w), w.minute),
             ShortValue(s, SecondAt(w), w.second))
  }

  /** `d` can be written with widths `w`: each field width is one or two and every number
      fits in its width. */
  predicate Fits(d: DateTime, w: Widths)
  {
    && ShortWidths(w)
    && d.year < Pow10(4) && d.month < Limit(w.month) && d.day < Limit(w.day)
    && d.hour < Limit(w.hour) && d.minute < Limit(w.minute) && d.second < Limit(w.second)
  }

  /** Every valid timestamp can be written with two digits per field. */
  lemma ValidFitsTwoDigits(d: DateTime)
    requires Valid(d)
    ensures Fits(d, TwoDigits)
  {
  }

  /** `d` written in the layout `%Y-%m-%d %H:%M:%S` with widths `w`. */
  function Spelled(d: DateTime, w: Widths): string
    requires Fits(d, w)
  {
    Padded(d.year, 4) + "-" + (Written(d.month, w.month) + "-" + (Written(d.day, w.day) + " " +
    (Written(d.hour, w.hour) + ":" + (Written(d.minute, w.minute) + ":" + Written(d.second, w.second)))))
  }

  /** `strftime('%Y-%m-%d %H:%M:%S')`. */
  function FormatDateTime(d: DateTime): (s: string)
    requires Valid(d)
    ensures |s| == 19
  {
    ValidFitsTwoDigits(d);
    Spelled(d, TwoDigits)
  }

  /** `strftime('%Y-%m-%d')`: the calendar date without the time of day. */
  function FormatDate(d: DateTime): (s: string)
    requires Valid(d)
    ensures |s| == 10
    ensures s == FormatDateTime(d)[..10]
  {
    var s := Padded(d.year, 4) + "-" + (Written(d.month, 2) + "-" + Written(d.day, 2));
    assert FormatDateTime(d) == s + (" " + FormatDateTime(d)[11..]);
    s
  }

  /** Reading a field and its separator off a suffix `a + [c] + b` of `s`, where the
      separator sits at `j`. */
  lemma Step(s: string, i: nat, j: nat, k: nat, a: string, c: char, b: string)
    requires i <= |s| && s[i..] == a + [c] + b && j == i + |a| && k == j + 1
    ensures j < |s| && s[i..j] == a && s[j] == c && s[k..] == b
    ensures ShortDigits(a, 0, |a|) ==> ShortDigits(s, i, |a|) && ShortValue(s, i, |a|) == ShortValue(a, 0, |a|)
  {
    assert s[i..][..|a|] == a;
    assert s[i..][|a| + 1..] == b;
    if |a| > 0 {
      assert s[i] == a[0];
    }
    if |a| > 1 {
      assert s[i + 1] == a[1];
    }
  }

  /** The closing field of a laid-out text. */
  lemma Tail(s: string, i: nat, a: string)
    requires i <= |s| && s[i..] == a && ShortDigits(a, 0, |a|)
    ensures |s| == i + |a| && ShortDigits(s, i, |a|) && ShortValue(s, i, |a|) == ShortValue(a, 0, |a|)
  {
    assert s[i] == a[0];
    if |a| > 1 {
      assert s[i + 1] == a[1];
    }
  }

  /** The date half of `Joined`: year, month and day with their separators. */
  lemma JoinedDate(s: string, w: Widths, y: string, mo: string, da: string, rest: string)
    requires |y| == 4 && AllDigits(y) && |mo| == w.month && |da| == w.day
    requires ShortDigits(mo, 0, w.month) && ShortDigits(da, 0, w.day)
    requires s == y + "-" + (mo + "-" + (da + " " + rest))
    ensures HourAt(w) <= |s| && s[HourAt(w)..] == rest
    ensures s[..4] == y && s[4] == '-' && s[DayAt(w) - 1] == '-' && s[HourAt(w) - 1] == ' '
    ensures ShortDigits(s, 5, w.month) && ShortValue(s, 5, w.month) == ShortValue(mo, 0, w.month)
    ensures ShortDigits(s, DayAt(w), w.day) && ShortValue(s, DayAt(w), w.day) == ShortValue(da, 0, w.day)
  {
    var r2 := da + " " + rest;
    var r1 := mo + "-" + r2;
    Step(s, 0, 4, 5, y, '-', r1);
    Step(s, 5, DayAt(w) - 1, DayAt(w), mo, '-', r2);
    Step(s, DayAt(w), HourAt(w) - 1, HourAt(w), da, ' ', rest);
    assert s[..4] == y;
  }

  /** The time half of `Joined`: hour, minute and second with their separators, from
      position `i` on. */
  lemma JoinedTime(s: string, i: nat, w: Widths, h: string, mi: string, se: string)
    requires |h| == w.hour && |mi| == w.minute && |se| == w.second && i == HourAt(w)
    requires ShortDigits(h, 0, w.hour) && ShortDigits(mi, 0, w.minute) && ShortDigits(se, 0, w.second)
    requires i <= |s| && s[i..] == h + ":" + (mi + ":" + se)
    ensures |s| == EndAt(w) && s[MinuteAt(w) - 1] == ':' && s[SecondAt(w) - 1] == ':'
    ensures ShortDigits(s, HourAt(w), w.hour) && ShortValue(s, HourAt(w), w.hour) == ShortValue(h, 0, w.hour)
    ensures ShortDigits(s, MinuteAt(w), w.minute) && ShortValue(s, MinuteAt(w), w.minute) == ShortValue(mi, 0, w.minute)
    ensures ShortDigits(s, SecondAt(w), w.second) && ShortValue(s, SecondAt(w), w.second) == ShortValue(se, 0, w.second)
  {
    var r4 := mi + ":" + se;
    Step(s, i, MinuteAt(w) - 1, MinuteAt(w), h, ':', r4);
    Step(s, MinuteAt(w), SecondAt(w) - 1, SecondAt(w), mi, ':', se);
    Tail(s, SecondAt(w), se);
  }

  /** Four year digits and five short fields of the lengths `w` gives, joined by the
      separators of the layout, are laid out with `w` and read back as their values. */
  lemma Joined(s: string, w: Widths, y: string, mo: string, da: string, h: string, mi: string, se: string)
    requires ShortWidths(w) && |y| == 4 && AllDigits(y)
    requires |mo| == w.month && |da| == w.day && |h| == w.hour && |mi| == w.minute && |se| == w.second
    requires ShortDigits(mo, 0, w.month) && ShortDigits(da, 0, w.day) && ShortDigits(h, 0, w.hour)
    requires ShortDigits(mi, 0, w.minute) && ShortDigits(se, 0, w.second)
    requires s == y + "-" + (mo + "-" + (da + " " + (h + ":" + (mi + ":" + se))))
    ensures LaidOut(s, w)
    ensures Fields(s, w) == DateTime(DigitsValue(y), ShortValue(mo, 0, w.month), ShortValue(da, 0, w.day),
                                     ShortValue(h, 0, w.hour), ShortValue(mi, 0, w.minute),
                                     ShortValue(se, 0, w.second))
  {
    var rest := h + ":" + (mi + ":" + se);
    JoinedDate(s, w, y, mo, da, rest);
    JoinedTime(s, HourAt(w), w, h, mi, se);
  }

  /** A spelling is laid out with the widths it was written at and reads back as the
      timestamp it spells. */
  lemma SpelledLaidOut(d: DateTime, w: Widths)
    requires Fits(d, w)
    ensures LaidOut(Spelled(d, w), w) && Fields(Spelled(d, w), w) == d
  {
    Joined(Spelled(d, w), w, Padded(d.year, 4), Written(d.month, w.month), Written(d.day, w.day),
           Written(d.hour, w.hour), Written(d.minute, w.minute), Written(d.second, w.second));
  }

  /** Writing the value of a short field at its own width gives the field back. */
  lemma WrittenValue(s: string, i: nat, j: nat, n: nat)
    requires ShortDigits(s, i, n) && j == i + n
    ensures Written(ShortValue(s, i, n), n) == s[i..j]
  {
    var v := ShortValue(s, i, n);
    if n == 1 {
      assert DigitChar(v) == s[i];
    } else {
      assert v / 10 == DigitValue(s[i]) && v % 10 == DigitValue(s[i + 1]);
      assert DigitChar(v / 10) == s[i] && DigitChar(v % 10) == s[i + 1];
    }
  }

  /** The closing field written at its own width is the rest of the text. */
  lemma WrittenTail(s: string, i: nat, n: nat)
    requires ShortDigits(s, i, n) && i + n == |s|
    ensures Written(ShortValue(s, i, n), n) == s[i..]
  {
    WrittenValue(s, i, |s|, n);
  }

  /** The converse of `Step`: a suffix of `s` is the field before position `j`, the
      separator at `j` and the rest. */
  lemma Glue(s: string, i: nat, j: nat, k: nat)
    requires i <= j < |s| && k == j + 1
    ensures s[i..] == s[i..j] + [s[j]] + s[k..]
  {
  }

  /** A laid-out text is its year, month and day fields, with their separators, before the
      rest from the hour on. */
  lemma GlueDate(s: string, w: Widths)
    requires LaidOut(s, w)
    ensures s == s[..4] + "-" + (s[5..DayAt(w) - 1] + "-" + (s[DayAt(w)..HourAt(w) - 1] + " " + s[HourAt(w)..]))
  {
    Glue(s, 0, 4, 5);
    Glue(s, 5, DayAt(w) - 1, DayAt(w));
    Glue(s, DayAt(w), HourAt(w) - 1, HourAt(w));
    assert s[0..] == s && s[0..4] == s[..4];
  }

  /** From the hour on, a laid-out text is its hour, minute and second fields with their
      separators. */
  lemma GlueTime(s: string, w: Widths)
    requires LaidOut(s, w)
    ensures s[HourAt(w)..] == s[HourAt(w)..MinuteAt(w) - 1] + ":" + (s[MinuteAt(w)..SecondAt(w) - 1] + ":" + s[SecondAt(w)..])
  {
    Glue(s, HourAt(w), MinuteAt(w) - 1, MinuteAt(w));
    Glue(s, MinuteAt(w), SecondAt(w) - 1, SecondAt(w));
  }

  /** A laid-out text whose every field is the written form of a field of `d` is the
      spelling of `d`. */
  lemma Respelled(s: string, w: Widths, d: DateTime)
    requires LaidOut(s, w) && Fits(d, w)
    requires Padded(d.year, 4) == s[..4] && Written(d.month, w.month) == s[5..DayAt(w) - 1]
    requires Written(d.day, w.day) == s[DayAt(w)..HourAt(w) - 1]
    requires Written(d.hour, w.hour) == s[HourAt(w)..MinuteAt(w) - 1]
    requires Written(d.minute, w.minute) == s[MinuteAt(w)..SecondAt(w) - 1]
    requires Written(d.second, w.second) == s[SecondAt(w)..]
    ensures Spelled(d, w) == s
  {
    GlueDate(s, w);
    GlueTime(s, w);
  }

  /** The date fields of a laid-out text are the written forms of its values. */
  lemma DateWritten(s: string, w: Widths, d: DateTime)
    requires LaidOut(s, w) && d == Fields(s, w)
    ensures Padded(d.year, 4) == s[..4] && Written(d.month, w.month) == s[5..DayAt(w) - 1]
    ensures Written(d.day, w.day) == s[DayAt(w)..HourAt(w) - 1]
  {
    PaddedDigitsValue(s[..4]);
    WrittenValue(s, 5, DayAt(w) - 1, w.month);
    WrittenValue(s, DayAt(w), HourAt(w) - 1, w.day);
  }

  /** The time fields of a laid-out text are the written forms of its values. */
  lemma TimeWritten(s: string, w: Widths, d: DateTime)
    requires LaidOut(s, w) && d == Fields(s, w)
    ensures Written(d.hour, w.hour) == s[HourAt(w)..MinuteAt(w) - 1]
    ensures Written(d.minute, w.minute) == s[MinuteAt(w)..SecondAt(w) - 1]
    ensures Written(d.second, w.second) == s[SecondAt(w)..]
  {
    WrittenValue(s, HourAt(w), MinuteAt(w) - 1, w.hour);
    WrittenValue(s, MinuteAt(w), SecondAt(w) - 1, w.minute);
    WrittenTail(s, SecondAt(w), w.second);
  }

  /** A laid-out text is the spelling of its own fields at its own widths. */
  lemma LayoutSpelled(s: string, w: Widths)
    requires LaidOut(s, w)
    ensures Fits(Fields(s, w), w) && Spelled(Fields(s, w), w) == s
  {
    var d := Fields(s, w);
    DateWritten(s, w, d);
    TimeWritten(s, w, d);
    Respelled(s, w, d);
  }

  /** `pd.to_datetime(text, format='%Y-%m-%d %H:%M:%S')` on one cell: the timestamp the text
      spells, or nothing when the text does not have the shape of the format or names no
      real date. */
  function ParseDateTime(s: string): (r: Option<DateTime>)
    ensures r.Some? ==> Valid(r.value) && HasLayout(s)
  {
    match Scan(s)
    case None => None
    case Some(w) => if Valid(Fields(s, w)) then Some(Fields(s, w)) else None
  }

  /** A parsed text is exactly the spelling of its timestamp at the text's own field widths:
      parsing keeps every field's value and loses only how many digits it was written with. */
  lemma ParsedIsSpelled(s: string)
    requires ParseDateTime(s).Some?
    ensures Fits(ParseDateTime(s).value, WidthsOf(s)) && Spelled(ParseDateTime(s).value, WidthsOf(s)) == s
  {
    LayoutSpelled(s, WidthsOf(s));
  }

  /** Every valid timestamp, written at any widths it fits, parses back to itself. */
  lemma SpelledParses(d: DateTime, w: Widths)
    requires Valid(d) && Fits(d, w)
    ensures ParseDateTime(Spelled(d, w)) == Some(d)
    ensures HasLayout(Spelled(d, w)) && WidthsOf(Spelled(d, w)) == w
  {
    SpelledLaidOut(d, w);
    ScanFinds(Spelled(d, w), w);
  }

  /** In particular every valid timestamp survives formatting and parsing. */
  lemma ParseFormatted(d: DateTime)
    requires Valid(d)
    ensures ParseDateTime(FormatDateTime(d)) == Some(d)
  {
    SpelledParses(d, TwoDigits);
  }

  /** The date cell as the loaders parse it: `str.split('.').str[0]` keeps the text before the
      first ".", which must then match the format. */
  function ParseTimestamp(text: string): (r: Option<DateTime>)
    ensures r.Some? ==> Valid(r.value) && HasLayout(Text.BeforeFirst(text, '.'))
  {
    ParseDateTime(Text.BeforeFirst(text, '.'))
  }

  /** The text of a parsed cell before its first "." is its timestamp spelled at the cell's
      own widths. */
  lemma TimestampIsSpelled(text: string)
    requires ParseTimestamp(text).Some?
    ensures var head := Text.BeforeFirst(text, '.');
            var d := ParseTimestamp(text).value;
            Fits(d, WidthsOf(head)) && Spelled(d, WidthsOf(head)) == head
  {
    ParsedIsSpelled(Text.BeforeFirst(text, '.'));
  }

  /** A run of digits holds no separator. */
  lemma DigitsWithout(s: string, c: char)
    requires AllDigits(s) && !IsDigit(c)
    ensures c !in s
  {
    forall k | 0 <= k < |s| ensures s[k] != c {
      assert IsDigit(s[k]);
    }
  }

  /** A spelling holds digits and the separators "-", " " and ":", never a ".". */
  lemma SpelledWithoutPoint(d: DateTime, w: Widths)
    requires Fits(d, w)
    ensures '.' !in Spelled(d, w)
  {
    DigitsWithout(Padded(d.year, 4), '.');
    DigitsWithout(Written(d.month, w.month), '.');
    DigitsWithout(Written(d.day, w.day), '.');
    DigitsWithout(Written(d.hour, w.hour), '.');
    DigitsWithout(Written(d.minute, w.minute), '.');
    DigitsWithout(Written(d.second, w.second), '.');
  }

  /** Fractional seconds are cut off, never rounded: any text after the point is ignored. */
  lemma FractionTruncated(d: DateTime, w: Widths, fraction: string)
    requires Valid(d) && Fits(d, w)
    ensures ParseTimestamp(Spelled(d, w) + "." + fraction) == Some(d)
  {
    SpelledParses(d, w);
    SpelledWithoutPoint(d, w);
    Text.BeforeFirstSeparator(Spelled(d, w), '.', fraction);
  }

  /** A field of one digit gains a leading zero; one of two is kept as it is. */
  function TwoWide(s: string, i: nat, n: nat): (r: string)
    requires ShortDigits(s, i, n)
    ensures |r| == 2 && ShortDigits(r, 0, 2) && ShortValue(r, 0, 2) == ShortValue(s, i, n)
  {
    if n == 1 then ['0', s[i]] else [s[i], s[i + 1]]
  }

  /** Padding a field to two digits writes its value as `%m` and `%d` do. */
  lemma TwoWideWritten(s: string, i: nat, n: nat, v: nat)
    requires ShortDigits(s, i, n) && v == ShortValue(s, i, n)
    ensures Written(v, 2) == TwoWide(s, i, n)
  {
    var t := TwoWide(s, i, n);
    WrittenValue(t, 0, 2, 2);
    assert t[0..2] == t;
  }

  /** The date part of a parsed cell with month and day zero-padded to two digits. */
  function PaddedDate(text: string): (r: string)
    requires HasLayout(Text.BeforeFirst(text, '.'))
    ensures |r| == 10
  {
    var head := Text.BeforeFirst(text, '.');
    var w := WidthsOf(head);
    head[..4] + "-" + (TwoWide(head, 5, w.month) + "-" + TwoWide(head, DayAt(w), w.day))
  }

  /** `x` of the volume chart: the date formatted `%Y-%m-%d` is the file's own date text with
      a one-digit month or day padded by a zero. */
  lemma FormatDateFromText(text: string)
    requires ParseTimestamp(text).Some?
    ensures FormatDate(ParseTimestamp(text).value) == PaddedDate(text)
  {
    var head := Text.BeforeFirst(text, '.');
    var w := WidthsOf(head);
    var d := ParseTimestamp(text).value;
    assert d == Fields(head, w);
    PaddedDigitsValue(head[..4]);
    TwoWideWritten(head, 5, w.month, d.month);
    TwoWideWritten(head, DayAt(w), w.day, d.day);
  }

  /** With month and day of two digits, the padded date part is the first ten characters. */
  lemma TwoDigitDate(s: string, w: Widths)
    requires LaidOut(s, w) && w.month == 2 && w.day == 2
    ensures s[..4] + "-" + (TwoWide(s, 5, w.month) + "-" + TwoWide(s, DayAt(w), w.day)) == s[..10]
  {
    assert TwoWide(s, 5, w.month) == s[5..7];
    assert TwoWide(s, DayAt(w), w.day) == s[8..10];
  }

  /** When the file writes month and day with two digits, the formatted date is the first ten
      characters of the date text. */
  lemma FormatDateIsPrefix(text: string)
    requires ParseTimestamp(text).Some?
    requires WidthsOf(Text.BeforeFirst(text, '.')).month == 2
    requires WidthsOf(Text.BeforeFirst(text, '.')).day == 2
    ensures FormatDate(ParseTimestamp(text).value) == text[..10]
  {
    var head := Text.BeforeFirst(text, '.');
    FormatDateFromText(text);
    TwoDigitDate(head, WidthsOf(head));
    assert text[..10] == head[..10];
  }

  /** Chronological order: lexicographic on year, month, day, hour, minute, second. */
  predicate Before(a: DateTime, b: DateTime)
  {
    if a.year != b.year then a.year < b.year
    else if a.month != b.month then a.month < b.month
    else if a.day != b.day then a.day < b.day
    else if a.hour != b.hour then a.hour < b.hour
    else if a.minute != b.minute then a.minute < b.minute
    else a.second < b.second
  }

  /** `Before` is a strict total order, so a sorted index has one position per timestamp. */
  lemma BeforeStrictTotal(a: DateTime, b: DateTime, c: DateTime)
    ensures !Before(a, a)
    ensures Before(a, b) ==> !Before(b, a)
    ensures Before(a, b) && Before(b, c) ==> Before(a, c)
    ensures a == b || Before(a, b) || Before(b, a)
  {
  }
}
