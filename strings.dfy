/** The handful of Python `str` operations the monitor relies on: whitespace
    stripping, substring search, splitting, joining, decimal conversion and the
    `posixpath` helpers `basename` and `dirname`. */
module Strings {
  import opened Common

  /** Python's `str.isspace` for one character: the ASCII whitespace, the
      information separators 0x1C-0x1F, and the Unicode space separators. */
  predicate IsSpace(c: char) {
    ('\U{09}' <= c <= '\U{0D}') || ('\U{1C}' <= c <= '\U{20}') || c == '\U{85}' || c == '\U{A0}'
    || c == '\U{1680}' || ('\U{2000}' <= c <= '\U{200A}') || c == '\U{2028}' || c == '\U{2029}'
    || c == '\U{202F}' || c == '\U{205F}' || c == '\U{3000}'
  }

  /** `s.lstrip()`: drops the leading whitespace and nothing else. */
  function LStrip(s: string): (r: string)
    ensures |r| <= |s| && r == s[|s| - |r|..]
    ensures r == [] || !IsSpace(r[0])
    ensures forall i :: 0 <= i < |s| - |r| ==> IsSpace(s[i])
  {
    if s != [] && IsSpace(s[0]) then LStrip(s[1..]) else s
  }

  /** `s.rstrip()`: drops the trailing whitespace and nothing else. */
  function RStrip(s: string): (r: string)
    ensures |r| <= |s| && r == s[..|r|]
    ensures r == [] || !IsSpace(r[|r| - 1])
    ensures forall i :: |r| <= i < |s| ==> IsSpace(s[i])
  {
    if s != [] && IsSpace(s[|s| - 1]) then RStrip(s[..|s| - 1]) else s
  }

  /** `s.strip()`. */
  function Strip(s: string): string {
    RStrip(LStrip(s))
  }

  /** Whitespace alone strips to nothing. */
  lemma StripAllSpace(s: string)
    requires forall i :: 0 <= i < |s| ==> IsSpace(s[i])
    ensures Strip(s) == []
  {
  }

  /** A string with no whitespace at either end is its own `strip()`. */
  lemma StripNoSpace(s: string)
    requires s == [] || (!IsSpace(s[0]) && !IsSpace(s[|s| - 1]))
    ensures Strip(s) == s
  {
  }

  /** Stripping a string that is whitespace followed by `t` followed by
      whitespace, where `t` starts and ends with a non-space, yields `t`. */
  lemma {:induction false} StripPadded(t: string, after: string)
    requires t != [] && !IsSpace(t[0]) && !IsSpace(t[|t| - 1])
    requires forall i :: 0 <= i < |after| ==> IsSpace(after[i])
    ensures Strip(t + after) == t
  {
    assert LStrip(t + after) == t + after;
    RStripTrailing(t, after);
  }

  lemma {:induction false} RStripTrailing(t: string, after: string)
    requires t != [] && !IsSpace(t[|t| - 1])
    requires forall i :: 0 <= i < |after| ==> IsSpace(after[i])
    ensures RStrip(t + after) == t
    decreases |after|
  {
    if after == [] {
      assert t + after == t;
    } else {
      var shorter := after[..|after| - 1];
      assert (t + after)[..|t + after| - 1] == t + shorter;
      RStripTrailing(t, shorter);
    }
  }

  /** `s.startswith(p)`. */
  predicate StartsWith(s: string, p: string) {
    |p| <= |s| && s[..|p|] == p
  }

  /** `sub` occurs in `s` at index `i`. */
  predicate OccursAt(s: string, sub: string, i: int) {
    0 <= i && i + |sub| <= |s| && s[i..i + |sub|] == sub
  }

  /** `s.find(sub, k)` as an option: the first occurrence of `sub` at or after `k`. */
  function FindFrom(s: string, sub: string, k: nat): (r: Option<nat>)
    requires k <= |s|
    ensures r.Some? ==> k <= r.value && OccursAt(s, sub, r.value)
    ensures r.Some? ==> forall j :: k <= j < r.value ==> !OccursAt(s, sub, j)
    ensures r.None? ==> forall j :: k <= j <= |s| ==> !OccursAt(s, sub, j)
    decreases |s| - k
  {
    if k + |sub| > |s| then None
    else if s[k..k + |sub|] == sub then Some(k)
    else FindFrom(s, sub, k + 1)
  }

  /** `s.find(sub)` as an option. */
  function Find(s: string, sub: string): Option<nat> {
    FindFrom(s, sub, 0)
  }

  /** Python's `sub in s`. */
  predicate Contains(s: string, sub: string) {
    Find(s, sub).Some?
  }

  /** `s.split(sep, 1)` when it yields two parts: the text before and after the
      first occurrence of `sep`; `None` when `sep` does not occur. */
  function SplitOnce(s: string, sep: string): (r: Option<(string, string)>)
    ensures r.None? <==> (forall j :: 0 <= j <= |s| ==> !OccursAt(s, sep, j))
    ensures r.Some? ==> r.value.0 + sep + r.value.1 == s
  {
    match Find(s, sep)
    case None => None
    case Some(i) =>
      assert s == s[..i] + sep + s[i + |sep|..];
      Some((s[..i], s[i + |sep|..]))
  }

  /** Splitting at the first separator gives back the parts it was built
      from when the separator does not occur earlier. */
  lemma SplitOnceAt(k: string, sep: string, v: string)
    requires sep != []
    requires forall j :: 0 <= j < |k| ==> !OccursAt(k + sep + v, sep, j)
    ensures SplitOnce(k + sep + v, sep) == Some((k, v))
  {
    var s := k + sep + v;
    assert OccursAt(s, sep, |k|) by { assert s[|k|..|k| + |sep|] == sep; }
    assert s[..|k|] == k;
    assert s[|k| + |sep|..] == v;
  }

  /** `s.split(c)` for a one-character separator. */
  function SplitOn(s: string, c: char): (r: seq<string>)
    ensures |r| > 0
    ensures forall k :: 0 <= k < |r| ==> c !in r[k]
  {
    SplitAcc(s, c, [])
  }

  function SplitAcc(s: string, c: char, cur: string): (r: seq<string>)
    requires c !in cur
    ensures |r| > 0
    ensures forall k :: 0 <= k < |r| ==> c !in r[k]
  {
    if s == [] then [cur]
    else if s[0] == c then [cur] + SplitAcc(s[1..], c, [])
    else SplitAcc(s[1..], c, cur + [s[0]])
  }

  /** `sep.join(parts)`. */
  function Join(parts: seq<string>, sep: string): string {
    if parts == [] then []
    else if |parts| == 1 then parts[0]
    else parts[0] + sep + Join(parts[1..], sep)
  }

  /** Splitting the join of separator-free parts gives the parts back. */
  lemma {:induction false} SplitJoin(parts: seq<string>, c: char)
    requires |parts| > 0
    requires forall k :: 0 <= k < |parts| ==> c !in parts[k]
    ensures SplitOn(Join(parts, [c]), c) == parts
  {
    SplitJoinAcc(parts, c, []);
    assert [] + parts[0] == parts[0];
    assert [parts[0]] + parts[1..] == parts;
  }

  lemma {:induction false} SplitJoinAcc(parts: seq<string>, c: char, cur: string)
    requires |parts| > 0 && c !in cur
    requires forall k :: 0 <= k < |parts| ==> c !in parts[k]
    ensures SplitAcc(Join(parts, [c]), c, cur) == [cur + parts[0]] + parts[1..]
    decreases |parts|, |parts[0]|
  {
    var j := Join(parts, [c]);
    if parts[0] == [] {
      if |parts| == 1 {
        assert j == [];
        assert cur + parts[0] == cur;
      } else {
        assert j == [c] + Join(parts[1..], [c]);
        assert j[1..] == Join(parts[1..], [c]);
        SplitJoinAcc(parts[1..], c, []);
        assert cur + parts[0] == cur;
        assert [] + parts[1..][0] == parts[1];
        assert [parts[1]] + parts[1..][1..] == parts[1..];
      }
    } else {
      var p0 := parts[0];
      var tail := [p0[1..]] + parts[1..];
      assert Join(tail, [c]) == j[1..] by {
        if |parts| == 1 {
          assert j == p0;
        } else {
          assert j == p0 + [c] + Join(parts[1..], [c]);
          assert j[1..] == p0[1..] + [c] + Join(parts[1..], [c]);
        }
      }
      assert j[0] == p0[0];
      assert p0[0] != c by { assert p0[0] in p0; }
      forall k | 0 <= k < |tail| ensures c !in tail[k] {
        if k == 0 {
          assert forall x :: x in p0[1..] ==> x in p0;
        } else {
          assert tail[k] == parts[k];
        }
      }
      SplitJoinAcc(tail, c, cur + [p0[0]]);
      assert cur + [p0[0]] + tail[0] == cur + p0;
      assert tail[1..] == parts[1..];
    }
  }

  /** Python's `str.splitlines()` line boundaries. */
  predicate IsLineBreak(c: char) {
    ('\U{0A}' <= c <= '\U{0D}') || ('\U{1C}' <= c <= '\U{1E}') || c == '\U{85}'
    || c == '\U{2028}' || c == '\U{2029}'
  }

  function FirstBreak(s: string, k: nat): (i: nat)
    requires k <= |s|
    ensures k <= i <= |s|
    ensures i < |s| ==> IsLineBreak(s[i])
    ensures forall j :: k <= j < i ==> !IsLineBreak(s[j])
    decreases |s| - k
  {
    if k == |s| || IsLineBreak(s[k]) then k else FirstBreak(s, k + 1)
  }

  /** `s.splitlines()`: the lines without their terminators; `\r\n` counts as
      one terminator and a final terminator does not open an empty line. */
  function SplitLines(s: string): (r: seq<string>)
    ensures forall k :: 0 <= k < |r| ==> forall j :: 0 <= j < |r[k]| ==> !IsLineBreak(r[k][j])
    ensures s == [] <==> r == []
    decreases |s|
  {
    if s == [] then []
    else
      var i := FirstBreak(s, 0);
      if i == |s| then [s]
      else
        var w := if s[i] == '\r' && i + 1 < |s| && s[i + 1] == '\n' then 2 else 1;
        [s[..i]] + SplitLines(s[i + w..])
  }

  /** The first break of a line followed by `\n` is that `\n`. */
  lemma FirstBreakAfterLine(line: string, rest: string)
    requires forall j :: 0 <= j < |line| ==> !IsLineBreak(line[j])
    ensures FirstBreak(line + "\n" + rest, 0) == |line|
  {
    var s := line + "\n" + rest;
    assert s[|line|] == '\n';
    assert forall j :: 0 <= j < |line| ==> s[j] == line[j];
  }

  /** `"\n".join(lines).splitlines() == lines` for lines without line
      breaks, the last of them not empty. */
  lemma {:induction false} SplitLinesJoin(lines: seq<string>)
    requires |lines| > 0 && lines[|lines| - 1] != []
    requires forall k, j :: 0 <= k < |lines| && 0 <= j < |lines[k]| ==> !IsLineBreak(lines[k][j])
    ensures SplitLines(Join(lines, "\n")) == lines
    decreases |lines|
  {
    var s := Join(lines, "\n");
    if |lines| == 1 {
      assert s == lines[0];
      assert FirstBreak(s, 0) == |s|;
    } else {
      var rest := Join(lines[1..], "\n");
      assert s == lines[0] + "\n" + rest;
      FirstBreakAfterLine(lines[0], rest);
      assert s[..|lines[0]|] == lines[0];
      assert s[|lines[0]| + 1..] == rest;
      SplitLinesJoin(lines[1..]);
      assert [lines[0]] + lines[1..] == lines;
    }
  }

  // Decimal numerals

  predicate IsDigit(c: char) { '0' <= c <= '9' }

  predicate AllDigits(s: string) { forall i :: 0 <= i < |s| ==> IsDigit(s[i]) }

  function DigitChar(d: nat): (c: char)
    requires d < 10
    ensures IsDigit(c) && c as int - '0' as int == d
  {
    ('0' as int + d) as char
  }

  /** `str(n)` for a natural number. */
  function NatToString(n: nat): (s: string)
    ensures s != [] && AllDigits(s)
    ensures s[0] != '+' && s[0] != '-'
  {
    if n < 10 then [DigitChar(n)] else NatToString(n / 10) + [DigitChar(n % 10)]
  }

  /** `str(i)` for any integer. */
  function IntToString(i: int): string {
    if i < 0 then "-" + NatToString(-i) else NatToString(i)
  }

  /** The value of a non-empty run of ASCII digits. */
  function DigitsValue(s: string): nat
    requires AllDigits(s)
  {
    if s == [] then 0
    else DigitsValue(s[..|s| - 1]) * 10 + (s[|s| - 1] as int - '0' as int)
  }

  lemma {:induction false} DigitsOfNatToString(n: nat)
    ensures DigitsValue(NatToString(n)) == n
  {
    if n >= 10 {
      var s := NatToString(n);
      assert s[..|s| - 1] == NatToString(n / 10);
      DigitsOfNatToString(n / 10);
    }
  }

  predicate DigitsOrUnderscores(d: string) {
    forall i :: 0 <= i < |d| ==> IsDigit(d[i]) || d[i] == '_'
  }

  /** ASCII digits with single underscores between them, as Python's
      `int` accepts them. */
  predicate Grouped(d: string) {
    && d != [] && DigitsOrUnderscores(d) && IsDigit(d[0]) && IsDigit(d[|d| - 1])
    && forall i, j :: 0 <= i < |d| && 0 <= j < |d| && j == i + 1 ==> !(d[i] == '_' && d[j] == '_')
  }

  /** The digits of `d` with its underscores removed. */
  function DropUnderscores(d: string): (r: string)
    ensures |r| <= |d|
    decreases |d|
  {
    if d == [] then []
    else DropUnderscores(d[..|d| - 1]) + if d[|d| - 1] == '_' then [] else [d[|d| - 1]]
  }

  /** Removing the underscores from digits and underscores leaves digits,
      and leaves a run of digits as it is. */
  lemma {:induction false} DropUnderscoresDigits(d: string)
    ensures DigitsOrUnderscores(d) ==> AllDigits(DropUnderscores(d))
    ensures AllDigits(d) ==> DropUnderscores(d) == d
    decreases |d|
  {
    if d != [] {
      var init := d[..|d| - 1];
      DropUnderscoresDigits(init);
      assert init + [d[|d| - 1]] == d;
    }
  }

  /** The value of grouped digits. */
  function GroupedValue(d: string): nat
    requires Grouped(d)
  {
    DropUnderscoresDigits(d);
    DigitsValue(DropUnderscores(d))
  }

  /** `int` of text that starts and ends with a digit, so that neither
      stripping nor a sign plays a part. */
  lemma ParseIntOfDigitText(t: string)
    requires t != [] && IsDigit(t[0]) && IsDigit(t[|t| - 1])
    ensures ParseInt(t) == if Grouped(t) then Some(GroupedValue(t)) else None
  {
    StripNoSpace(t);
  }

  /** Python's `int(s)` on text: surrounding whitespace, an optional sign and
      ASCII digits, single underscores allowed between them; any other text
      is a `ValueError` (`None`). */
  function ParseInt(s: string): Option<int> {
    var t := Strip(s);
    if t == [] then None
    else
      var negative := t[0] == '-';
      var digits := if t[0] == '-' || t[0] == '+' then t[1..] else t;
      if Grouped(digits) then
        var mag: int := GroupedValue(digits);
        var v: int := if negative then 0 - mag else mag;
        Some(v)
      else None
  }

  lemma {:induction false} DropUnderscoresAppend(x: string, y: string)
    ensures DropUnderscores(x + y) == DropUnderscores(x) + DropUnderscores(y)
    decreases |y|
  {
    if y == [] {
      assert x + y == x;
    } else {
      var init := y[..|y| - 1];
      assert (x + y)[..|x + y| - 1] == x + init;
      DropUnderscoresAppend(x, init);
    }
  }

  lemma GroupedAroundUnderscore(a: string, b: string)
    requires a != [] && AllDigits(a) && b != [] && AllDigits(b)
    ensures Grouped(a + "_" + b)
  {
    var one := a + "_" + b;
    assert one[0] == a[0] && one[|one| - 1] == b[|b| - 1];
    forall i | 0 <= i < |one|
      ensures IsDigit(one[i]) || one[i] == '_'
    {
      if i < |a| {
        assert one[i] == a[i];
      } else if i > |a| {
        assert one[i] == b[i - |a| - 1];
      }
    }
  }

  lemma DropAroundUnderscore(a: string, b: string)
    requires AllDigits(a) && AllDigits(b)
    ensures DropUnderscores(a + "_" + b) == a + b
  {
    var a1 := a + "_";
    assert a1[..|a1| - 1] == a && a1[|a1| - 1] == '_';
    assert DropUnderscores(a1) == DropUnderscores(a) + [];
    DropUnderscoresDigits(a);
    DropUnderscoresDigits(b);
    DropUnderscoresAppend(a1, b);
  }

  /** `int` of a run of ASCII digits is its value. */
  lemma ParseIntDigits(t: string)
    requires t != [] && AllDigits(t)
    ensures ParseInt(t) == Some(DigitsValue(t))
  {
    ParseIntOfDigitText(t);
    DropUnderscoresDigits(t);
    assert Grouped(t);
  }

  /** `int` of unpadded text with a minus sign before grouped digits. */
  lemma ParseIntMinusGrouped(s: string)
    requires s != [] && s[0] == '-' && Strip(s) == s && Grouped(s[1..])
    ensures ParseInt(s) == Some(0 - GroupedValue(s[1..]))
  { }

  /** A run of ASCII digits is grouped, with its decimal value. */
  lemma DigitsGrouped(d: string)
    requires d != [] && AllDigits(d)
    ensures Grouped(d) && GroupedValue(d) == DigitsValue(d)
  {
    DropUnderscoresDigits(d);
  }

  /** `int` of a minus sign followed by ASCII digits is the negated value. */
  lemma ParseIntNegative(m: string)
    requires |m| >= 2 && m[0] == '-' && AllDigits(m[1..])
    ensures ParseInt(m) == Some(0 - DigitsValue(m[1..]))
  {
    assert IsDigit(m[1..][|m| - 2]);
    StripNoSpace(m);
    DigitsGrouped(m[1..]);
    ParseIntMinusGrouped(m);
  }

  /** Two underscores in a row make `int` raise. */
  lemma DoubleUnderscoreRaises(a: string, b: string)
    requires a != [] && AllDigits(a) && b != [] && AllDigits(b)
    ensures ParseInt(a + "__" + b) == None
  {
    var two := a + "__" + b;
    assert two[0] == a[0] && two[|two| - 1] == b[|b| - 1];
    ParseIntOfDigitText(two);
    assert two[|a|] == '_' && two[|a| + 1] == '_';
  }

  /** An underscore between two runs of digits leaves the value alone, and
      two underscores in a row make `int` raise. */
  lemma ParseIntUnderscores(a: string, b: string)
    requires a != [] && AllDigits(a) && b != [] && AllDigits(b)
    ensures ParseInt(a + "_" + b) == ParseInt(a + b) == Some(DigitsValue(a + b))
    ensures ParseInt(a + "__" + b) == None
  {
    var one := a + "_" + b;
    var ab := a + b;
    assert one[0] == a[0] && one[|one| - 1] == b[|b| - 1];
    ParseIntOfDigitText(one);
    assert AllDigits(ab) by {
      assert forall i :: 0 <= i < |ab| ==> ab[i] == if i < |a| then a[i] else b[i - |a|];
    }
    GroupedAroundUnderscore(a, b);
    DropAroundUnderscore(a, b);
    ParseIntDigits(ab);
    DoubleUnderscoreRaises(a, b);
  }

  /** `int(str(n)) == n`. */
  lemma ParseIntOfNatToString(n: nat)
    ensures ParseInt(NatToString(n)) == Some(n)
  {
    ParseIntDigits(NatToString(n));
    DigitsOfNatToString(n);
  }

  // posixpath helpers

  /** The index just after the last `/` in `p`, 0 when there is none. */
  function AfterLastSlash(p: string): (i: nat)
    ensures i <= |p|
    ensures i > 0 ==> p[i - 1] == '/'
    ensures forall j :: i <= j < |p| ==> p[j] != '/'
  {
    if p == [] then 0
    else if p[|p| - 1] == '/' then |p|
    else AfterLastSlash(p[..|p| - 1])
  }

  /** `os.path.basename(p)`: everything after the last `/`. */
  function Basename(p: string): (r: string)
    ensures '/' !in r
    ensures |r| <= |p| && r == p[|p| - |r|..]
  {
    p[AfterLastSlash(p)..]
  }

  /** The basename starts just after a slash, or at the start of a path
      without one: it is the whole text after the last slash. */
  lemma BasenameAfterLastSlash(p: string)
    ensures var r := Basename(p);
      (|r| == |p| && '/' !in p) || (|r| < |p| && p[|p| - |r| - 1] == '/')
  {
    var i := AfterLastSlash(p);
    if i == 0 {
      assert forall j :: 0 <= j < |p| ==> p[j] != '/';
    }
  }

  /** `os.path.dirname(p)`: everything up to the last `/`, with trailing
      slashes removed unless the head is made only of slashes. */
  function Dirname(p: string): string {
    var head := p[..AfterLastSlash(p)];
    if head != [] && exists j :: 0 <= j < |head| && head[j] != '/' then TrimSlashes(head) else head
  }

  function TrimSlashes(s: string): string {
    if s != [] && s[|s| - 1] == '/' then TrimSlashes(s[..|s| - 1]) else s
  }
}
