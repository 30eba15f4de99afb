/**
  The parts of Python's `str` that the outreach code relies on, stated over
  Dafny strings (sequences of Unicode scalar values): whitespace stripping,
  line splitting, joining, lower-casing, prefix and substring tests, `find`,
  `rfind` and slicing with Python's negative-index rules.
 */
module PyStr {

  /** Python's `str.isspace()`: the characters `str.strip()` removes. */
  predicate IsSpace(c: char) {
    || ('\t' <= c <= '\r')
    || ('\U{1C}' <= c <= '\U{1F}')
    || c == ' ' || c == '\U{85}' || c == '\U{A0}' || c == '\U{1680}'
    || ('\U{2000}' <= c <= '\U{200A}')
    || c == '\U{2028}' || c == '\U{2029}' || c == '\U{202F}' || c == '\U{205F}' || c == '\U{3000}'
  }

  predicate AllSpace(s: string) {
    forall i :: 0 <= i < |s| ==> IsSpace(s[i])
  }

  /** Neither end of `s` is whitespace: `s.strip() == s`. */
  predicate IsStripped(s: string) {
    s == [] || (!IsSpace(s[0]) && !IsSpace(s[|s| - 1]))
  }

  /** `s.lstrip()`: the longest suffix of `s` that does not start with whitespace. */
  function LStrip(s: string): (r: string)
    ensures |r| <= |s| && r == s[|s| - |r|..]
    ensures r == [] || !IsSpace(r[0])
  {
    if s != [] && IsSpace(s[0]) then LStrip(s[1..]) else s
  }

  /** `s.rstrip()`: the longest prefix of `s` that does not end with whitespace. */
  function RStrip(s: string): (r: string)
    ensures |r| <= |s| && r == s[..|r|]
    ensures r == [] || !IsSpace(r[|r| - 1])
  {
    if s != [] && IsSpace(s[|s| - 1]) then RStrip(s[..|s| - 1]) else s
  }

  /** `s.strip()`: `s` without its leading and trailing whitespace. */
  function Strip(s: string): (r: string)
    ensures IsStripped(r) && |r| <= |s|
  {
    RStrip(LStrip(s))
  }

  /** Stripping a text without line breaks leaves none. */
  lemma StripNoBreak(s: string)
    requires NoBreak(s)
    ensures NoBreak(Strip(s))
  {
    var l := LStrip(s);
    assert l == s[|s| - |l|..|s|];
    NoBreakSlice(s, |s| - |l|, |s|);
    var r := RStrip(l);
    assert r == l[0..|r|];
    NoBreakSlice(l, 0, |r|);
  }

  /** Any slice of a text without line breaks has none. */
  lemma NoBreakSlice(s: string, a: nat, b: nat)
    requires NoBreak(s) && a <= b <= |s|
    ensures NoBreak(s[a..b])
  {
    assert forall i :: 0 <= i < b - a ==> s[a..b][i] == s[a + i];
  }

  lemma {:induction false} LStripSpacePrefix(w: string, s: string)
    requires AllSpace(w)
    ensures LStrip(w + s) == LStrip(s)
  {
    if w == [] {
      assert w + s == s;
    } else {
      assert IsSpace((w + s)[0]);
      assert (w + s)[1..] == w[1..] + s;
      LStripSpacePrefix(w[1..], s);
    }
  }

  lemma {:induction false} RStripSpaceSuffix(s: string, w: string)
    requires AllSpace(w)
    ensures RStrip(s + w) == RStrip(s)
  {
    if w == [] {
      assert s + w == s;
    } else {
      assert IsSpace((s + w)[|s + w| - 1]);
      assert (s + w)[..|s + w| - 1] == s + w[..|w| - 1];
      RStripSpaceSuffix(s, w[..|w| - 1]);
    }
  }

  /** A leading whitespace character does not change what `strip()` returns. */
  lemma StripDropSpace(s: string)
    requires s != [] && IsSpace(s[0])
    ensures Strip(s) == Strip(s[1..])
  {
  }

  /** Leading whitespace does not change what `strip()` returns. */
  lemma {:induction false} StripSpacePrefix(w: string, s: string)
    requires AllSpace(w)
    ensures Strip(w + s) == Strip(s)
  {
    LStripSpacePrefix(w, s);
  }

  /** Trailing whitespace does not change what `strip()` returns. */
  lemma {:induction false} StripSpaceSuffix(s: string, w: string)
    requires AllSpace(w)
    ensures Strip(s + w) == Strip(s)
    decreases |s|
  {
    if s == [] {
      assert s + w == w;
      assert w == w + [];
      LStripSpacePrefix(w, []);
    } else if IsSpace(s[0]) {
      assert (s + w)[1..] == s[1..] + w;
      StripSpaceSuffix(s[1..], w);
    } else {
      RStripSpaceSuffix(s, w);
    }
  }

  /** Stripping a string that has no surrounding whitespace changes nothing. */
  lemma {:induction false} StripStripped(s: string)
    requires IsStripped(s)
    ensures Strip(s) == s
  {
  }

  /** `strip()` removes whitespace on both sides of a string that has none of its own. */
  lemma {:induction false} StripPadded(w1: string, s: string, w2: string)
    requires AllSpace(w1) && AllSpace(w2) && IsStripped(s)
    ensures Strip(w1 + s + w2) == s
  {
    var t := s + w2;
    assert w1 + s + w2 == w1 + t;
    calc {
      Strip(w1 + s + w2);
      Strip(w1 + t);
      { StripSpacePrefix(w1, t); }
      Strip(t);
      { StripSpaceSuffix(s, w2); }
      Strip(s);
      { StripStripped(s); }
      s;
    }
  }

  /** A string whose ends are not whitespace is unchanged by `strip()`, whatever lies between. */
  lemma {:induction false} StrippedFrame(a: string, m: string, z: string)
    requires a != [] && !IsSpace(a[0]) && z != [] && !IsSpace(z[|z| - 1])
    ensures IsStripped(a + m + z)
  {
    var s := a + m + z;
    assert s[0] == a[0];
    assert s[|s| - 1] == z[|z| - 1];
  }

  /** Two strings without line breaks joined together have none. */
  lemma NoBreakAppend(a: string, b: string)
    requires NoBreak(a) && NoBreak(b)
    ensures NoBreak(a + b)
  {
    assert forall i :: |a| <= i < |a + b| ==> (a + b)[i] == b[i - |a|];
  }

  /** `h + e` starts with `h`, and slicing it after `h` gives `e`. */
  lemma HeadThenRest(h: string, e: string)
    ensures StartsWith(h + e, h) && (h + e)[|h|..] == e
  {
    assert (h + e)[..|h|] == h;
  }

  /** A string cannot start with two prefixes that disagree at some position. */
  lemma PrefixesClash(s: string, p: string, q: string, k: nat)
    requires StartsWith(s, p) && k < |p| && k < |q| && p[k] != q[k]
    ensures !StartsWith(s, q)
  {
    assert s[..|p|][k] == s[k];
  }

  /** A string in which the first character of `t` never occurs does not contain `t`. */
  lemma NotContainsFirst(s: string, t: string)
    requires t != [] && forall i :: 0 <= i < |s| ==> s[i] != t[0]
    ensures !Contains(s, t)
  {
    forall i | 0 <= i <= |s| - |t|
      ensures !StartsWith(s[i..], t)
    {
      assert s[i..][0] == s[i];
    }
  }

  /** Python's `sep.join(parts)`. */
  function Join(sep: string, parts: seq<string>): string
  {
    if |parts| == 0 then []
    else if |parts| == 1 then parts[0]
    else parts[0] + sep + Join(sep, parts[1..])
  }

  /** `s` holds no line break. */
  predicate NoBreak(s: string) {
    forall i :: 0 <= i < |s| ==> s[i] != '\n'
  }

  /** Length of the first line of `s`: the index of its first `'\n'`, or `|s|`. */
  function LineEnd(s: string): (k: nat)
    ensures k <= |s| && NoBreak(s[..k])
    ensures k < |s| ==> s[k] == '\n'
  {
    if s == [] || s[0] == '\n' then 0 else 1 + LineEnd(s[1..])
  }

  /**
    `s.splitlines()` restricted to `'\n'` as the only line break: no line
    holds a break, and a final break does not open an empty last line.
   */
  function SplitLines(s: string): (lines: seq<string>)
    ensures forall i :: 0 <= i < |lines| ==> NoBreak(lines[i])
    ensures s == [] <==> lines == []
    decreases |s|
  {
    if s == [] then []
    else
      var k := LineEnd(s);
      [s[..k]] + (if k < |s| then SplitLines(s[k + 1..]) else [])
  }

  /** `LineEnd` is the only index that ends a break-free first line. */
  lemma {:induction false} LineEndUnique(s: string, k: nat)
    requires k <= |s| && NoBreak(s[..k])
    requires k < |s| ==> s[k] == '\n'
    ensures LineEnd(s) == k
  {
    if s != [] && s[0] != '\n' && k > 0 {
      assert s[1..][..k - 1] == s[..k][1..];
      LineEndUnique(s[1..], k - 1);
    }
  }

  /** A line followed by a break splits into that line and the lines after it. */
  lemma {:induction false} SplitLinesCons(line: string, tail: string)
    requires NoBreak(line) && tail != [] && tail[0] == '\n'
    ensures SplitLines(line + tail) == [line] + SplitLines(tail[1..])
  {
    var s := line + tail;
    assert s[..|line|] == line;
    assert s[|line|] == tail[0];
    LineEndUnique(s, |line|);
    assert s[|line| + 1..] == tail[1..];
  }

  /** A non-empty text without line breaks is a single line. */
  lemma {:induction false} SplitLinesOne(line: string)
    requires NoBreak(line) && line != []
    ensures SplitLines(line) == [line]
  {
    assert line[..|line|] == line;
    LineEndUnique(line, |line|);
  }

  /** Appending to text that ends in a line break does not move the end of its first line. */
  lemma {:induction false} LineEndAppend(p: string, x: string)
    requires p != [] && p[|p| - 1] == '\n'
    ensures LineEnd(p + x) == LineEnd(p) < |p|
    ensures (p + x)[..LineEnd(p)] == p[..LineEnd(p)]
    ensures (p + x)[LineEnd(p) + 1..] == p[LineEnd(p) + 1..] + x
  {
    var k := LineEnd(p);
    assert (p + x)[..k] == p[..k];
    LineEndUnique(p + x, k);
    assert (p + x)[k + 1..] == p[k + 1..] + x;
  }

  /** Text that ends in a line break splits independently of what follows it. */
  lemma {:induction false} SplitLinesAppend(p: string, x: string)
    requires p == [] || p[|p| - 1] == '\n'
    ensures SplitLines(p + x) == SplitLines(p) + SplitLines(x)
    decreases |p|
  {
    if p == [] {
      assert p + x == x;
    } else {
      var k := LineEnd(p);
      LineEndAppend(p, x);
      var rest := p[k + 1..];
      assert rest != [] ==> rest[|rest| - 1] == p[|p| - 1];
      SplitLinesAppend(rest, x);
      var line := p[..k];
      assert SplitLines(p + x) == [line] + SplitLines(rest + x);
      assert SplitLines(p) == [line] + SplitLines(rest);
      ListAssoc([line], SplitLines(rest), SplitLines(x));
    }
  }

  /** Concatenating lists of lines is associative; stated once so that callers need not unfold sequence concatenation. */
  lemma ListAssoc(a: seq<string>, b: seq<string>, c: seq<string>)
    ensures a + (b + c) == (a + b) + c
  {
  }

  /** A string is its prefix, the character at `k` and its suffix. */
  lemma SplitAround(s: string, k: nat)
    requires k < |s|
    ensures s == s[..k] + [s[k]] + s[k + 1..]
  {
  }

  /** Re-joining the lines with `"\n"` gives back the text, less one final break. */
  lemma {:induction false} JoinSplitLines(s: string)
    ensures Join("\n", SplitLines(s)) == if s != [] && s[|s| - 1] == '\n' then s[..|s| - 1] else s
    decreases |s|
  {
    if s != [] {
      var k := LineEnd(s);
      if k == |s| {
        assert s[..k] == s;
        assert SplitLines(s) == [s];
      } else {
        var line, rest := s[..k], s[k + 1..];
        JoinSplitLines(rest);
        var lines := SplitLines(s);
        assert lines == [line] + SplitLines(rest);
        if rest != [] {
          assert lines[1..] == SplitLines(rest);
          assert Join("\n", lines) == line + "\n" + Join("\n", SplitLines(rest));
          if rest[|rest| - 1] == '\n' {
            SplitAround(s[..|s| - 1], k);
            assert s[..|s| - 1][k + 1..] == rest[..|rest| - 1];
          } else {
            SplitAround(s, k);
          }
        }
      }
    }
  }

  /** Splitting into lines and re-joining them does not change the stripped text. */
  lemma {:induction false} JoinSplitLinesStrip(s: string)
    ensures Strip(Join("\n", SplitLines(s))) == Strip(s)
  {
    JoinSplitLines(s);
    if s != [] && s[|s| - 1] == '\n' {
      var t := s[..|s| - 1];
      assert Join("\n", SplitLines(s)) == t;
      assert s == t + "\n";
      assert AllSpace("\n");
      StripSpaceSuffix(t, "\n");
    } else {
      assert Join("\n", SplitLines(s)) == s;
    }
  }

  /** ASCII lower-casing of one character, as `str.lower()` does for `A`–`Z`. */
  function LowerChar(c: char): char {
    if 'A' <= c <= 'Z' then (c as int + 32) as char else c
  }

  /** `s.lower()` on ASCII letters; other characters are kept. */
  function Lower(s: string): (r: string)
    ensures |r| == |s|
    ensures forall i :: 0 <= i < |s| ==> r[i] == LowerChar(s[i])
  {
    seq(|s|, i requires 0 <= i < |s| => LowerChar(s[i]))
  }

  /** `s.lower().startswith(p)`, compared character by character. */
  predicate StartsWithLower(s: string, p: string) {
    |p| <= |s| && forall i :: 0 <= i < |p| ==> LowerChar(s[i]) == p[i]
  }

  /** The character-by-character test is the test on the lower-cased string. */
  lemma StartsWithLowerIsLowerPrefix(s: string, p: string)
    ensures StartsWithLower(s, p) <==> StartsWith(Lower(s), p)
  {
    if |p| <= |s| {
      assert forall i :: 0 <= i < |p| ==> Lower(s)[..|p|][i] == LowerChar(s[i]);
    }
  }

  /** `s.startswith(p)`. */
  predicate StartsWith(s: string, p: string) {
    |p| <= |s| && s[..|p|] == p
  }

  /** Python's `t in s` for strings: `t` occurs in `s` at some offset. */
  predicate Contains(s: string, t: string) {
    exists i :: 0 <= i <= |s| - |t| && StartsWith(s[i..], t)
  }

  lemma {:induction false} ContainsAt(a: string, t: string, b: string)
    ensures Contains(a + t + b, t)
  {
    assert (a + t + b)[|a|..][..|t|] == t;
  }

  lemma {:induction false} ContainsTrans(s: string, t: string, u: string)
    requires Contains(s, t) && Contains(t, u)
    ensures Contains(s, u)
  {
    var i :| 0 <= i <= |s| - |t| && StartsWith(s[i..], t);
    var j :| 0 <= j <= |t| - |u| && StartsWith(t[j..], u);
    assert forall k :: 0 <= k < |t| ==> s[i + k] == t[k] by {
      assert forall k :: 0 <= k < |t| ==> s[i..][..|t|][k] == s[i + k];
    }
    assert forall k :: 0 <= k < |u| ==> t[j + k] == u[k] by {
      assert forall k :: 0 <= k < |u| ==> t[j..][..|u|][k] == t[j + k];
    }
    assert s[i + j..][..|u|] == u;
  }

  /**
    Every part of `sep.join(parts)` occurs in it: the first one at the
    start, every later one right after a separator.
   */
  lemma {:induction false} JoinHasPart(sep: string, parts: seq<string>, j: int)
    requires 0 <= j < |parts|
    ensures j == 0 ==> StartsWith(Join(sep, parts), parts[0])
    ensures j > 0 ==> Contains(Join(sep, parts), sep + parts[j])
  {
    if |parts| > 1 {
      var rest := Join(sep, parts[1..]);
      assert Join(sep, parts) == parts[0] + sep + rest;
      if j == 0 {
        assert Join(sep, parts)[..|parts[0]|] == parts[0];
      } else if j == 1 {
        JoinHasPart(sep, parts[1..], 0);
        assert Join(sep, parts)[|parts[0]|..][..|sep + parts[1]|] == sep + parts[1];
      } else {
        JoinHasPart(sep, parts[1..], j - 1);
        ContainsAt(parts[0] + sep, rest, []);
        assert parts[0] + sep + rest + [] == Join(sep, parts);
        ContainsTrans(Join(sep, parts), rest, sep + parts[j]);
      }
    }
  }

  /** A string that starts with `t` contains `t`. */
  lemma {:induction false} StartsWithContains(s: string, t: string)
    requires StartsWith(s, t)
    ensures Contains(s, t)
  {
    assert s[0..] == s;
  }

  /** Every part of `sep.join(parts)` occurs in it. */
  lemma {:induction false} JoinContainsParts(sep: string, parts: seq<string>)
    ensures forall j :: 0 <= j < |parts| ==> Contains(Join(sep, parts), parts[j])
  {
    forall j | 0 <= j < |parts|
      ensures Contains(Join(sep, parts), parts[j])
    {
      JoinHasPart(sep, parts, j);
      if j == 0 {
        StartsWithContains(Join(sep, parts), parts[0]);
      } else {
        ContainsAt(sep, parts[j], []);
        assert sep + parts[j] + [] == sep + parts[j];
        ContainsTrans(Join(sep, parts), sep + parts[j], parts[j]);
      }
    }
  }

  /** Behind one more separator, every part of `sep.join(parts)` follows a separator. */
  lemma {:induction false} SepJoinContainsParts(sep: string, parts: seq<string>)
    ensures forall j :: 0 <= j < |parts| ==> Contains(sep + Join(sep, parts), sep + parts[j])
  {
    var s := sep + Join(sep, parts);
    forall j | 0 <= j < |parts|
      ensures Contains(s, sep + parts[j])
    {
      JoinHasPart(sep, parts, j);
      if j == 0 {
        assert s[..|sep + parts[0]|] == sep + parts[0];
        StartsWithContains(s, sep + parts[0]);
      } else {
        ContainsAt(sep, Join(sep, parts), []);
        assert sep + Join(sep, parts) + [] == s;
        ContainsTrans(s, Join(sep, parts), sep + parts[j]);
      }
    }
  }

  /** A string that contains `sep.join(parts)` contains every part. */
  lemma {:induction false} ContainsJoinedParts(t: string, sep: string, parts: seq<string>)
    requires Contains(t, Join(sep, parts))
    ensures forall j :: 0 <= j < |parts| ==> Contains(t, parts[j])
  {
    JoinContainsParts(sep, parts);
    forall j | 0 <= j < |parts|
      ensures Contains(t, parts[j])
    {
      ContainsTrans(t, Join(sep, parts), parts[j]);
    }
  }

  /** A string that contains `sep + sep.join(parts)` contains every part behind a separator. */
  lemma {:induction false} ContainsSepJoinedParts(t: string, sep: string, parts: seq<string>)
    requires Contains(t, sep + Join(sep, parts))
    ensures forall j :: 0 <= j < |parts| ==> Contains(t, sep + parts[j])
  {
    SepJoinContainsParts(sep, parts);
    forall j | 0 <= j < |parts|
      ensures Contains(t, sep + parts[j])
    {
      ContainsTrans(t, sep + Join(sep, parts), sep + parts[j]);
    }
  }

  /** `s.find(c)`: the first index of `c` in `s`, or -1. */
  function Find(s: string, c: char): (r: int)
    ensures -1 <= r < |s|
    ensures r == -1 <==> c !in s
    ensures r >= 0 ==> s[r] == c && c !in s[..r]
  {
    if s == [] then -1
    else if s[0] == c then 0
    else
      var k := Find(s[1..], c);
      assert s == [s[0]] + s[1..];
      if k == -1 then -1
      else
        assert s[..k + 1] == [s[0]] + s[1..][..k];
        k + 1
  }

  /** `s.rfind(c)`: the last index of `c` in `s`, or -1. */
  function RFind(s: string, c: char): (r: int)
    ensures -1 <= r < |s|
    ensures r == -1 <==> c !in s
    ensures r >= 0 ==> s[r] == c && c !in s[r + 1..]
  {
    if s == [] then -1
    else if s[|s| - 1] == c then |s| - 1
    else
      assert s == s[..|s| - 1] + [s[|s| - 1]];
      var k := RFind(s[..|s| - 1], c);
      if k >= 0 then
        assert s[k + 1..] == s[..|s| - 1][k + 1..] + [s[|s| - 1]];
        k
      else
        k
  }

  /**
    `s.split(c, 1)[1]`: the text after the first `c` in `s`. Python raises
    when `s` has no `c`; this function is only applied where one is present.
   */
  function AfterFirst(s: string, c: char): string {
    if s == [] then []
    else if s[0] == c then s[1..]
    else AfterFirst(s[1..], c)
  }

  /** The text after the first `c` starts right after its first occurrence. */
  lemma {:induction false} AfterFirstAt(s: string, c: char, k: nat)
    requires k < |s| && s[k] == c
    requires forall i :: 0 <= i < k ==> s[i] != c
    ensures AfterFirst(s, c) == s[k + 1..]
  {
    if k > 0 {
      AfterFirstAt(s[1..], c, k - 1);
    }
  }

  /** `find` returns the index of an occurrence that has none before it. */
  lemma FindAt(s: string, c: char, i: nat)
    requires i < |s| && s[i] == c && c !in s[..i]
    ensures Find(s, c) == i
  {
    var r := Find(s, c);
    assert s[i] in s;
  }

  /** `rfind` returns the index of an occurrence that has none after it. */
  lemma RFindAt(s: string, c: char, j: nat)
    requires j < |s| && s[j] == c && c !in s[j + 1..]
    ensures RFind(s, c) == j
  {
    var r := RFind(s, c);
    assert s[j] in s;
  }

  /** Python's reading of a slice bound `i` for a sequence of length `n`. */
  function SliceBound(i: int, n: nat): (b: nat)
    ensures b <= n
    ensures 0 <= i <= n ==> b == i
    ensures i < 0 ==> b == if i + n < 0 then 0 else i + n
    ensures i > n ==> b == n
  {
    if i < 0 then (if i + n < 0 then 0 else i + n)
    else if i > n then n
    else i
  }

  /** Python's `s[start:stop]`: negative bounds count from the end, an empty range gives `""`. */
  function Slice(s: string, start: int, stop: int): string
  {
    var a, b := SliceBound(start, |s|), SliceBound(stop, |s|);
    if a < b then s[a..b] else []
  }
}
