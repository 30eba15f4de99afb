/**
  `parse_email` (app.py): splits a generated email into its subject and its
  body. The first line whose lower-cased text starts with `subject:` carries
  the subject after its first colon; every later line is the body. Both are
  stripped of surrounding whitespace, and without such a line both are empty.
 */
module EmailParser {
  import opened Wrappers
  import opened PyStr

  /** `line.lower().startswith("subject:")`. */
  predicate IsSubjectLine(line: string) {
    StartsWithLower(line, "subject:")
  }

  /** No line of `content` is a subject line. */
  predicate NoSubjectLine(content: string) {
    forall line :: line in SplitLines(content) ==> !IsSubjectLine(line)
  }

  /** The index of the first subject line among `lines`, if there is one. */
  function FirstSubjectLine(lines: seq<string>): (r: Option<nat>)
    ensures r.None? <==> forall j :: 0 <= j < |lines| ==> !IsSubjectLine(lines[j])
    ensures r.Some? ==> r.value < |lines| && IsSubjectLine(lines[r.value])
    ensures r.Some? ==> forall j :: 0 <= j < r.value ==> !IsSubjectLine(lines[j])
  {
    if lines == [] then None
    else if IsSubjectLine(lines[0]) then Some(0)
    else
      match FirstSubjectLine(lines[1..])
      case None => None
      case Some(i) => Some(i + 1)
  }

  /** On a subject line the first colon is the one that closes `subject:`. */
  lemma SubjectLineColon(line: string)
    requires IsSubjectLine(line)
    ensures AfterFirst(line, ':') == line[8..]
  {
    assert forall i :: 0 <= i < 7 ==> LowerChar(line[i]) == "subject:"[i];
    AfterFirstAt(line, ':', 7);
  }

  /**
    What `parse_email(content)` returns. The subject holds no line break and
    both parts are stripped; with no subject line both parts are empty.
   */
  function Parsed(content: string): (r: (string, string))
    ensures NoSubjectLine(content) ==> r == ("", "")
  {
    ParsedLines(SplitLines(content))
  }

  /** What `parse_email` returns for the lines of its input. */
  function ParsedLines(lines: seq<string>): (string, string) {
    match FirstSubjectLine(lines)
    case None => ("", "")
    case Some(i) => (SubjectText(lines[i]), BodyText(lines[i + 1..]))
  }

  /** `line.split(":", 1)[1].strip()`: the subject read from a subject line. */
  function SubjectText(line: string): string {
    Strip(AfterFirst(line, ':'))
  }

  /** `"\n".join(rest).strip()`: the body read from the lines after the subject line. */
  function BodyText(rest: seq<string>): string {
    Strip(Join("\n", rest))
  }

  /** The subject holds no line break, and subject and body are both stripped. */
  lemma ParsedShape(content: string)
    ensures var (subject, body) := Parsed(content);
      NoBreak(subject) && IsStripped(subject) && IsStripped(body)
  {
    var lines := SplitLines(content);
    match FirstSubjectLine(lines)
    case None =>
    case Some(i) =>
      var line := lines[i];
      SubjectLineColon(line);
      assert NoBreak(line[8..]) by {
        assert forall j :: 0 <= j < |line[8..]| ==> line[8..][j] == line[j + 8];
      }
      StripNoBreak(line[8..]);
  }

  /** The first subject line is the one a scan that skipped `lines[..i]` stops at. */
  lemma {:induction false} FirstSubjectLineAt(lines: seq<string>, i: nat)
    requires i < |lines| && IsSubjectLine(lines[i])
    requires forall j :: 0 <= j < i ==> !IsSubjectLine(lines[j])
    ensures FirstSubjectLine(lines) == Some(i)
    decreases i
  {
    if i > 0 {
      assert !IsSubjectLine(lines[0]);
      var rest := lines[1..];
      assert rest[i - 1] == lines[i];
      assert forall j :: 0 <= j < i - 1 ==> rest[j] == lines[j + 1];
      FirstSubjectLineAt(rest, i - 1);
    }
  }

  /** Once the first subject line is known, `parse_email` returns its subject and the lines after it. */
  lemma ParsedLinesAt(lines: seq<string>, i: nat)
    requires FirstSubjectLine(lines) == Some(i)
    ensures ParsedLines(lines) == (SubjectText(lines[i]), BodyText(lines[i + 1..]))
  {
    match FirstSubjectLine(lines)
    case Some(k) =>
      assert k == i;
      assert ParsedLines(lines) == (SubjectText(lines[k]), BodyText(lines[k + 1..]));
  }

  /** A scan that finds no subject line returns two empty strings. */
  lemma ParsedLinesNone(lines: seq<string>)
    requires forall j :: 0 <= j < |lines| ==> !IsSubjectLine(lines[j])
    ensures ParsedLines(lines) == ("", "")
  {
  }

  /** `parse_email`: scans the lines for the first subject line and stops there. */
  method ParseEmail(content: string) returns (subject: string, body: string)
    ensures (subject, body) == Parsed(content)
  {
    subject, body := "", "";
    var lines := SplitLines(content);
    var i := 0;
    while i < |lines|
      invariant 0 <= i <= |lines|
      invariant forall j :: 0 <= j < i ==> !IsSubjectLine(lines[j])
      invariant subject == "" && body == ""
    {
      if IsSubjectLine(lines[i]) {
        subject := SubjectText(lines[i]);
        body := BodyText(lines[i + 1..]);
        FirstSubjectLineAt(lines, i);
        ParsedLinesAt(lines, i);
        assert Parsed(content) == ParsedLines(lines);
        return;
      }
      i := i + 1;
    }
    ParsedLinesNone(lines);
    assert Parsed(content) == ParsedLines(lines);
  }

  /** The text shown for a parsed email (app.py:213, 216). */
  function Display(subject: string, body: string): string {
    "Subject: " + subject + "\n\n" + body
  }

  /** The first subject line after non-subject lines is found at its own index. */
  lemma FirstSubjectLineAfter(pre: seq<string>, line: string, post: seq<string>)
    requires forall l :: l in pre ==> !IsSubjectLine(l)
    requires IsSubjectLine(line)
    ensures FirstSubjectLine(pre + [line] + post) == Some(|pre|)
  {
    var lines := pre + [line] + post;
    assert lines[|pre|] == line;
    assert forall j :: 0 <= j < |pre| ==> lines[j] == pre[j];
  }

  /** The lines of `pre + line + tail` when `pre` ends a line and `tail` opens one. */
  lemma {:induction false} LinesAround(pre: string, line: string, tail: string)
    requires pre == [] || pre[|pre| - 1] == '\n'
    requires NoBreak(line) && line != []
    requires tail == [] || tail[0] == '\n'
    ensures SplitLines(pre + line + tail) == SplitLines(pre) + [line] + (if tail == [] then [] else SplitLines(tail[1..]))
  {
    var after := if tail == [] then [] else SplitLines(tail[1..]);
    assert pre + line + tail == pre + (line + tail);
    SplitLinesAppend(pre, line + tail);
    if tail == [] {
      assert line + tail == line;
      SplitLinesOne(line);
    } else {
      SplitLinesCons(line, tail);
    }
    assert SplitLines(line + tail) == [line] + after;
    ListAssoc(SplitLines(pre), [line], after);
  }

  /** After subject-free lines, a subject line is the first one, followed by the lines of the rest. */
  lemma {:induction false} SubjectLineAfter(pre: string, line: string, tail: string)
    requires pre == [] || pre[|pre| - 1] == '\n'
    requires NoSubjectLine(pre)
    requires NoBreak(line) && IsSubjectLine(line)
    requires tail == [] || tail[0] == '\n'
    ensures var lines, k := SplitLines(pre + line + tail), |SplitLines(pre)|;
      && FirstSubjectLine(lines) == Some(k)
      && lines[k] == line
      && lines[k + 1..] == SplitLines(if tail == [] then [] else tail[1..])
  {
    var before := SplitLines(pre);
    var after := SplitLines(if tail == [] then [] else tail[1..]);
    LinesAround(pre, line, tail);
    var lines := before + [line] + after;
    FirstSubjectLineAfter(before, line, after);
    assert lines[|before|] == line;
    assert lines[|before| + 1..] == after;
  }

  /** The body read from the lines after a line break is that text, stripped. */
  lemma BodyTextAfterBreak(tail: string)
    requires tail == [] || tail[0] == '\n'
    ensures BodyText(SplitLines(if tail == [] then [] else tail[1..])) == Strip(tail)
  {
    var rest := if tail == [] then [] else tail[1..];
    calc {
      BodyText(SplitLines(rest));
      Strip(Join("\n", SplitLines(rest)));
      { JoinSplitLinesStrip(rest); }
      Strip(rest);
      { if tail != [] { StripDropSpace(tail); } }
      Strip(tail);
    }
  }

  /**
    Lines before the first subject line are dropped, the subject is the rest
    of that line after `subject:`, and the body is everything after that
    line, later subject lines included; both are stripped.
   */
  lemma {:induction false} ParseAfterPrefix(pre: string, line: string, tail: string)
    requires pre == [] || pre[|pre| - 1] == '\n'
    requires NoSubjectLine(pre)
    requires NoBreak(line) && IsSubjectLine(line)
    requires tail == [] || tail[0] == '\n'
    ensures Parsed(pre + line + tail) == (Strip(line[8..]), Strip(tail))
  {
    var lines, k := SplitLines(pre + line + tail), |SplitLines(pre)|;
    SubjectLineAfter(pre, line, tail);
    ParsedLinesAt(lines, k);
    SubjectLineColon(line);
    BodyTextAfterBreak(tail);
    assert Parsed(pre + line + tail) == ParsedLines(lines);
  }

  /** The subject line of the display text is recognised whatever the subject. */
  lemma DisplaySubjectLine(s: string)
    ensures IsSubjectLine("Subject: " + s) && ("Subject: " + s)[8..] == " " + s
    ensures NoBreak(s) ==> NoBreak("Subject: " + s)
  {
    var line := "Subject: " + s;
    assert forall i :: 0 <= i < 8 ==> line[i] == "Subject:"[i];
    assert forall i :: 9 <= i < |line| ==> line[i] == s[i - 9];
  }

  /**
    The display text of a subject without line breaks and a body, both
    already stripped, parses back to the same pair, whatever whitespace
    follows it.
   */
  lemma {:induction false} DisplayPaddedRoundTrip(s: string, b: string, w: string)
    requires NoBreak(s) && IsStripped(s) && IsStripped(b) && AllSpace(w)
    ensures Parsed(Display(s, b) + w) == (s, b)
  {
    var line := "Subject: " + s;
    var tail := "\n\n" + b + w;
    DisplaySubjectLine(s);
    assert NoSubjectLine([]);
    assert Display(s, b) + w == [] + line + tail;
    ParseAfterPrefix([], line, tail);
    DisplayPartsStrip(s, b, w);
  }

  /** The separators `Display` puts around the subject and the body are stripped away. */
  lemma {:induction false} DisplayPartsStrip(s: string, b: string, w: string)
    requires IsStripped(s) && IsStripped(b) && AllSpace(w)
    ensures Strip(" " + s) == s && Strip("\n\n" + b + w) == b
  {
    StripPadded(" ", s, []);
    assert " " + s + [] == " " + s;
    StripPadded("\n\n", b, w);
  }

  /** `parse_email` reads back the subject and body that app.py:213 and 216 display. */
  lemma {:induction false} DisplayRoundTrip(s: string, b: string)
    requires NoBreak(s) && IsStripped(s) && IsStripped(b)
    ensures Parsed(Display(s, b)) == (s, b)
  {
    DisplayPaddedRoundTrip(s, b, []);
    assert Display(s, b) + [] == Display(s, b);
  }

  /** Re-parsing the text shown for a parsed email gives the same pair. */
  lemma DisplayFixedPoint(content: string)
    ensures Parsed(Display(Parsed(content).0, Parsed(content).1)) == Parsed(content)
  {
    var (s, b) := Parsed(content);
    ParsedShape(content);
    DisplayRoundTrip(s, b);
  }
}
