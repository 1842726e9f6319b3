/** Pinned requirements survive the next compaction: what pinnedFromCompaction reads out of a
    summary message is what the summary pinned, exactly unless a requirement quotes the end mark. */
module PinnedRoundTrip {
  import opened Sequences
  import opened Numbers
  import opened Texts
  import opened Clip
  import opened Messages
  import opened Requirements
  import opened Summary

  /** summaryMessage. */
  function SummaryMessage(summary: Text): Message {
    Message(User, [TextBlock(WRAP_START + [NEWLINE] + summary + WRAP_END)], true, false)
  }

  ghost predicate Contains(t: Text, p: Text) {
    exists k: nat :: OccursAt(t, p, k)
  }

  function Terminated(lines: seq<Text>): Text {
    if lines == [] then [] else lines[0] + [NEWLINE] + Terminated(lines[1..])
  }

  ghost predicate OneLine(t: Text) {
    forall i | 0 <= i < |t| :: t[i] != NEWLINE
  }

  // ---------- searching line by line ----------

  lemma {:induction false} IndexFound(t: Text, p: Text, from: nat, k: nat)
    requires from <= k && OccursAt(t, p, k)
    requires forall j: nat | from <= j < k :: !OccursAt(t, p, j)
    ensures IndexFrom(t, p, from) == k
    decreases k - from
  {
    if from < k {
      IndexFound(t, p, from + 1, k);
    }
  }

  /** A one-line pattern that is not in a line does not occur from that line's start to its end. */
  lemma LineFree(before: Text, line: Text, after: Text, p: Text, j: nat)
    requires p != [] && OneLine(p) && |before| <= j <= |before| + |line|
    requires OccursAt(before + line + [NEWLINE] + after, p, j)
    ensures OccursAt(line, p, j - |before|)
  {
    var t := before + line + [NEWLINE] + after;
    var end := |before| + |line|;
    assert t[end] == NEWLINE;
    assert forall i | j <= i < j + |p| :: t[i] == p[i - j];
    assert t[j..j + |p|] == line[j - |before|..j - |before| + |p|];
  }

  lemma {:induction false} LinesFree(before: Text, lines: seq<Text>, after: Text, p: Text)
    requires p != [] && OneLine(p)
    requires forall i | 0 <= i < |lines| :: !Contains(lines[i], p)
    ensures forall j: nat | |before| <= j < |before| + |Terminated(lines)| ::
              !OccursAt(before + Terminated(lines) + after, p, j)
    decreases |lines|
  {
    if lines != [] {
      var rest := Terminated(lines[1..]) + after;
      var t := before + Terminated(lines) + after;
      assert t == before + lines[0] + [NEWLINE] + rest;
      assert t == (before + lines[0] + [NEWLINE]) + Terminated(lines[1..]) + after;
      LinesFree(before + lines[0] + [NEWLINE], lines[1..], after, p);
      forall j: nat | |before| <= j <= |before| + |lines[0]|
        ensures !OccursAt(t, p, j)
      {
        if OccursAt(t, p, j) {
          LineFree(before, lines[0], rest, p, j);
        }
      }
    }
  }

  // ---------- splitting into lines ----------

  lemma {:induction false} SplitOneLine(t: Text)
    requires OneLine(t)
    ensures Split(t) == [t]
  {
    if t != [] {
      SplitOneLine(t[1..]);
      assert [t[0]] + t[1..] == t;
    }
  }

  lemma {:induction false} SplitLine(line: Text, after: Text)
    requires OneLine(line)
    ensures Split(line + [NEWLINE] + after) == [line] + Split(after)
  {
    if line == [] {
      assert ([] + [NEWLINE] + after)[1..] == after;
    } else {
      SplitLine(line[1..], after);
      assert (line + [NEWLINE] + after)[1..] == line[1..] + [NEWLINE] + after;
      assert [line[0]] + line[1..] == line;
    }
  }

  lemma {:induction false} ParseTerminated(lines: seq<Text>, last: Text)
    requires OneLine(last) && forall i | 0 <= i < |lines| :: OneLine(lines[i])
    ensures ParseLines(Split(Terminated(lines) + last)) == ParseLines(lines) + ParseLine(last)
  {
    hide ParseLine;
    if lines == [] {
      SplitOneLine(last);
      assert Terminated(lines) + last == last;
      assert ParseLines([last]) == ParseLine(last) + ParseLines([]);
    } else {
      var after := Terminated(lines[1..]) + last;
      assert Terminated(lines) + last == lines[0] + [NEWLINE] + after;
      SplitLine(lines[0], after);
      ParseTerminated(lines[1..], last);
      assert ([lines[0]] + Split(after))[1..] == Split(after);
    }
  }

  // ---------- quoted lines ----------

  lemma QuotedIsOneLine(s: Text)
    ensures OneLine(Quoted(s)) && OneLine(BULLET + Quoted(s))
  {
    EscapedIsOneLine(s, |s|);
  }

  lemma {:induction false} EscapedIsOneLine(s: Text, n: nat)
    requires n <= |s|
    ensures OneLine(EscapeTo(s, n))
  {
    if n > 0 {
      EscapedIsOneLine(s, n - 1);
      assert OneLine(EscapeAt(s, n - 1));
    }
  }

  lemma ParseWholeLine(s: Text)
    requires !Blank(s)
    ensures ParseLine(BULLET + Quoted(s)) == [Trim(s)]
  {
    hide ParseString, Quoted, Trim;
    QuoteRoundTrip(s);
    TrimNonBlank(s);
    assert (BULLET + Quoted(s))[2..] == Quoted(s);
    QuotedLength(s);
  }

  lemma QuotedLength(s: Text)
    ensures |Quoted(s)| == |Escape(s)| + 2 && Quoted(s)[0] == QUOTE
  {
  }

  /** A cut escape is never a complete string body. */
  lemma {:induction false} CutEscapeMalformed(s: Text, n: nat)
    requires n <= |Escape(s)|
    ensures ParseBody(Escape(s)[..n]) == Malformed
  {
    hide Escape, EscapeUnit;
    if s == [] {
      EscapeEmpty();
    } else if n > 0 {
      var width := EscapeFirst(s);
      var head := Escape(s[..width]);
      if n < |head| {
        assert Escape(s)[..n] == head[..n];
        CutHeadMalformed(s, width, n);
      } else {
        CutEscapeMalformed(s[width..], n - |head|);
        var tail := Escape(s[width..])[..n - |head|];
        assert Escape(s)[..n] == head + tail;
        if width == 1 {
          ParseEscapedUnit(s[0], tail);
        } else {
          ParseRawPair(s[0], s[1], tail);
          assert s[..2] == [s[0], s[1]];
        }
      }
    }
  }

  lemma CutHeadMalformed(s: Text, width: nat, n: nat)
    requires s != [] && 1 <= width <= |s| && (width > 1 ==> width == 2 && IsHigh(s[0]) && IsLow(s[1]))
    requires Escape(s[..width]) == if width == 1 then EscapeUnit(s[0]) else s[..width]
    requires 0 < n < |Escape(s[..width])|
    ensures ParseBody(Escape(s[..width])[..n]) == Malformed
  {
    hide Escape;
    var cut := Escape(s[..width])[..n];
    if width == 2 {
      assert cut == [s[0]] && cut[1..] == [];
    } else if n == 1 {
      assert |cut| == 1;
    } else {
      assert cut[0] == BACKSLASH && cut[1] == 0x75 && |cut[2..]| < 4;
    }
  }

  // ---------- the marks ----------

  /** The lines a summary message starts with, and the mark that ends its pinned block. */
  datatype Marks = Marks(wrap: Text, start: Text, end: Text) {
    ghost predicate Valid() {
      && OneLine(wrap) && OneLine(start) && OneLine(end)
      && |wrap| < |start| && |end| >= 2 && end[0] != BULLET[0] && end[0] != BULLET[1]
      && !Contains(wrap, end) && !Contains(start, end)
    }
  }

  /** A pinned line cut at an end mark inside its quoting yields nothing. */
  lemma ParseCutLine(s: Text, end: Text, k: nat)
    requires |end| >= 2 && OccursAt(BULLET + Quoted(s), end, k)
    ensures ParseLine((BULLET + Quoted(s))[..k]) == [] && OneLine((BULLET + Quoted(s))[..k])
  {
    hide Escape, ParseBody;
    QuotedLength(s);
    QuotedIsOneLine(s);
    var cut := (BULLET + Quoted(s))[..k];
    if k > 2 {
      assert cut[2..] == [QUOTE] + Escape(s)[..k - 3];
      assert cut[2..][1..] == Escape(s)[..k - 3];
      CutEscapeMalformed(s, k - 3);
    }
  }

  // ---------- where the marks are found ----------

  /** How many requirements precede the first whose quoting holds the end mark. */
  ghost function CutAt(values: seq<Text>, end: Text): (i: nat)
    ensures i <= |values|
  {
    if values == [] || Contains(Quoted(values[0]), end) then 0 else 1 + CutAt(values[1..], end)
  }

  lemma {:induction false} CutAtFirst(values: seq<Text>, end: Text)
    ensures var i := CutAt(values, end);
            && (forall j | 0 <= j < i :: !Contains(Quoted(values[j]), end))
            && (i < |values| ==> Contains(Quoted(values[i]), end))
  {
    hide Contains, Quoted;
    if values != [] && !Contains(Quoted(values[0]), end) {
      CutAtFirst(values[1..], end);
    }
  }

  lemma {:induction false} FirstOccurrence(t: Text, p: Text, from: nat, at: nat) returns (k: nat)
    requires from <= at && OccursAt(t, p, at)
    ensures from <= k <= at && OccursAt(t, p, k) && forall j: nat | from <= j < k :: !OccursAt(t, p, j)
    decreases at - from
  {
    if OccursAt(t, p, from) {
      k := from;
    } else {
      k := FirstOccurrence(t, p, from + 1, at);
    }
  }

  lemma MarkStarts(t: Text, p: Text, k: nat)
    requires |p| >= 2 && OccursAt(t, p, k)
    ensures t[k] == p[0] && t[k + 1] == p[1]
  {
    assert t[k..k + |p|][0] == t[k] && t[k..k + |p|][1] == t[k + 1];
  }

  /** The bullet before a quoted requirement adds no end mark. */
  lemma BulletAddsNoMark(quoted: Text, end: Text)
    requires |end| >= 2 && end[0] != BULLET[0] && end[0] != BULLET[1]
    ensures Contains(BULLET + quoted, end) <==> Contains(quoted, end)
  {
    var line := BULLET + quoted;
    if k: nat :| OccursAt(line, end, k) {
      MarkStarts(line, end, k);
      assert k >= 2;
      SliceAfter(BULLET, quoted, k - 2, |end|);
      assert OccursAt(quoted, end, k - 2);
    }
    if k: nat :| OccursAt(quoted, end, k) {
      SliceAfter(BULLET, quoted, k, |end|);
      assert OccursAt(line, end, k + 2);
    }
  }

  lemma SliceAfter(a: Text, b: Text, k: nat, n: nat)
    requires k + n <= |b|
    ensures (a + b)[|a| + k..|a| + k + n] == b[k..k + n]
  {
    assert (a + b)[|a|..] == b;
  }

  lemma {:induction false} TerminatedConcat(a: seq<Text>, b: seq<Text>)
    ensures Terminated(a + b) == Terminated(a) + Terminated(b)
  {
    if a == [] {
      assert a + b == b;
    } else {
      assert (a + b)[1..] == a[1..] + b;
      TerminatedConcat(a[1..], b);
    }
  }

  lemma LinesThen(lines: seq<Text>, i: nat, after: Text)
    requires i <= |lines|
    ensures Terminated(lines) + after == Terminated(lines[..i]) + (Terminated(lines[i..]) + after)
  {
    hide Terminated;
    assert lines == lines[..i] + lines[i..];
    TerminatedConcat(lines[..i], lines[i..]);
    JoinAssociates(Terminated(lines[..i]), Terminated(lines[i..]), after);
  }

  lemma LineThen(lines: seq<Text>, i: nat, after: Text)
    requires i < |lines|
    ensures Terminated(lines[i..]) + after == lines[i] + [NEWLINE] + (Terminated(lines[i + 1..]) + after)
  {
    assert lines[i..][1..] == lines[i + 1..];
    assert Terminated(lines[i..]) == lines[i] + [NEWLINE] + Terminated(lines[i + 1..]);
    hide Terminated;
    JoinAssociates(lines[i] + [NEWLINE], Terminated(lines[i + 1..]), after);
  }

  /** A mark after some lines is found there, or inside the first line that holds one, at k. */
  lemma MarkFound(lines: seq<Text>, i: nat, p: Text, rest: Text) returns (k: nat)
    requires p != [] && OneLine(p) && i <= |lines|
    requires forall j | 0 <= j < i :: !Contains(lines[j], p)
    requires i < |lines| ==> Contains(lines[i], p)
    ensures i < |lines| ==> OccursAt(lines[i], p, k)
    ensures var t := Terminated(lines) + (p + rest);
            var end := IndexOf(t, p);
            && 0 <= end <= |t|
            && t[..end] == Terminated(lines[..i]) + (if i < |lines| then lines[i][..k] else [])
  {
    hide Terminated, Contains, OneLine, OccursAt;
    var before, tail := Terminated(lines[..i]), Terminated(lines[i..]) + (p + rest);
    LinesThen(lines, i, p + rest);
    LinesFree([], lines[..i], tail, p);
    assert [] + before + tail == before + tail;
    if i == |lines| {
      k := 0;
      TerminatedNone(lines);
      assert tail == p + rest;
      MarkAfter(before, p, rest);
    } else {
      var after := Terminated(lines[i + 1..]) + (p + rest);
      LineThen(lines, i, p + rest);
      assert before + tail == before + lines[i] + [NEWLINE] + after;
      k := MarkInLine(before, lines[i], after, p);
    }
  }

  lemma TerminatedNone(lines: seq<Text>)
    ensures Terminated(lines[|lines|..]) == [] && lines[..|lines|] == lines
  {
  }

  lemma MarkAfter(before: Text, p: Text, rest: Text)
    requires forall j: nat | j < |before| :: !OccursAt(before + (p + rest), p, j)
    ensures IndexOf(before + (p + rest), p) == |before| && (before + (p + rest))[..|before|] == before
  {
    assert (before + (p + rest))[|before|..|before| + |p|] == p;
    IndexFound(before + (p + rest), p, 0, |before|);
  }

  lemma MarkInLine(before: Text, line: Text, after: Text, p: Text) returns (k: nat)
    requires p != [] && OneLine(p) && Contains(line, p)
    requires forall j: nat | j < |before| :: !OccursAt(before + line + [NEWLINE] + after, p, j)
    ensures OccursAt(line, p, k)
    ensures var t := before + line + [NEWLINE] + after;
            IndexOf(t, p) == |before| + k && |before| + k <= |t| && t[..|before| + k] == before + line[..k]
  {
    var at: nat :| OccursAt(line, p, at);
    k := FirstOccurrence(line, p, 0, at);
    var t := before + line + [NEWLINE] + after;
    assert t[|before| + k..|before| + k + |p|] == line[k..k + |p|];
    forall j: nat | j < |before| + k
      ensures !OccursAt(t, p, j)
    {
      if j >= |before| && OccursAt(t, p, j) {
        LineFree(before, line, after, p, j);
      }
    }
    IndexFound(t, p, 0, |before| + k);
  }

  /** A mark longer than the first line is found at the start of the second. */
  lemma SecondLineFound(first: Text, p: Text, after: Text)
    requires p != [] && OneLine(p) && |p| > |first|
    ensures IndexOf(first + [NEWLINE] + p + after, p) == |first| + 1
  {
    var t := first + [NEWLINE] + p + after;
    assert t == [] + first + [NEWLINE] + (p + after);
    forall j: nat | j <= |first|
      ensures !OccursAt(t, p, j)
    {
      if OccursAt(t, p, j) {
        LineFree([], first, p + after, p, j);
      }
    }
    assert t[|first| + 1..|first| + 1 + |p|] == p;
    IndexFound(t, p, 0, |first| + 1);
  }

  lemma TerminatedHeading(first: Text, second: Text, kept: seq<Text>)
    ensures Terminated([first, second] + kept) == first + [NEWLINE] + second + ([NEWLINE] + Terminated(kept))
  {
    var lines := [first, second] + kept;
    assert lines[1..] == [second] + kept && lines[1..][1..] == kept;
  }

  /** The text between the second line and the end mark. */
  lemma BetweenMarks(first: Text, second: Text, kept: seq<Text>, cut: Text, t: Text, end: nat)
    requires end <= |t| && t[..end] == Terminated([first, second] + kept) + cut
    ensures var from := |first| + 1 + |second|;
            from <= end && t[from..end] == [] + [NEWLINE] + (Terminated(kept) + cut)
  {
    TerminatedHeading(first, second, kept);
    var from := |first| + 1 + |second|;
    assert t[from..end] == t[..end][from..];
  }

  // ---------- reading a summary back ----------

  function Heading(marks: Marks, values: seq<Text>): seq<Text> {
    [marks.wrap, marks.start] + PinnedLines(values)
  }

  function TrimAll(values: seq<Text>): (r: seq<Text>)
    ensures |r| == |values|
  {
    if values == [] then [] else [Trim(values[0])] + TrimAll(values[1..])
  }

  lemma HeadingAt(marks: Marks, values: seq<Text>, i: nat)
    requires i < |values|
    ensures i + 2 < |Heading(marks, values)| && Heading(marks, values)[i + 2] == BULLET + Quoted(values[i])
  {
    hide Quoted;
  }

  lemma HeadingLine(marks: Marks, values: seq<Text>, i: nat)
    requires marks.Valid() && i < |values| + 2
    ensures |Heading(marks, values)| == |values| + 2
    ensures var cut := CutAt(values, marks.end);
            && (i < cut + 2 ==> !Contains(Heading(marks, values)[i], marks.end))
            && (i == cut + 2 ==> Contains(Heading(marks, values)[i], marks.end))
  {
    hide Quoted, CutAt, Contains;
    CutAtFirst(values, marks.end);
    if i >= 2 {
      HeadingAt(marks, values, i - 2);
      BulletAddsNoMark(Quoted(values[i - 2]), marks.end);
    }
  }

  lemma ParseEmptyLine()
    ensures ParseLine([]) == []
  {
  }

  lemma {:induction false} ParsePinnedLines(values: seq<Text>)
    requires forall i | 0 <= i < |values| :: !Blank(values[i])
    ensures ParseLines(PinnedLines(values)) == TrimAll(values)
  {
    hide ParseLine, Quoted, Trim, Blank;
    if values != [] {
      assert PinnedLines(values)[1..] == PinnedLines(values[1..]);
      ParsePinnedLines(values[1..]);
      ParseWholeLine(values[0]);
    }
  }

  lemma StartFound(marks: Marks, values: seq<Text>, rest: Text)
    requires marks.Valid()
    ensures IndexOf(Terminated(Heading(marks, values)) + rest, marks.start) == |marks.wrap| + 1
  {
    hide IndexOf, PinnedLines, Terminated;
    var lines := Terminated(PinnedLines(values));
    TerminatedHeading(marks.wrap, marks.start, PinnedLines(values));
    Regroup(marks.wrap + [NEWLINE] + marks.start, [NEWLINE], lines, rest);
    SecondLineFound(marks.wrap, marks.start, [NEWLINE] + lines + rest);
  }

  lemma Regroup(a: Text, b: Text, c: Text, d: Text)
    ensures a + (b + c) + d == a + (b + c + d)
  {
  }

  lemma HeadingPrefix(marks: Marks, values: seq<Text>, i: nat)
    requires i <= |values|
    ensures |Heading(marks, values)| == |values| + 2
    ensures Heading(marks, values)[..i + 2] == [marks.wrap, marks.start] + PinnedLines(values[..i])
  {
    hide Quoted;
  }

  lemma EndFound(marks: Marks, values: seq<Text>, rest: Text) returns (cut: Text)
    requires marks.Valid()
    ensures var t := Terminated(Heading(marks, values)) + (marks.end + rest);
            var end := IndexOf(t, marks.end);
            && 0 <= end <= |t|
            && t[..end] == Terminated([marks.wrap, marks.start] + PinnedLines(values[..CutAt(values, marks.end)])) + cut
            && OneLine(cut) && ParseLine(cut) == []
  {
    hide CutAt, ParseLine, IndexOf, PinnedLines, Terminated, Contains, OneLine, Quoted;
    var i := CutAt(values, marks.end);
    forall j: nat | j < |values| + 2
      ensures j < i + 2 ==> !Contains(Heading(marks, values)[j], marks.end)
      ensures j == i + 2 ==> Contains(Heading(marks, values)[j], marks.end)
    {
      HeadingLine(marks, values, j);
    }
    HeadingPrefix(marks, values, i);
    var k := MarkFound(Heading(marks, values), i + 2, marks.end, rest);
    if i < |values| {
      cut := Heading(marks, values)[i + 2][..k];
      HeadingAt(marks, values, i);
      ParseCutLine(values[i], marks.end, k);
    } else {
      cut := [];
      ParseEmptyLine();
      OneLineEmpty();
    }
  }

  lemma OneLineEmpty()
    ensures OneLine([])
  {
  }

  lemma ParseAfterEmpty(lines: seq<Text>)
    ensures ParseLines([[]] + lines) == ParseLines(lines)
  {
    assert ([[]] + lines)[1..] == lines;
    ParseEmptyLine();
  }

  lemma ParseBetween(values: seq<Text>, cut: Text)
    requires forall i | 0 <= i < |values| :: !Blank(values[i])
    requires OneLine(cut) && ParseLine(cut) == []
    ensures ParseLines(Split([] + [NEWLINE] + (Terminated(PinnedLines(values)) + cut))) == TrimAll(values)
  {
    hide Split, Quoted, ParseString;
    var kept := PinnedLines(values);
    forall j | 0 <= j < |kept| ensures OneLine(kept[j]) {
      QuotedIsOneLine(values[j]);
    }
    SplitLine([], Terminated(kept) + cut);
    ParseTerminated(kept, cut);
    ParseAfterEmpty(Split(Terminated(kept) + cut));
    ParsePinnedLines(values);
  }

  /** The requirements before the first that holds the end mark, trimmed. */
  ghost function Recoverable(values: seq<Text>, end: Text): seq<Text> {
    TrimAll(values[..CutAt(values, end)])
  }

  /** What is recovered from a text laid out like a summary message: the requirements before
      the first that holds the end mark. */
  lemma PinnedRecovered(marks: Marks, values: seq<Text>, rest: Text)
    requires marks.Valid() && forall i | 0 <= i < |values| :: !Blank(values[i])
    ensures PinnedByMarks(Terminated(Heading(marks, values)) + (marks.end + rest), marks.start, marks.end)
         == Recoverable(values, marks.end)
  {
    hide CutAt, ParseLine, PinnedBetween, PinnedByMarks, IndexOf, PinnedLines, TrimAll, Heading, Terminated, OneLine, Contains;
    var i := CutAt(values, marks.end);
    var t := Terminated(Heading(marks, values)) + (marks.end + rest);
    StartFound(marks, values, marks.end + rest);
    var cut := EndFound(marks, values, rest);
    SlicedBetween(marks, values[..i], cut, t, IndexOf(t, marks.end));
    ReadBetween(t, marks.start, marks.end);
  }

  lemma ReadBetween(t: Text, start: Text, end: Text)
    requires start != [] && 0 <= IndexOf(t, start) && IndexOf(t, start) + |start| <= IndexOf(t, end)
    ensures PinnedByMarks(t, start, end) == PinnedBetween(t, IndexOf(t, start) + |start|, IndexOf(t, end))
  {
    hide IndexOf, PinnedBetween;
  }

  lemma SlicedBetween(marks: Marks, values: seq<Text>, cut: Text, t: Text, to: nat)
    requires forall i | 0 <= i < |values| :: !Blank(values[i])
    requires to <= |t| && t[..to] == Terminated([marks.wrap, marks.start] + PinnedLines(values)) + cut
    requires OneLine(cut) && ParseLine(cut) == []
    ensures var from := |marks.wrap| + 1 + |marks.start|;
            from <= to && PinnedBetween(t, from, to) == TrimAll(values)
  {
    hide ParseLine, ParseLines, Split, PinnedLines, TrimAll, Terminated, OneLine, Blank;
    BetweenMarks(marks.wrap, marks.start, PinnedLines(values), cut, t, to);
    ParseBetween(values, cut);
  }

  // ---------- the marks and the layout of a real summary ----------

  const MARKS := Marks(WRAP_START, PINNED_START, PINNED_END)

  lemma OneLineLit(s: string)
    requires Printable(s)
    ensures OneLine(Lit(s))
    ensures '[' !in s ==> 0x5b !in Lit(s)
  {
    forall i | 0 <= i < |Lit(s)| ensures Lit(s)[i] != NEWLINE && ('[' !in s ==> Lit(s)[i] != 0x5b) {
      assert s[i] in s;
    }
  }

  lemma EndMarkText()
    ensures OneLine(PINNED_END) && |PINNED_END| == 30 && PINNED_END[0] == 0x5b && PINNED_END[1] == 0x45
  {
    assert "[End pinned "[0] == '[' && "[End pinned "[1] == 'E';
    OneLineLit("[End pinned ");
    OneLineLit("user ");
    OneLineLit("requirements]");
  }

  lemma WrapStartText()
    ensures OneLine(WRAP_START) && |WRAP_START| == 32 && WRAP_START[0] == 0x5b && WRAP_START[1] == 0x43
    ensures forall i | 1 <= i < 32 :: WRAP_START[i] != 0x5b
  {
    assert "[Compacted "[0] == '[' && "[Compacted "[1] == 'C';
    OneLineLit("[Compacted ");
    OneLineLit("conversation ");
    OneLineLit("context]");
    assert forall i | 1 <= i < 11 :: "[Compacted "[i] != '[';
  }

  lemma PinnedStartText()
    ensures OneLine(PINNED_START) && |PINNED_START| == 45 && PINNED_START[0] == 0x5b && PINNED_START[1] == 0x50
    ensures forall i | 1 <= i < 45 :: PINNED_START[i] != 0x5b
  {
    assert "[Pinned user "[0] == '[' && "[Pinned user "[1] == 'P';
    OneLineLit("[Pinned user ");
    OneLineLit("requirements; ");
    OneLineLit("preserve ");
    OneLineLit("verbatim]");
    assert forall i | 1 <= i < 13 :: "[Pinned user "[i] != '[';
  }

  lemma NoEndMark(t: Text, end: Text)
    requires |t| >= 2 && |end| >= 2 && end[0] == 0x5b && t[1] != end[1] && forall i | 1 <= i < |t| :: t[i] != 0x5b
    ensures !Contains(t, end)
  {
    forall k: nat
      ensures !OccursAt(t, end, k)
    {
      if OccursAt(t, end, k) {
        MarkStarts(t, end, k);
      }
    }
  }

  lemma MarksValid()
    ensures MARKS.Valid()
  {
    hide Lit, Contains;
    WrapStartText();
    PinnedStartText();
    EndMarkText();
    NoEndMark(WRAP_START, PINNED_END);
    NoEndMark(PINNED_START, PINNED_END);
  }

  lemma {:induction false} LinesTerminated(lines: seq<Text>)
    requires lines != []
    ensures Lines(lines) + [NEWLINE] == Terminated(lines)
  {
    if |lines| > 1 {
      LinesTerminated(lines[1..]);
      JoinAssociates(lines[0] + [NEWLINE], Lines(lines[1..]), [NEWLINE]);
    } else {
      assert Terminated(lines) == lines[0] + [NEWLINE] + Terminated([]);
    }
  }

  /** Concatenations of the summary message regrouped into the recovered layout. */
  lemma Layout(wrap: Text, start: Text, block: Text, end: Text, after: Text, n: Text)
    ensures wrap + n + (start + n + block + n + end + after) == wrap + n + start + (n + (block + n)) + end + after
  {
  }

  lemma HeaderLayout(pinned: seq<Text>, refs: Text)
    requires pinned != []
    ensures WRAP_START + [NEWLINE] + (PinnedHeader(pinned) + refs)
         == Terminated(Heading(MARKS, pinned)) + PINNED_END + ([NEWLINE, NEWLINE] + refs)
  {
    hide Lit, PinnedLines, Lines;
    var lines := PinnedLines(pinned);
    LinesTerminated(lines);
    TerminatedHeading(WRAP_START, PINNED_START, lines);
    Layout(WRAP_START, PINNED_START, Lines(lines), PINNED_END, [NEWLINE, NEWLINE] + refs, [NEWLINE]);
    JoinAssociates(PINNED_START + [NEWLINE] + Lines(lines) + [NEWLINE] + PINNED_END, [NEWLINE, NEWLINE], refs);
  }

  /** A summary starts with its header, whatever trimming removes behind it. */
  lemma SummaryStartsWithHeader(header: Text, prefix: Text, generated: Text, budget: nat)
    requires header != [] && prefix != [] && !IsSpace(header[0]) && !IsSpace(prefix[0])
    ensures header <= Assembled(header, prefix, generated, budget)
  {
    hide Trim, Clipped, TextTokens, IsSpace;
    var body := Clipped(SUMMARY, generated, Max(0, budget - TextTokens(header) - TextTokens(prefix)));
    assert header + prefix + body == header + [prefix[0]] + (prefix[1..] + body);
    TrimKeeps(header, prefix[0], prefix[1..] + body);
  }

  lemma EdgesNotSpace()
    ensures WRAP_START != [] && !IsSpace(WRAP_START[0])
    ensures WRAP_END != [] && !IsSpace(WRAP_END[|WRAP_END| - 1])
    ensures PINNED_START != [] && !IsSpace(PINNED_START[0])
    ensures SUMMARY_PREFIX != [] && !IsSpace(SUMMARY_PREFIX[0])
  {
    WrapStartText();
    PinnedStartText();
    assert "[Conversation "[0] == '[';
    assert "context]"[7] == ']';
  }

  lemma HeaderStarts(pinned: seq<Text>, refs: Text)
    requires pinned != []
    ensures PinnedHeader(pinned) + refs != [] && (PinnedHeader(pinned) + refs)[0] == PINNED_START[0]
  {
    hide Lines, PinnedLines;
    PinnedStartText();
  }

  lemma MessageText(summary: Text)
    ensures TextContent(SummaryMessage(summary)) == WRAP_START + [NEWLINE] + summary + WRAP_END
  {
    hide Lit, Trim, IsSpace;
    EdgesNotSpace();
    var text := WRAP_START + [NEWLINE] + summary + WRAP_END;
    SingleText(text);
    TrimOfTrimmed(text);
  }

  lemma SingleText(text: Text)
    ensures JoinTexts([TextBlock(text)]) == text
  {
    assert [TextBlock(text)][1..] == [];
    assert JoinTexts([]) == [];
  }

  lemma Extend(left: Text, header: Text, y: Text, z: Text, more: Text, right: Text)
    requires left + header == y + z
    ensures left + (header + more) + right == y + (z + (more + right))
  {
    assert left + (header + more) + right == (left + header) + (more + right);
    assert y + (z + (more + right)) == (y + z) + (more + right);
  }

  lemma LaidOut(pinned: seq<Text>, refs: Text, summary: Text) returns (rest: Text)
    requires pinned != [] && PinnedHeader(pinned) + refs <= summary
    ensures WRAP_START + [NEWLINE] + summary + WRAP_END == Terminated(Heading(MARKS, pinned)) + PINNED_END + rest
  {
    hide *;
    HeaderLayout(pinned, refs);
    rest := Extended(WRAP_START + [NEWLINE], PinnedHeader(pinned) + refs,
                     Terminated(Heading(MARKS, pinned)) + PINNED_END, [NEWLINE, NEWLINE] + refs, summary, WRAP_END);
  }

  lemma Extended(left: Text, header: Text, y: Text, z: Text, summary: Text, right: Text) returns (rest: Text)
    requires left + header == y + z && header <= summary
    ensures left + summary + right == y + rest
  {
    var more := summary[|header|..];
    assert summary == header + more;
    rest := z + (more + right);
    Extend(left, header, y, z, more, right);
  }

  lemma SummaryHasHeader(generated: Text, pinned: seq<Text>, messages: seq<Message>, budget: nat)
    requires pinned != []
    ensures PinnedHeader(pinned) + Clipped(SUMMARY, ReferenceText(messages), ReferenceBudget(budget))
         <= SummaryText(generated, pinned, messages, budget)
  {
    hide Clipped, PinnedHeader, ReferenceText, Assembled, IsSpace, Lit;
    EdgesNotSpace();
    HeaderStarts(pinned, Clipped(SUMMARY, ReferenceText(messages), ReferenceBudget(budget)));
    SummaryStartsWithHeader(SummaryHeader(pinned, messages, budget), SUMMARY_PREFIX, generated, budget);
  }

  /** The text of a summary message, laid out line by line. */
  lemma SummaryMessageText(generated: Text, pinned: seq<Text>, messages: seq<Message>, budget: nat) returns (rest: Text)
    requires pinned != []
    ensures TextContent(SummaryMessage(SummaryText(generated, pinned, messages, budget)))
         == Terminated(Heading(MARKS, pinned)) + PINNED_END + rest
  {
    hide *;
    SummaryHasHeader(generated, pinned, messages, budget);
    var summary := SummaryText(generated, pinned, messages, budget);
    MessageText(summary);
    rest := LaidOut(pinned, Clipped(SUMMARY, ReferenceText(messages), ReferenceBudget(budget)), summary);
  }

  lemma OneMessage(m: Message)
    ensures AllRequirements([m]) == MessageRequirements(m)
  {
    hide MessageRequirements;
    assert [m][..0] == [];
    assert AllRequirements([m]) == AllRequirements([]) + MessageRequirements(m);
  }

  lemma InternalRequirements(m: Message)
    requires m.role == User && m.internal && TextContent(m) != []
    ensures MessageRequirements(m) == PinnedByMarks(TextContent(m), PINNED_START, PINNED_END)
  {
    hide PinnedByMarks, TextContent, Lit;
  }

  /** Reading a summary message back yields its pinned requirements, up to the first that
      holds the end mark. */
  lemma SummaryReadBack(generated: Text, pinned: seq<Text>, messages: seq<Message>, budget: nat)
    requires pinned != [] && forall i | 0 <= i < |pinned| :: !Blank(pinned[i])
    ensures AllRequirements([SummaryMessage(SummaryText(generated, pinned, messages, budget))])
         == Recoverable(pinned, PINNED_END)
  {
    hide *;
    MarksValid();
    var m := SummaryMessage(SummaryText(generated, pinned, messages, budget));
    var rest := SummaryMessageText(generated, pinned, messages, budget);
    PinnedRecovered(MARKS, pinned, rest);
    JoinAssociates(Terminated(Heading(MARKS, pinned)), PINNED_END, rest);
    MarkFields();
    NonEmptyText(Terminated(Heading(MARKS, pinned)), rest);
    SummaryMessageKind(SummaryText(generated, pinned, messages, budget));
    InternalRequirements(m);
    OneMessage(m);
  }

  lemma MarkFields()
    ensures MARKS.start == PINNED_START && MARKS.end == PINNED_END
  {
  }

  lemma NonEmptyText(before: Text, rest: Text)
    ensures before + PINNED_END + rest != []
  {
    EndMarkText();
  }

  lemma SummaryMessageKind(summary: Text)
    ensures SummaryMessage(summary).role == User && SummaryMessage(summary).internal
  {
  }

  // ---------- collected requirements are trimmed and not blank ----------

  ghost predicate Clean(v: Text) {
    Trim(v) == v && !Blank(v)
  }

  lemma TrimIsClean(s: Text)
    ensures Trim(s) != [] ==> Clean(Trim(s))
  {
    TrimIdempotent(s);
    TrimNonBlank(s);
  }

  lemma {:induction false} ParsedClean(lines: seq<Text>)
    ensures forall v | v in ParseLines(lines) :: Clean(v)
  {
    hide Clean, ParseString, Trim;
    if lines != [] {
      ParsedClean(lines[1..]);
      match ParseString(lines[0][if |lines[0]| >= 2 then 2 else 0..])
      case NotAString =>
      case StringValue(text) => TrimIsClean(text);
    }
  }

  lemma PinnedClean(text: Text, start: nat, end: nat)
    ensures forall v | v in PinnedBetween(text, start, end) :: Clean(v)
  {
    hide Clean, ParseLines, Split;
    if start <= end <= |text| {
      ParsedClean(Split(text[start..end]));
    }
  }

  lemma MarkedClean(text: Text, start: Text, end: Text)
    ensures forall v | v in PinnedByMarks(text, start, end) :: Clean(v)
  {
    hide Clean, PinnedBetween, IndexOf;
    var from, to := IndexOf(text, start), IndexOf(text, end);
    if from >= 0 && to >= 0 {
      PinnedClean(text, from + |start|, to);
    }
  }

  lemma MessageClean(m: Message)
    ensures forall v | v in MessageRequirements(m) :: Clean(v)
  {
    hide Clean, Trim, PinnedByMarks, Lit, JoinTexts;
    TrimIsClean(JoinTexts(m.blocks));
    MarkedClean(TextContent(m), PINNED_START, PINNED_END);
  }

  lemma {:induction false} CollectedClean(messages: seq<Message>)
    ensures forall v | v in AllRequirements(messages) :: Clean(v)
  {
    hide Clean, MessageRequirements;
    if messages != [] {
      CollectedClean(messages[..|messages| - 1]);
      MessageClean(messages[|messages| - 1]);
    }
  }

  lemma {:induction false} DedupeSubset(values: seq<Text>)
    ensures forall v | v in Dedupe(values) :: v in values
  {
    if values != [] {
      DedupeSubset(values[..|values| - 1]);
    }
  }

  lemma {:induction false} ReverseSubset(values: seq<Text>)
    ensures forall v | v in Reverse(values) :: v in values
  {
    if values != [] {
      ReverseSubset(values[1..]);
    }
  }

  lemma CandidatesSubset(values: seq<Text>)
    ensures forall v | v in PinnedCandidates(values) :: v in values
  {
    hide Dedupe, Reverse;
    DedupeSubset(values);
    var unique := Dedupe(values);
    if unique != [] {
      ReverseSubset(unique[1..]);
      assert forall v | v in unique[1..] :: v in unique;
      assert forall v | v in [unique[0]] + Reverse(unique[1..]) :: v == unique[0] || v in Reverse(unique[1..]);
    }
  }

  lemma RequirementMarkerVisible()
    ensures |REQUIREMENT.marker| >= 2 && !IsSpace(REQUIREMENT.marker[1])
  {
  }

  /** A clipped requirement still shows at least its marker. */
  lemma BoundedNotBlank(value: Text, share: nat)
    requires !Blank(value)
    ensures Bounded(value, share) == [] || !Blank(Bounded(value, share))
  {
    hide Fits, LargestFit, ProbesOne, IsSpace, Lit;
    RequirementMarkerVisible();
    var edge := LargestFit(REQUIREMENT, value, share, |value| / 2);
    assert Candidate(REQUIREMENT, value, edge)[edge + 1] == REQUIREMENT.marker[1];
  }

  lemma {:induction false} SelectionNotBlank(candidates: seq<Text>, remaining: int)
    requires forall v | v in candidates :: !Blank(v)
    ensures forall v | v in Selection(candidates, remaining) :: !Blank(v)
  {
    hide Blank, Bounded, Share, Cost;
    if candidates != [] && remaining > 0 {
      var share := Share(remaining, |candidates|);
      var bounded := Bounded(candidates[0], share);
      BoundedNotBlank(candidates[0], share);
      SelectionNotBlank(candidates[1..], remaining);
      if bounded != [] {
        SelectionNotBlank(candidates[1..], remaining - Cost(bounded));
      }
    }
  }

  lemma {:induction false} TrimAllOfClean(values: seq<Text>)
    requires forall v | v in values :: Clean(v)
    ensures TrimAll(values) == values
  {
    hide Trim, Blank;
    if values != [] {
      assert values[0] in values && forall v | v in values[1..] :: v in values;
      TrimAllOfClean(values[1..]);
    }
  }

  /** Whether a requirement can be read back: its quoting does not hold the end mark. */
  ghost predicate Readable(v: Text) {
    !Contains(Quoted(v), PINNED_END)
  }

  lemma RecoverableAll(values: seq<Text>)
    ensures Recoverable(values, PINNED_END) == TrimAll(values) <==> forall i | 0 <= i < |values| :: Readable(values[i])
  {
    hide Contains, Quoted, TrimAll, CutAt;
    CutAtFirst(values, PINNED_END);
    var i := CutAt(values, PINNED_END);
    assert |TrimAll(values[..i])| == i;
    if i == |values| {
      assert values[..i] == values;
    } else {
      assert !Readable(values[i]);
    }
  }

  /** The requirements a compaction pins, in the order the summary lists them, are exactly those
      the next compaction collects from its summary message, if and only if none of them quotes
      the end mark. */
  lemma RequirementsSurvive(generated: Text, messages: seq<Message>, messageBudget: nat)
    requires PinnedFor(messages, messageBudget) != []
    ensures var pinned := PinnedFor(messages, messageBudget);
            var next := AllRequirements([SummaryMessage(CompactionSummary(generated, messages, messageBudget))]);
            next == TrimAll(pinned) <==> forall i | 0 <= i < |pinned| :: Readable(pinned[i])
  {
    hide Selection, PinnedCandidates, AllRequirements, SummaryMessage, SummaryText, TrimAll, Readable, Recoverable;
    hide Blank, SummaryBudget;
    var pinned, budget := PinnedFor(messages, messageBudget), SummaryBudget(messageBudget);
    PinnedNotBlank(messages, messageBudget);
    SummaryReadBack(generated, pinned, messages, budget);
    RecoverableAll(pinned);
  }

  lemma PinnedNotBlank(messages: seq<Message>, messageBudget: nat)
    ensures forall v | v in PinnedFor(messages, messageBudget) :: !Blank(v)
  {
    hide Selection, PinnedCandidates, AllRequirements, SummaryBudget, Blank, Trim;
    CollectedClean(messages);
    CandidatesSubset(AllRequirements(messages));
    SelectionNotBlank(PinnedCandidates(AllRequirements(messages)), PinnedBudget(SummaryBudget(messageBudget)));
  }

  /** When the budget clips none of the candidates, the next compaction collects them verbatim. */
  lemma VerbatimRequirementsSurvive(generated: Text, messages: seq<Message>, messageBudget: nat)
    requires PinnedFor(messages, messageBudget) != []
    requires PinnedFor(messages, messageBudget) == PinnedCandidates(AllRequirements(messages))
    requires forall v | v in PinnedFor(messages, messageBudget) :: Readable(v)
    ensures AllRequirements([SummaryMessage(CompactionSummary(generated, messages, messageBudget))])
         == PinnedCandidates(AllRequirements(messages))
  {
    hide *;
    RequirementsSurvive(generated, messages, messageBudget);
    CollectedClean(messages);
    CandidatesSubset(AllRequirements(messages));
    TrimAllOfClean(PinnedFor(messages, messageBudget));
  }

  lemma CandidatesExist(values: seq<Text>)
    requires values != []
    ensures PinnedCandidates(values) != []
  {
    DedupeExists(values);
  }

  lemma {:induction false} DedupeExists(values: seq<Text>)
    requires values != []
    ensures Dedupe(values) != []
  {
    if |values| > 1 {
      DedupeExists(values[..|values| - 1]);
    }
  }

  /** Requirements that each fit an equal share of the pinned budget, and do not quote the end mark,
      are collected by the next compaction verbatim, whatever else is summarised. */
  lemma ShortRequirementsSurvive(generated: Text, messages: seq<Message>, messageBudget: nat, share: nat)
    requires AllRequirements(messages) != []
    requires share * |PinnedCandidates(AllRequirements(messages))| <= PinnedBudget(SummaryBudget(messageBudget))
    requires forall c | c in PinnedCandidates(AllRequirements(messages)) :: Cost(c) <= share && Readable(c)
    ensures AllRequirements([SummaryMessage(CompactionSummary(generated, messages, messageBudget))])
         == PinnedCandidates(AllRequirements(messages))
  {
    hide AllRequirements, PinnedCandidates, Selection, SummaryBudget, Cost, Readable, SummaryMessage, SummaryText;
    var candidates := PinnedCandidates(AllRequirements(messages));
    CollectedClean(messages);
    CandidatesSubset(AllRequirements(messages));
    CandidatesExist(AllRequirements(messages));
    hide PinnedBudget, Clean, Blank, PinnedFor;
    forall i | 0 <= i < |candidates| ensures candidates[i] != [] && Cost(candidates[i]) <= share && Readable(candidates[i]) {
      assert candidates[i] in candidates;
      CleanNotEmpty(candidates[i]);
    }
    VerbatimWhenSharesSuffice(candidates, share, PinnedBudget(SummaryBudget(messageBudget)));
    PinnedIsSelection(messages, messageBudget);
    assert PinnedFor(messages, messageBudget) == candidates;
    VerbatimRequirementsSurvive(generated, messages, messageBudget);
  }

  lemma PinnedIsSelection(messages: seq<Message>, messageBudget: nat)
    ensures PinnedFor(messages, messageBudget)
         == Selection(PinnedCandidates(AllRequirements(messages)), PinnedBudget(SummaryBudget(messageBudget)))
  {
  }

  lemma CleanNotEmpty(c: Text)
    requires Clean(c)
    ensures c != [] && !Blank(c)
  {
  }
}
