/** Collecting user requirements, including those an earlier compaction summary pinned:
    pinnedFromCompaction and the first loop of pinnedUserRequirements. */
module Requirements {
  import opened Texts
  import opened Messages

  const PINNED_START: Text := Lit("[Pinned user ") + Lit("requirements; ") + Lit("preserve ") + Lit("verbatim]")
  const PINNED_END: Text := Lit("[End pinned ") + Lit("user ") + Lit("requirements]")
  const BULLET: Text := [0x2d, 0x20]

  // ---------- indexOf and split ----------

  predicate OccursAt(t: Text, p: Text, k: nat) {
    k + |p| <= |t| && t[k..k + |p|] == p
  }

  function IndexFrom(t: Text, p: Text, from: nat): (k: int)
    decreases |t| - from
  {
    if from + |p| > |t| then -1
    else if OccursAt(t, p, from) then from
    else IndexFrom(t, p, from + 1)
  }

  function IndexOf(t: Text, p: Text): int {
    IndexFrom(t, p, 0)
  }

  function Split(t: Text): (lines: seq<Text>)
    ensures |lines| >= 1
  {
    if t == [] then [[]]
    else
      var rest := Split(t[1..]);
      if t[0] == NEWLINE then [[]] + rest else [[t[0]] + rest[0]] + rest[1..]
  }

  // ---------- JSON.parse, as far as it yields strings ----------

  datatype Parsed = Malformed | Body(value: Text, rest: Text)

  function Prepend(u: CodeUnit, tail: Parsed): Parsed {
    match tail
    case Malformed => Malformed
    case Body(value, rest) => Body([u] + value, rest)
  }

  function HexValue(u: CodeUnit): int {
    if 0x30 <= u <= 0x39 then u - 0x30
    else if 0x61 <= u <= 0x66 then u - 0x61 + 10
    else if 0x41 <= u <= 0x46 then u - 0x41 + 10
    else -1
  }

  predicate IsHex4(t: Text) {
    |t| >= 4 && HexValue(t[0]) >= 0 && HexValue(t[1]) >= 0 && HexValue(t[2]) >= 0 && HexValue(t[3]) >= 0
  }

  function Hex4Value(t: Text): nat
    requires IsHex4(t)
  {
    HexValue(t[0]) * 4096 + HexValue(t[1]) * 256 + HexValue(t[2]) * 16 + HexValue(t[3])
  }

  /** The unit a two-character escape stands for, -1 for an unknown one. */
  function SimpleEscape(u: CodeUnit): int {
    if u == QUOTE || u == BACKSLASH || u == 0x2f then u
    else if u == 0x62 then 8
    else if u == 0x74 then 9
    else if u == 0x6e then NEWLINE
    else if u == 0x66 then 12
    else if u == 0x72 then 13
    else -1
  }

  /** The characters up to the closing quote. */
  function ParseBody(t: Text): Parsed {
    if t == [] then Malformed
    else if t[0] == QUOTE then Body([], t[1..])
    else if t[0] < 0x20 then Malformed
    else if t[0] != BACKSLASH then Prepend(t[0], ParseBody(t[1..]))
    else if |t| < 2 then Malformed
    else if t[1] == 0x75 then
      if IsHex4(t[2..]) then Prepend(Hex4Value(t[2..]), ParseBody(t[6..])) else Malformed
    else if SimpleEscape(t[1]) >= 0 then Prepend(SimpleEscape(t[1]), ParseBody(t[2..]))
    else Malformed
  }

  predicate IsJsonSpace(u: CodeUnit) { u == 9 || u == 10 || u == 13 || u == 0x20 }

  function SkipJsonSpace(t: Text): Text {
    if t != [] && IsJsonSpace(t[0]) then SkipJsonSpace(t[1..]) else t
  }

  datatype StringValue = NotAString | StringValue(text: Text)

  function ParseString(t: Text): StringValue {
    var s := SkipJsonSpace(t);
    if s == [] || s[0] != QUOTE then NotAString
    else
      match ParseBody(s[1..])
      case Malformed => NotAString
      case Body(value, rest) => if SkipJsonSpace(rest) == [] then StringValue(value) else NotAString
  }

  // ---------- requirements pinned by an earlier summary ----------

  function ParseLine(line: Text): seq<Text> {
    if !(BULLET <= line) || |line| == 2 then []
    else
      match ParseString(line[2..])
      case NotAString => []
      case StringValue(text) => if Trim(text) != [] then [Trim(text)] else []
  }

  function ParseLines(lines: seq<Text>): seq<Text> {
    if lines == [] then [] else ParseLine(lines[0]) + ParseLines(lines[1..])
  }

  /** pinnedFromCompaction, for the marks around the pinned block. */
  function PinnedByMarks(text: Text, start: Text, end: Text): seq<Text> {
    var from := IndexOf(text, start);
    var to := IndexOf(text, end);
    if from < 0 || to <= from then [] else PinnedBetween(text, from + |start|, to)
  }

  function PinnedFromCompaction(text: Text): seq<Text> {
    PinnedByMarks(text, PINNED_START, PINNED_END)
  }

  /** slice(start, end).split('\n'); a slice whose bounds cross is empty. */
  function PinnedBetween(text: Text, start: nat, end: nat): seq<Text> {
    if start <= end <= |text| then ParseLines(Split(text[start..end])) else []
  }

  function MessageRequirements(m: Message): seq<Text> {
    var text := TextContent(m);
    if text == [] || m.role != User then []
    else if m.internal then PinnedFromCompaction(text)
    else [text]
  }

  function AllRequirements(messages: seq<Message>): seq<Text> {
    if messages == [] then [] else AllRequirements(messages[..|messages| - 1]) + MessageRequirements(messages[|messages| - 1])
  }

  method CollectRequirements(messages: seq<Message>) returns (values: seq<Text>)
    ensures values == AllRequirements(messages)
  {
    values := [];
    for index := 0 to |messages|
      invariant values == AllRequirements(messages[..index])
    {
      assert messages[..index + 1][..index] == messages[..index];
      var text := TextContent(messages[index]);
      if text == [] || messages[index].role != User {
        continue;
      }
      if messages[index].internal {
        values := values + PinnedFromCompaction(text);
      } else {
        values := values + [text];
      }
    }
    assert messages[..|messages|] == messages;
  }

  // ---------- quoting round trip ----------

  lemma HexDigitValue(d: nat)
    requires d < 16
    ensures HexValue(HexDigit(d)) == d
  {
  }

  lemma DivTwice(u: nat)
    ensures u / 256 == u / 16 / 16
  {
    var q, r := u / 16, u % 16;
    assert u == 16 * q + r;
    assert q == 16 * (q / 16) + q % 16;
  }

  /** A number below 2 to the 16 from its four hexadecimal digits. */
  lemma HexParts(u: nat)
    requires u < 0x1_0000
    ensures u / 4096 < 16
    ensures u / 4096 * 4096 + u / 256 % 16 * 256 + u / 16 % 16 * 16 + u % 16 == u
  {
    var q := u / 16;
    DivTwice(u);
    DivTwice(q);
    assert u / 4096 == q / 256;
    assert u == 16 * q + u % 16 && q == 16 * (q / 16) + q % 16 && q / 16 == 16 * (q / 16 / 16) + q / 16 % 16;
  }

  lemma Hex4RoundTrip(u: CodeUnit)
    requires u < 0x1_0000
    ensures IsHex4(Hex4(u)) && Hex4Value(Hex4(u)) == u
  {
    hide HexDigit, HexValue;
    var a, b, c, d := u / 4096, u / 256 % 16, u / 16 % 16, u % 16;
    HexDigitValue(a);
    HexDigitValue(b);
    HexDigitValue(c);
    HexDigitValue(d);
    HexParts(u);
  }

  /** Reading one escaped unit back. */
  lemma ParseEscapedUnit(u: CodeUnit, tail: Text)
    ensures ParseBody(EscapeUnit(u) + tail) == Prepend(u, ParseBody(tail))
  {
    var t := EscapeUnit(u) + tail;
    if |EscapeUnit(u)| == 6 {
      Hex4RoundTrip(u);
      assert t[2..][..4] == Hex4(u) && t[6..] == tail;
      assert t[2..][0] == Hex4(u)[0] && t[2..][1] == Hex4(u)[1] && t[2..][2] == Hex4(u)[2] && t[2..][3] == Hex4(u)[3];
    } else if |EscapeUnit(u)| == 2 {
      assert t[2..] == tail;
    } else {
      assert t[1..] == tail;
    }
  }

  /** The escape of a text is the escape of its first character followed by that of the rest. */
  lemma EscapeFirst(s: Text) returns (width: nat)
    requires s != []
    ensures 1 <= width <= |s| && Escape(s) == Escape(s[..width]) + Escape(s[width..])
    ensures Escape(s[..width]) == if width == 1 then EscapeUnit(s[0]) else s[..width]
    ensures width > 1 ==> width == 2 && IsHigh(s[0]) && IsLow(s[1])
  {
    if NoPairAcross([s[0]], s[1..]) {
      width := 1;
      assert s == [s[0]] + s[1..] && s[..1] == [s[0]];
      EscapeConcat([s[0]], s[1..]);
      EscapeOne(s[0]);
    } else {
      width := 2;
      assert s == [s[0], s[1]] + s[2..] && s[..2] == [s[0], s[1]];
      EscapeConcat([s[0], s[1]], s[2..]);
      EscapePair(s[0], s[1]);
    }
  }

  lemma ParseRawPair(a: CodeUnit, b: CodeUnit, tail: Text)
    requires IsHigh(a) && IsLow(b)
    ensures ParseBody([a, b] + tail) == Prepend(a, Prepend(b, ParseBody(tail)))
  {
    assert ([a, b] + tail)[1..] == [b] + tail && ([b] + tail)[1..] == tail;
  }

  lemma {:induction false} ParseEscaped(s: Text, rest: Text)
    ensures ParseBody(Escape(s) + [QUOTE] + rest) == Body(s, rest)
  {
    hide Escape, EscapeUnit;
    if s == [] {
      EscapeEmpty();
      assert Escape(s) + [QUOTE] + rest == [QUOTE] + rest;
      assert ([QUOTE] + rest)[1..] == rest;
    } else {
      var width := EscapeFirst(s);
      var tail := Escape(s[width..]) + [QUOTE] + rest;
      ParseEscaped(s[width..], rest);
      assert Escape(s) + [QUOTE] + rest == Escape(s[..width]) + tail;
      if width == 1 {
        ParseEscapedUnit(s[0], tail);
      } else {
        ParseRawPair(s[0], s[1], tail);
        assert s[..2] == [s[0], s[1]];
      }
      assert s == s[..width] + s[width..];
    }
  }

  lemma EscapeEmpty()
    ensures Escape([]) == []
  {
  }

  /** JSON.parse reads back every string JSON.stringify writes. */
  lemma QuoteRoundTrip(s: Text)
    ensures ParseString(Quoted(s)) == StringValue(s)
  {
    hide Escape, ParseBody;
    ParseEscaped(s, []);
    assert Quoted(s)[1..] == Escape(s) + [QUOTE] + [];
  }
}
