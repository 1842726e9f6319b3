/** UTF-16 strings as the compactor sees them: token weights, JSON string quoting,
    trimming, searching and splitting. A code unit is a natural number; a string
    literal of the source is built from short printable pieces with Lit. */
module Texts {
  import opened Sequences

  type CodeUnit = nat
  type Text = seq<CodeUnit>

  const NEWLINE: CodeUnit := 10
  const QUOTE: CodeUnit := 0x22
  const BACKSLASH: CodeUnit := 0x5c
  const ELLIPSIS: CodeUnit := 0x2026

  ghost predicate Printable(s: string) {
    forall c | c in s :: 0x20 <= c as int < 0x80
  }

  /** A literal of printable ASCII characters. */
  function Lit(s: string): (t: Text)
    ensures |t| == |s|
    ensures forall i | 0 <= i < |s| :: t[i] == s[i] as int
    ensures Printable(s) ==> forall u | u in t :: 0x20 <= u < 0x80
  {
    assert forall i | 0 <= i < |s| :: s[i] in s;
    seq(|s|, (i: nat) requires i < |s| => s[i] as int as CodeUnit)
  }

  // ---------- token weights, in quarter tokens ----------

  function UnitWeight(u: CodeUnit): (w: nat) {
    if u <= 0x7f then 1 else 5
  }

  function WeightTo(s: Text, n: nat): nat
    requires n <= |s|
  {
    if n == 0 then 0 else WeightTo(s, n - 1) + UnitWeight(s[n - 1])
  }

  function Weight(s: Text): nat {
    WeightTo(s, |s|)
  }

  /** One token per four ASCII units, one and a quarter per other unit, rounded up. */
  function TextTokens(s: Text): nat {
    (Weight(s) + 3) / 4
  }

  lemma {:induction false} WeightConcatTo(a: Text, b: Text, n: nat)
    requires n <= |b|
    ensures WeightTo(a + b, |a| + n) == WeightTo(a, |a|) + WeightTo(b, n)
  {
    if n > 0 {
      WeightConcatTo(a, b, n - 1);
    } else {
      WeightOfPrefix(a, b, |a|);
    }
  }

  lemma {:induction false} WeightOfPrefix(a: Text, b: Text, n: nat)
    requires n <= |a|
    ensures WeightTo(a + b, n) == WeightTo(a, n)
  {
    if n > 0 {
      WeightOfPrefix(a, b, n - 1);
    }
  }

  lemma WeightConcat(a: Text, b: Text)
    ensures Weight(a + b) == Weight(a) + Weight(b)
  {
    WeightConcatTo(a, b, |b|);
  }

  lemma WeightOne(u: CodeUnit)
    ensures Weight([u]) == UnitWeight(u)
  {
    assert WeightTo([u], 0) == 0;
  }

  lemma {:induction false} AsciiWeightTo(s: Text, n: nat)
    requires n <= |s| && forall u | u in s :: u < 0x80
    ensures WeightTo(s, n) == n
  {
    if n > 0 {
      assert s[n - 1] in s;
      AsciiWeightTo(s, n - 1);
    }
  }

  lemma AsciiWeight(s: Text)
    requires forall u | u in s :: u < 0x80
    ensures Weight(s) == |s|
  {
    AsciiWeightTo(s, |s|);
  }

  /** Estimates are subadditive: joining texts never costs more than its parts. */
  lemma TokensConcat(a: Text, b: Text)
    ensures TextTokens(a + b) <= TextTokens(a) + TextTokens(b)
    ensures TextTokens(a) <= TextTokens(a + b) && TextTokens(b) <= TextTokens(a + b)
  {
    WeightConcat(a, b);
  }

  // ---------- JSON.stringify of a string ----------

  predicate IsHigh(u: CodeUnit) { 0xd800 <= u <= 0xdbff }

  predicate IsLow(u: CodeUnit) { 0xdc00 <= u <= 0xdfff }

  /** Unit i belongs to a surrogate pair: one character, kept verbatim when quoted. */
  predicate InPair(s: Text, i: nat)
    requires i < |s|
  {
    || (IsHigh(s[i]) && i + 1 < |s| && IsLow(s[i + 1]))
    || (IsLow(s[i]) && i > 0 && IsHigh(s[i - 1]))
  }

  function HexDigit(d: nat): CodeUnit
    requires d < 16
  {
    if d < 10 then 0x30 + d else 0x61 + d - 10
  }

  function Hex4(u: CodeUnit): Text
    requires u < 0x1_0000
  {
    [HexDigit(u / 4096), HexDigit(u / 256 % 16), HexDigit(u / 16 % 16), HexDigit(u % 16)]
  }

  /** Control characters and lone surrogates are written as escapes. */
  function EscapeUnit(u: CodeUnit): (r: Text)
    ensures r != []
  {
    if u == QUOTE then [BACKSLASH, QUOTE]
    else if u == BACKSLASH then [BACKSLASH, BACKSLASH]
    else if u == 8 then [BACKSLASH, 0x62]
    else if u == 9 then [BACKSLASH, 0x74]
    else if u == NEWLINE then [BACKSLASH, 0x6e]
    else if u == 12 then [BACKSLASH, 0x66]
    else if u == 13 then [BACKSLASH, 0x72]
    else if u < 0x20 || IsHigh(u) || IsLow(u) then [BACKSLASH, 0x75] + Hex4(u)
    else [u]
  }

  function EscapeAt(s: Text, i: nat): Text
    requires i < |s|
  {
    if InPair(s, i) then [s[i]] else EscapeUnit(s[i])
  }

  function EscapeTo(s: Text, n: nat): Text
    requires n <= |s|
  {
    if n == 0 then [] else EscapeTo(s, n - 1) + EscapeAt(s, n - 1)
  }

  function Escape(s: Text): Text {
    EscapeTo(s, |s|)
  }

  function Quoted(s: Text): Text {
    [QUOTE] + Escape(s) + [QUOTE]
  }

  lemma PairWeight(a: CodeUnit, b: CodeUnit)
    ensures Weight([a, b]) == UnitWeight(a) + UnitWeight(b)
  {
    assert [a, b] == [a] + [b];
    WeightConcat([a], [b]);
    WeightOne(a);
    WeightOne(b);
  }

  predicate NoPairAcross(a: Text, b: Text) {
    a == [] || b == [] || !IsHigh(a[|a| - 1]) || !IsLow(b[0])
  }

  lemma EscapeAtLeft(a: Text, b: Text, i: nat)
    requires NoPairAcross(a, b) && i < |a|
    ensures EscapeAt(a + b, i) == EscapeAt(a, i)
  {
    hide EscapeUnit;
  }

  lemma EscapeAtRight(a: Text, b: Text, i: nat)
    requires NoPairAcross(a, b) && i < |b|
    ensures EscapeAt(a + b, |a| + i) == EscapeAt(b, i)
  {
    hide EscapeUnit;
    assert (a + b)[|a| + i] == b[i];
  }

  lemma {:induction false} EscapeOfPrefix(a: Text, b: Text, n: nat)
    requires NoPairAcross(a, b) && n <= |a|
    ensures EscapeTo(a + b, n) == EscapeTo(a, n)
  {
    hide EscapeAt, NoPairAcross;
    if n > 0 {
      EscapeAtLeft(a, b, n - 1);
      EscapeOfPrefix(a, b, n - 1);
    }
  }

  lemma {:induction false} EscapeConcatTo(a: Text, b: Text, n: nat)
    requires NoPairAcross(a, b) && n <= |b|
    ensures EscapeTo(a + b, |a| + n) == EscapeTo(a, |a|) + EscapeTo(b, n)
  {
    hide EscapeAt, NoPairAcross;
    if n > 0 {
      EscapeConcatTo(a, b, n - 1);
      EscapeAtRight(a, b, n - 1);
      JoinAssociates(EscapeTo(a, |a|), EscapeTo(b, n - 1), EscapeAt(b, n - 1));
    } else {
      EscapeOfPrefix(a, b, |a|);
      assert EscapeTo(b, 0) == [];
    }
  }

  /** Quoting distributes over a join that does not create a surrogate pair. */
  lemma EscapeConcat(a: Text, b: Text)
    requires NoPairAcross(a, b)
    ensures Escape(a + b) == Escape(a) + Escape(b)
  {
    hide EscapeTo, NoPairAcross;
    assert |a + b| == |a| + |b|;
    EscapeConcatTo(a, b, |b|);
  }

  lemma EscapeConcatWeight(a: Text, b: Text)
    requires NoPairAcross(a, b)
    ensures Weight(Escape(a + b)) == Weight(Escape(a)) + Weight(Escape(b))
  {
    EscapeConcat(a, b);
    WeightConcat(Escape(a), Escape(b));
  }

  lemma EscapeOne(u: CodeUnit)
    ensures Escape([u]) == EscapeUnit(u)
    ensures IsHigh(u) || IsLow(u) ==> Weight(Escape([u])) == 6
  {
    assert EscapeTo([u], 0) == [];
    if IsHigh(u) || IsLow(u) {
      AsciiWeight(EscapeUnit(u));
    }
  }

  lemma EscapePair(a: CodeUnit, b: CodeUnit)
    requires IsHigh(a) && IsLow(b)
    ensures Escape([a, b]) == [a, b] && Weight(Escape([a, b])) == 10
  {
    var s := [a, b];
    assert EscapeTo(s, 0) == [] && EscapeTo(s, 1) == [a] && EscapeTo(s, 2) == [a] + [b];
    PairWeight(a, b);
  }

  /** A longer text is never cheaper when quoted, even where its last unit completes a pair. */
  lemma EscapeAppendGrows(s: Text, u: CodeUnit)
    ensures Weight(Escape(s)) <= Weight(Escape(s + [u]))
  {
    if NoPairAcross(s, [u]) {
      EscapeConcatWeight(s, [u]);
    } else {
      var front, high := s[..|s| - 1], s[|s| - 1];
      assert s == front + [high] && s + [u] == front + [high, u];
      EscapeConcatWeight(front, [high]);
      EscapeConcatWeight(front, [high, u]);
      EscapeOne(high);
      EscapePair(high, u);
    }
  }

  /** Nor is a longer suffix. */
  lemma EscapeSuffixGrows(s: Text)
    requires s != []
    ensures Weight(Escape(s[1..])) <= Weight(Escape(s))
  {
    var tail := s[1..];
    if NoPairAcross([s[0]], tail) {
      assert s == [s[0]] + tail;
      EscapeConcatWeight([s[0]], tail);
    } else {
      assert s == [s[0], tail[0]] + tail[1..] && tail == [tail[0]] + tail[1..];
      EscapeConcatWeight([s[0], tail[0]], tail[1..]);
      EscapeConcatWeight([tail[0]], tail[1..]);
      EscapeOne(tail[0]);
      EscapePair(s[0], tail[0]);
    }
  }

  lemma QuotedWeight(s: Text)
    ensures Weight(Quoted(s)) == Weight(Escape(s)) + 2
  {
    WeightConcat([QUOTE] + Escape(s), [QUOTE]);
    WeightConcat([QUOTE], Escape(s));
    WeightOne(QUOTE);
  }
}
