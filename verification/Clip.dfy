/** The two clips of packages/agent/src/context-manager.ts: keep both ends of a text
    around a marker, with the longest ends a binary search can find within a token bound. */
module Clip {
  import opened Texts

  /** How a text is clipped: the marker put in the gap, and whether the bound counts the
      text as it stands or its JSON quoting. */
  datatype Form = Form(marker: Text, quoted: bool) {
    ghost predicate Valid() {
      marker != [] && marker[0] == NEWLINE && marker[|marker| - 1] == NEWLINE
    }
  }

  const REQUIREMENT := Form(
    [NEWLINE, 0x5b, ELLIPSIS] + Lit("user requirement ") + Lit("clipped for ") + Lit("context capacity")
    + [ELLIPSIS, 0x5d, NEWLINE], true)

  const SUMMARY := Form(
    [NEWLINE, NEWLINE, 0x5b, ELLIPSIS] + Lit("summary clipped") + [ELLIPSIS, 0x5d, NEWLINE, NEWLINE], false)

  function Measured(form: Form, s: Text): Text {
    if form.quoted then Quoted(s) else s
  }

  predicate Fits(form: Form, s: Text, maxTokens: int) {
    TextTokens(Measured(form, s)) <= maxTokens
  }

  /** slice(-count): asking for the last zero units yields the whole text. */
  function SliceFromEnd(s: Text, count: nat): Text
    requires count <= |s|
  {
    if count == 0 then s else s[|s| - count..]
  }

  function Candidate(form: Form, value: Text, edge: nat): Text
    requires edge <= |value| / 2
  {
    value[..edge] + form.marker + SliceFromEnd(value, edge)
  }

  function Fallback(form: Form, maxTokens: int): Text {
    if form.quoted && Fits(form, form.marker, maxTokens) then form.marker else []
  }

  /** The longest edge up to `edge` whose candidate fits, 0 when there is none. */
  ghost function LargestFit(form: Form, value: Text, maxTokens: int, edge: nat): (e: nat)
    requires edge <= |value| / 2
    ensures e <= edge
  {
    if edge == 0 then 0
    else if Fits(form, Candidate(form, value, edge), maxTokens) then edge
    else LargestFit(form, value, maxTokens, edge - 1)
  }

  lemma {:induction false} LargestFitIsLargest(form: Form, value: Text, maxTokens: int, edge: nat)
    requires edge <= |value| / 2
    ensures var e := LargestFit(form, value, maxTokens, edge);
            && e <= edge
            && (e > 0 ==> Fits(form, Candidate(form, value, e), maxTokens))
            && forall k | e < k <= edge :: !Fits(form, Candidate(form, value, k), maxTokens)
  {
    hide Fits, Candidate;
    if edge > 0 {
      LargestFitIsLargest(form, value, maxTokens, edge - 1);
    }
  }

  /** Whether halving down from `high` lands on edge 1 before it lands on edge 0. */
  predicate ProbesOne(high: int) {
    if high < 2 then false
    else if high <= 3 then true
    else ProbesOne(high / 2 - 1)
  }

  /** Whether the search over edges 0..half finds the longest fitting edge `largest`. */
  predicate Finds(largest: nat, half: nat) {
    largest >= 2 || (largest == 1 && ProbesOne(half))
  }

  /** What both clips return, for any value and bound. */
  ghost function Clipped(form: Form, value: Text, maxTokens: int): Text {
    if Fits(form, value, maxTokens) then value
    else
      var half := |value| / 2;
      var edge := LargestFit(form, value, maxTokens, half);
      if Finds(edge, half) then Candidate(form, value, edge)
      else Fallback(form, maxTokens)
  }

  // ---------- the fit test is monotone from edge 1 on, and fails at edge 0 ----------

  lemma QuotedAroundMarker(head: Text, form: Form, tail: Text)
    requires form.Valid()
    ensures Weight(Escape(head + form.marker + tail))
         == Weight(Escape(head)) + Weight(Escape(form.marker)) + Weight(Escape(tail))
  {
    EscapeConcatWeight(head + form.marker, tail);
    EscapeConcatWeight(head, form.marker);
  }

  lemma CandidateWeight(form: Form, value: Text, edge: nat)
    requires form.Valid()
    requires edge <= |value| / 2
    ensures var tail := SliceFromEnd(value, edge);
            Weight(Measured(form, Candidate(form, value, edge))) ==
            if !form.quoted then Weight(value[..edge]) + Weight(form.marker) + Weight(tail)
            else Weight(Escape(value[..edge])) + Weight(Escape(form.marker)) + Weight(Escape(tail)) + 2
  {
    hide Weight, Escape, SliceFromEnd;
    var tail := SliceFromEnd(value, edge);
    WeightConcat(value[..edge] + form.marker, tail);
    WeightConcat(value[..edge], form.marker);
    QuotedAroundMarker(value[..edge], form, tail);
    QuotedWeight(Candidate(form, value, edge));
  }

  lemma EndsGrow(value: Text, edge: nat)
    requires 1 <= edge < |value| / 2
    ensures Weight(value[..edge]) <= Weight(value[..edge + 1])
    ensures Weight(Escape(value[..edge])) <= Weight(Escape(value[..edge + 1]))
    ensures Weight(SliceFromEnd(value, edge)) <= Weight(SliceFromEnd(value, edge + 1))
    ensures Weight(Escape(SliceFromEnd(value, edge))) <= Weight(Escape(SliceFromEnd(value, edge + 1)))
  {
    hide Weight, Escape;
    var longer := SliceFromEnd(value, edge + 1);
    assert value[..edge + 1] == value[..edge] + [value[edge]];
    WeightConcat(value[..edge], [value[edge]]);
    EscapeAppendGrows(value[..edge], value[edge]);
    assert longer == [longer[0]] + SliceFromEnd(value, edge) && longer[1..] == SliceFromEnd(value, edge);
    WeightConcat([longer[0]], SliceFromEnd(value, edge));
    EscapeSuffixGrows(longer);
  }

  lemma CandidateGrows(form: Form, value: Text, edge: nat)
    requires form.Valid()
    requires 1 <= edge < |value| / 2
    ensures Weight(Measured(form, Candidate(form, value, edge)))
         <= Weight(Measured(form, Candidate(form, value, edge + 1)))
  {
    hide Weight, Escape, Candidate, SliceFromEnd, Measured;
    CandidateWeight(form, value, edge);
    CandidateWeight(form, value, edge + 1);
    EndsGrow(value, edge);
  }

  lemma {:induction false} ShorterEdgesFit(form: Form, value: Text, maxTokens: int, edge: nat, longer: nat)
    requires form.Valid()
    requires 1 <= edge <= longer <= |value| / 2
    requires Fits(form, Candidate(form, value, longer), maxTokens)
    ensures Fits(form, Candidate(form, value, edge), maxTokens)
    decreases longer - edge
  {
    hide Weight, Escape, Candidate;
    if edge < longer {
      ShorterEdgesFit(form, value, maxTokens, edge + 1, longer);
      CandidateGrows(form, value, edge);
    }
  }

  /** Edge 0 repeats the whole value after the marker, so it never fits when the value does not. */
  lemma EdgeZeroNeverFits(form: Form, value: Text, maxTokens: int)
    requires form.Valid()
    requires !Fits(form, value, maxTokens)
    ensures !Fits(form, Candidate(form, value, 0), maxTokens)
  {
    CandidateWeight(form, value, 0);
    QuotedWeight(value);
  }

  /** The edges that fit are exactly 1 to the longest that does. */
  lemma EdgeFitsExactly(form: Form, value: Text, maxTokens: int, edge: nat)
    requires form.Valid() && edge <= |value| / 2
    requires !Fits(form, value, maxTokens)
    ensures var largest := LargestFit(form, value, maxTokens, |value| / 2);
            largest <= |value| / 2
            && (Fits(form, Candidate(form, value, edge), maxTokens) <==> 1 <= edge <= largest)
  {
    hide Fits, Candidate, LargestFit;
    var largest := LargestFit(form, value, maxTokens, |value| / 2);
    LargestFitIsLargest(form, value, maxTokens, |value| / 2);
    if edge == 0 {
      EdgeZeroNeverFits(form, value, maxTokens);
    } else if edge <= largest {
      ShorterEdgesFit(form, value, maxTokens, edge, largest);
    }
  }

  // ---------- the search ----------

  /** Where the search stands when the edges that fit are 1..largest: it has found none yet
      (low is 0), or it holds a fitting edge low - 1. */
  ghost predicate Searching(low: int, high: int, half: nat, largest: nat) {
    && 0 <= low && high <= half
    && (low == 0 ==> (largest >= 2 ==> largest <= high) && (largest == 1 ==> ProbesOne(half) == ProbesOne(high)))
    && (low > 0 ==> 1 <= low - 1 <= largest <= high && (largest >= 2 || ProbesOne(half)))
  }

  lemma SearchStep(low: int, high: int, half: nat, largest: nat)
    requires Searching(low, high, half, largest) && low <= high && largest <= half
    ensures var edge := (low + high) / 2;
            && 0 <= edge <= half
            && (1 <= edge <= largest ==> Searching(edge + 1, high, half, largest))
            && (!(1 <= edge <= largest) ==> Searching(low, edge - 1, half, largest))
  {
  }

  lemma SearchEnds(low: int, high: int, half: nat, largest: nat)
    requires Searching(low, high, half, largest) && low > high
    ensures if Finds(largest, half) then low == largest + 1 else low == 0
  {
  }

  method ClipByEdges(form: Form, value: Text, maxTokens: int) returns (best: Text)
    requires form.Valid()
    ensures best == Clipped(form, value, maxTokens)
  {
    hide Fits, Candidate, LargestFit, ProbesOne, Fallback;
    if Fits(form, value, maxTokens) {
      return value;
    }
    var half := |value| / 2;
    ghost var largest := LargestFit(form, value, maxTokens, half);
    EdgeFitsExactly(form, value, maxTokens, 0);
    var low, high := 0, half;
    best := Fallback(form, maxTokens);
    while low <= high
      invariant Searching(low, high, half, largest)
      invariant low == 0 ==> best == Fallback(form, maxTokens)
      invariant low > 0 ==> best == Candidate(form, value, low - 1)
    {
      SearchStep(low, high, half, largest);
      var edge := (low + high) / 2;
      EdgeFitsExactly(form, value, maxTokens, edge);
      var candidate := Candidate(form, value, edge);
      if Fits(form, candidate, maxTokens) {
        best := candidate;
        low := edge + 1;
      } else {
        high := edge - 1;
      }
    }
    SearchEnds(low, high, half, largest);
  }

  /** boundedRequirement. */
  method BoundedRequirement(value: Text, maxTokens: int) returns (best: Text)
    ensures best == Clipped(REQUIREMENT, value, maxTokens)
  {
    best := ClipByEdges(REQUIREMENT, value, maxTokens);
  }

  /** boundedSummaryText. */
  method BoundedSummaryText(value: Text, maxTokens: int) returns (best: Text)
    ensures best == Clipped(SUMMARY, value, maxTokens)
  {
    best := ClipByEdges(SUMMARY, value, maxTokens);
  }

  // ---------- what the result means ----------

  /** Sound: a clip is empty or fits its bound. */
  lemma ClipFits(form: Form, value: Text, maxTokens: int)
    ensures var r := Clipped(form, value, maxTokens); r == [] || Fits(form, r, maxTokens)
  {
    hide Weight, Escape, Candidate, LargestFit;
    LargestFitIsLargest(form, value, maxTokens, |value| / 2);
  }

  lemma KeptWhenFits(form: Form, value: Text, maxTokens: int)
    requires Fits(form, value, maxTokens)
    ensures Clipped(form, value, maxTokens) == value
  {
  }

  /** Optimal, exactly when: of the edges that fit, the longest is found if and only if it is
      at least 2, or it is 1 and the halving of the length probes edge 1. */
  lemma ClipOptimal(form: Form, value: Text, maxTokens: int)
    requires !Fits(form, value, maxTokens)
    ensures var half := |value| / 2;
            var edge := LargestFit(form, value, maxTokens, half);
            edge > 0 ==> (Clipped(form, value, maxTokens) == Candidate(form, value, edge)
                          <==> edge >= 2 || ProbesOne(half))
  {
  }

  function Pow2(k: nat): nat {
    if k == 0 then 1 else 2 * Pow2(k - 1)
  }

  ghost predicate InProbeRange(high: int, k: nat) {
    2 * Pow2(k) - 2 <= high <= 3 * Pow2(k) - 3
  }

  /** The lengths at which edge 1 is probed, in closed form: 2..3, 6..9, 14..21, 30..45, ... */
  lemma {:induction false} ProbesOneRanges(high: int)
    ensures ProbesOne(high) <==> exists k: nat :: k >= 1 && InProbeRange(high, k)
    decreases high
  {
    forall k: nat | k >= 1
      ensures Pow2(k) >= 2 && (k >= 2 ==> Pow2(k) >= 4)
    {
      PowAtLeast(k);
    }
    if 2 <= high <= 3 {
      assert Pow2(1) == 2;
      assert InProbeRange(high, 1);
    } else if high >= 4 {
      var next := high / 2 - 1;
      ProbesOneRanges(next);
      forall k: nat | k >= 1
        ensures InProbeRange(next, k) <==> InProbeRange(high, k + 1)
      {
      }
      if k: nat :| k >= 1 && InProbeRange(next, k) {
        assert InProbeRange(high, k + 1);
      }
      if k: nat :| k >= 1 && InProbeRange(high, k) {
        assert Pow2(1) == 2;
        assert k >= 2;
        assert InProbeRange(next, k - 1);
      }
    }
  }

  lemma {:induction false} PowAtLeast(k: nat)
    requires k >= 1
    ensures Pow2(k) >= 2 && (k >= 2 ==> Pow2(k) >= 4)
  {
    if k >= 2 {
      PowAtLeast(k - 1);
    }
  }

  // ---------- an edge that is missed ----------

  /** A text of wide units, each worth five quarter tokens. */
  function Wide(n: nat): Text {
    seq(n, i => 0x4e00)
  }

  lemma {:induction false} WideWeight(n: nat)
    ensures Weight(Wide(n)) == 5 * n
  {
    if n > 0 {
      WideWeight(n - 1);
      assert Wide(n) == Wide(n - 1) + [0x4e00];
      WeightConcat(Wide(n - 1), [0x4e00]);
      WeightOne(0x4e00);
    }
  }

  lemma SummaryMarkerWeight()
    ensures Weight(SUMMARY.marker) == 31 && SUMMARY.Valid()
  {
    var open, close, words := [NEWLINE, NEWLINE, 0x5b, ELLIPSIS], [ELLIPSIS, 0x5d, NEWLINE, NEWLINE], Lit("summary clipped");
    WeightConcat(open + words, close);
    WeightConcat(open, words);
    AsciiWeight(words);
    WeightConcat([NEWLINE, NEWLINE, 0x5b], [ELLIPSIS]);
    AsciiWeight([NEWLINE, NEWLINE, 0x5b]);
    WeightConcat([ELLIPSIS], [0x5d, NEWLINE, NEWLINE]);
    AsciiWeight([0x5d, NEWLINE, NEWLINE]);
    WeightOne(ELLIPSIS);
    assert open == [NEWLINE, NEWLINE, 0x5b] + [ELLIPSIS] && close == [ELLIPSIS] + [0x5d, NEWLINE, NEWLINE];
  }

  lemma WideCandidate(edge: nat)
    requires 1 <= edge <= 5
    ensures TextTokens(Measured(SUMMARY, Candidate(SUMMARY, Wide(11), edge))) == (31 + 10 * edge + 3) / 4
  {
    hide Weight;
    SummaryMarkerWeight();
    CandidateWeight(SUMMARY, Wide(11), edge);
    assert Wide(11)[..edge] == Wide(edge) && SliceFromEnd(Wide(11), edge) == Wide(edge);
    WideWeight(edge);
  }

  /** Eleven wide units and a bound of eleven tokens: edge 1 fits, the search does not find it, and
      nothing at all is kept. */
  lemma EdgeOneIsMissed()
    ensures exists value :: !Fits(SUMMARY, value, 11) && LargestFit(SUMMARY, value, 11, |value| / 2) == 1
                            && Clipped(SUMMARY, value, 11) == []
  {
    hide Weight, Candidate;
    var value := Wide(11);
    WideWeight(11);
    WideCandidate(1);
    forall edge: nat | 2 <= edge <= 5 ensures !Fits(SUMMARY, Candidate(SUMMARY, value, edge), 11) {
      WideCandidate(edge);
    }
    LargestFitIsLargest(SUMMARY, value, 11, 5);
    assert !Fits(SUMMARY, value, 11) && LargestFit(SUMMARY, value, 11, |value| / 2) == 1;
    assert !ProbesOne(5) by { assert !ProbesOne(1); }
  }
}
