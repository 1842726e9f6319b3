/** The compaction summary of packages/agent/src/context-manager.ts: pinned user requirements,
    references to tool outputs and a generated body, assembled within one token budget.
    Decimal ratios are exact rationals (0.34 is 34/100). */
module Summary {
  import opened Numbers
  import opened Sequences
  import opened Texts
  import opened Clip
  import opened Messages
  import opened Requirements

  // ---------- the fixed texts ----------

  const SUMMARY_PREFIX: Text :=
    Lit("[Conversation ") + Lit("summary; ") + Lit("subordinate ") + Lit("to pinned ") + Lit("requirements]") + [NEWLINE]
  const WRAP_START: Text := Lit("[Compacted ") + Lit("conversation ") + Lit("context]")
  const WRAP_END: Text := [NEWLINE] + Lit("[End ") + Lit("compacted ") + Lit("context]")

  // ---------- token budgets ----------

  function SummaryBudget(messageBudget: nat): nat {
    Max(256, Min(3_200, messageBudget * 34 / 100))
  }

  function PinnedBudget(summaryBudget: nat): nat { summaryBudget * 68 / 100 }

  function ReferenceBudget(summaryBudget: nat): nat { summaryBudget * 18 / 100 }

  // ---------- choosing the pinned requirements ----------

  /** The values in order of first appearance, as a Set keeps them. */
  function Dedupe(values: seq<Text>): seq<Text> {
    if values == [] then []
    else
      var front := values[..|values| - 1];
      var last := values[|values| - 1];
      if last in front then Dedupe(front) else Dedupe(front) + [last]
  }

  function Reverse(values: seq<Text>): seq<Text> {
    if values == [] then [] else Reverse(values[1..]) + [values[0]]
  }

  /** The first requirement, then the others newest first, at most eight. */
  function PinnedCandidates(values: seq<Text>): (r: seq<Text>)
    ensures |r| <= 8
  {
    var unique := Dedupe(values);
    if unique == [] then []
    else
      var ordered := [unique[0]] + Reverse(unique[1..]);
      if |ordered| > 8 then ordered[..8] else ordered
  }

  /** floor(remaining / count). */
  function Share(remaining: nat, count: nat): (q: nat)
    requires count > 0
    ensures q <= remaining
  {
    if remaining < count then 0 else 1 + Share(remaining - count, count)
  }

  lemma {:induction false} ShareIsQuotient(remaining: nat, count: nat)
    requires count > 0
    ensures Share(remaining, count) * count <= remaining < (Share(remaining, count) + 1) * count
  {
    if remaining >= count {
      ShareIsQuotient(remaining - count, count);
    }
  }

  lemma GrowsBy(a: nat, b: nat, count: nat)
    ensures a < b ==> (a + 1) * count <= b * count
  {
    if a < b {
      assert b * count == (a + 1) * count + (b - a - 1) * count;
    }
  }

  method EqualShare(remaining: nat, count: nat) returns (share: nat)
    requires count > 0
    ensures share == Share(remaining, count)
  {
    share := remaining / count;
    ghost var q := Share(remaining, count);
    ShareIsQuotient(remaining, count);
    GrowsBy(share, q, count);
    GrowsBy(q, share, count);
  }

  /** What a pinned requirement costs, and what fits a share of the budget. */
  function Cost(value: Text): nat { TextTokens(Quoted(value)) }

  ghost function Bounded(value: Text, share: nat): Text { Clipped(REQUIREMENT, value, share) }

  lemma BoundedCost(value: Text, share: nat)
    ensures Bounded(value, share) == [] || Cost(Bounded(value, share)) <= share
    ensures Cost(value) <= share ==> Bounded(value, share) == value
    ensures Cost(value) >= 1
  {
    hide Weight, Escape, Clipped;
    ClipFits(REQUIREMENT, value, share);
    QuotedWeight(value);
    if Cost(value) <= share {
      KeptWhenFits(REQUIREMENT, value, share);
    }
  }

  /** Every remaining candidate gets an equal share of what is left; one that cannot be
      clipped to its share is dropped. */
  ghost function Selection(candidates: seq<Text>, remaining: int): seq<Text> {
    if candidates == [] || remaining <= 0 then []
    else
      var bounded := Bounded(candidates[0], Share(remaining, |candidates|));
      if bounded == [] then Selection(candidates[1..], remaining)
      else [bounded] + Selection(candidates[1..], remaining - Cost(bounded))
  }

  function QuotedTokens(values: seq<Text>): nat {
    if values == [] then 0 else Cost(values[0]) + QuotedTokens(values[1..])
  }

  /** The chosen requirements never cost more than the budget they were given. */
  lemma {:induction false} SelectionWithinBudget(candidates: seq<Text>, remaining: nat)
    ensures QuotedTokens(Selection(candidates, remaining)) <= remaining
    ensures |Selection(candidates, remaining)| <= |candidates|
  {
    hide Cost, Bounded, Share;
    if candidates != [] && remaining > 0 {
      var bounded := Bounded(candidates[0], Share(remaining, |candidates|));
      BoundedCost(candidates[0], Share(remaining, |candidates|));
      if bounded == [] {
        SelectionWithinBudget(candidates[1..], remaining);
      } else {
        SelectionWithinBudget(candidates[1..], remaining - Cost(bounded));
      }
    }
  }

  lemma ShareKept(share: nat, count: nat, remaining: nat, cost: nat)
    requires count > 0 && share * count <= remaining && cost <= share
    ensures share <= Share(remaining, count)
    ensures share * (count - 1) <= remaining - cost
  {
    var got := Share(remaining, count);
    ShareIsQuotient(remaining, count);
    GrowsBy(got, share, count);
    assert share * count == share * (count - 1) + share;
  }

  lemma {:induction false} VerbatimWhenSharesSuffice(candidates: seq<Text>, share: nat, remaining: nat)
    requires share * |candidates| <= remaining
    requires forall i | 0 <= i < |candidates| :: candidates[i] != [] && Cost(candidates[i]) <= share
    ensures Selection(candidates, remaining) == candidates
  {
    hide Cost, Bounded, Share;
    if candidates != [] {
      var cost := Cost(candidates[0]);
      ShareKept(share, |candidates|, remaining, cost);
      BoundedCost(candidates[0], Share(remaining, |candidates|));
      assert share * |candidates| == share + share * (|candidates| - 1);
      VerbatimWhenSharesSuffice(candidates[1..], share, remaining - cost);
    }
  }

  lemma SelectionStep(candidates: seq<Text>, remaining: int)
    ensures candidates == [] || remaining <= 0 ==> Selection(candidates, remaining) == []
    ensures candidates != [] && remaining > 0 ==>
              var bounded := Clipped(REQUIREMENT, candidates[0], Share(remaining, |candidates|));
              && (bounded == [] ==> Selection(candidates, remaining) == Selection(candidates[1..], remaining))
              && (bounded != [] ==>
                    && Cost(bounded) <= remaining
                    && Selection(candidates, remaining)
                       == [bounded] + Selection(candidates[1..], remaining - Cost(bounded)))
  {
    hide Cost, Share, Clipped;
    if candidates != [] && remaining > 0 {
      BoundedCost(candidates[0], Share(remaining, |candidates|));
    }
  }

  /** The second loop of pinnedUserRequirements. It keeps the guard against overrunning the
      budget; equality with Selection shows the guard never fires. */
  method SelectPinned(values: seq<Text>, maxTokens: nat) returns (selected: seq<Text>)
    ensures selected == Selection(PinnedCandidates(values), maxTokens)
  {
    hide Cost, Share, PinnedCandidates, Clipped, Selection;
    var candidates := PinnedCandidates(values);
    selected := [];
    var tokens := 0;
    var index := 0;
    assert candidates[0..] == candidates;
    while index < |candidates|
      invariant 0 <= index <= |candidates| && tokens <= maxTokens
      invariant selected + Selection(candidates[index..], maxTokens - tokens) == Selection(candidates, maxTokens)
    {
      SelectionStep(candidates[index..], maxTokens - tokens);
      assert candidates[index..][1..] == candidates[index + 1..];
      var remaining := maxTokens - tokens;
      if remaining <= 0 {
        break;
      }
      var share := EqualShare(remaining, |candidates| - index);
      var bounded := BoundedRequirement(candidates[index], share);
      if bounded != [] {
        var encodedTokens := Cost(bounded);
        if |selected| > 0 && tokens + encodedTokens > maxTokens {
          assert false;
        } else {
          JoinAssociates(selected, [bounded], Selection(candidates[index + 1..], remaining - encodedTokens));
          selected := selected + [bounded];
          tokens := tokens + encodedTokens;
        }
      }
      index := index + 1;
    }
    SelectionStep(candidates[index..], maxTokens - tokens);
  }

  /** pinnedUserRequirements. */
  method PinnedUserRequirements(messages: seq<Message>, maxTokens: nat) returns (selected: seq<Text>)
    ensures selected == Selection(PinnedCandidates(AllRequirements(messages)), maxTokens)
  {
    var values := CollectRequirements(messages);
    selected := SelectPinned(values, maxTokens);
  }

  // ---------- assembling the summary ----------

  function Lines(items: seq<Text>): Text {
    if items == [] then []
    else if |items| == 1 then items[0]
    else items[0] + [NEWLINE] + Lines(items[1..])
  }

  function PinnedLines(values: seq<Text>): (r: seq<Text>)
    ensures |r| == |values|
  {
    seq(|values|, (i: nat) requires i < |values| => BULLET + Quoted(values[i]))
  }

  function PinnedHeader(pinned: seq<Text>): Text {
    if pinned == [] then []
    else PINNED_START + [NEWLINE] + Lines(PinnedLines(pinned)) + [NEWLINE] + PINNED_END + [NEWLINE, NEWLINE]
  }

  function Decimal(n: nat): Text {
    if n < 10 then [0x30 + n] else Decimal(n / 10) + [0x30 + n % 10]
  }

  function ReferenceLine(r: ToolResult): Text {
    Lit("- result_read ") + Lit("callId=") + Quoted(r.callId) + Lit("; ")
    + (if r.ok then Lit("ok") else Lit("failed")) + Lit("; ") + Decimal(|r.content|)
    + Lit(" projected ") + Lit("characters")
  }

  function BlockResults(blocks: seq<Block>): seq<ToolResult> {
    if blocks == [] then []
    else (if blocks[0].ResultBlock? then [blocks[0].result] else []) + BlockResults(blocks[1..])
  }

  function Results(messages: seq<Message>): seq<ToolResult> {
    if messages == [] then [] else BlockResults(messages[0].blocks) + Results(messages[1..])
  }

  function WithOutcome(results: seq<ToolResult>, ok: bool): seq<ToolResult> {
    if results == [] then []
    else (if results[0].ok == ok then [results[0]] else []) + WithOutcome(results[1..], ok)
  }

  /** Failed results first, each kind in order, at most sixteen. */
  function References(messages: seq<Message>): seq<Text> {
    var results := Results(messages);
    var sorted := WithOutcome(results, false) + WithOutcome(results, true);
    var first := if |sorted| > 16 then sorted[..16] else sorted;
    seq(|first|, (i: nat) requires i < |first| => ReferenceLine(first[i]))
  }

  function ReferenceText(messages: seq<Message>): Text {
    var references := References(messages);
    if references == [] then []
    else Lit("[Original tool ") + Lit("outputs; ") + Lit("bounded reread ") + Lit("available]") + [NEWLINE]
         + Lines(references) + [NEWLINE, NEWLINE]
  }

  /** Everything before the generated body. */
  ghost function SummaryHeader(pinned: seq<Text>, messages: seq<Message>, summaryBudget: nat): Text {
    PinnedHeader(pinned) + Clipped(SUMMARY, ReferenceText(messages), ReferenceBudget(summaryBudget))
  }

  /** The generated body gets whatever the header and the prefix leave of the budget. */
  ghost function Assembled(header: Text, prefix: Text, generated: Text, budget: nat): Text {
    Trim(header + prefix + Clipped(SUMMARY, generated, Max(0, budget - TextTokens(header) - TextTokens(prefix))))
  }

  ghost function SummaryText(generated: Text, pinned: seq<Text>, messages: seq<Message>, summaryBudget: nat): Text {
    Assembled(SummaryHeader(pinned, messages, summaryBudget), SUMMARY_PREFIX, generated, summaryBudget)
  }

  /** What stableCompactionSummary pins from the messages it compacts. */
  ghost function PinnedFor(messages: seq<Message>, messageBudget: nat): seq<Text> {
    Selection(PinnedCandidates(AllRequirements(messages)), PinnedBudget(SummaryBudget(messageBudget)))
  }

  ghost function CompactionSummary(generated: Text, messages: seq<Message>, messageBudget: nat): Text {
    SummaryText(generated, PinnedFor(messages, messageBudget), messages, SummaryBudget(messageBudget))
  }

  /** stableCompactionSummary. */
  method StableCompactionSummary(generated: Text, messages: seq<Message>, messageBudget: nat) returns (summary: Text)
    ensures summary == CompactionSummary(generated, messages, messageBudget)
  {
    hide Clipped, Selection, PinnedHeader, ReferenceText, Trim, TextTokens, PinnedCandidates, SummaryBudget, AllRequirements;
    hide PinnedBudget, ReferenceBudget, Lit, Max, SUMMARY_PREFIX, SUMMARY;
    var budget := SummaryBudget(messageBudget);
    var pinned := PinnedUserRequirements(messages, PinnedBudget(budget));
    var references := BoundedSummaryText(ReferenceText(messages), ReferenceBudget(budget));
    var header := PinnedHeader(pinned) + references;
    var available := Max(0, budget - TextTokens(header) - TextTokens(SUMMARY_PREFIX));
    var body := BoundedSummaryText(generated, available);
    summary := Trim(header + SUMMARY_PREFIX + body);
  }

  // ---------- the summary fits its budget ----------

  lemma PinnedStartWeight()
    ensures |PINNED_START| == 45 && Weight(PINNED_START) == 45
  {
    hide Weight, Lit;
    AsciiWeight(PINNED_START);
  }

  lemma PinnedEndWeight()
    ensures |PINNED_END| == 30 && Weight(PINNED_END) == 30
  {
    hide Weight, Lit;
    AsciiWeight(PINNED_END);
  }

  lemma PrefixWeight()
    ensures Weight(SUMMARY_PREFIX) == 59
  {
    hide Weight, Lit;
    PrefixHead();
    PrefixTail();
    JoinAssociates(Lit("[Conversation ") + Lit("summary; ") + Lit("subordinate "),
                   Lit("to pinned ") + Lit("requirements]"), [NEWLINE]);
    JoinAssociates(Lit("[Conversation ") + Lit("summary; ") + Lit("subordinate "),
                   Lit("to pinned "), Lit("requirements]"));
    WeightConcat(Lit("[Conversation ") + Lit("summary; ") + Lit("subordinate "),
                 Lit("to pinned ") + Lit("requirements]") + [NEWLINE]);
  }

  lemma PrefixHead()
    ensures Weight(Lit("[Conversation ") + Lit("summary; ") + Lit("subordinate ")) == 35
  {
    hide Weight, Lit;
    AsciiWeight(Lit("[Conversation ") + Lit("summary; ") + Lit("subordinate "));
  }

  lemma PrefixTail()
    ensures Weight(Lit("to pinned ") + Lit("requirements]") + [NEWLINE]) == 24
  {
    hide Weight, Lit;
    AsciiWeight(Lit("to pinned ") + Lit("requirements]") + [NEWLINE]);
  }

  lemma {:induction false} PinnedLinesWeight(pinned: seq<Text>)
    requires pinned != []
    ensures Weight(Lines(PinnedLines(pinned))) <= 4 * QuotedTokens(pinned) + 3 * |pinned| - 1
  {
    hide Weight, Escape;
    AsciiWeight(BULLET);
    WeightOne(NEWLINE);
    var lines := PinnedLines(pinned);
    WeightConcat(BULLET, Quoted(pinned[0]));
    if |pinned| > 1 {
      assert lines[1..] == PinnedLines(pinned[1..]);
      PinnedLinesWeight(pinned[1..]);
      WeightConcat(lines[0] + [NEWLINE], Lines(lines[1..]));
      WeightConcat(lines[0], [NEWLINE]);
    }
  }

  lemma PinnedHeaderTokens(pinned: seq<Text>)
    requires |pinned| <= 8
    ensures TextTokens(PinnedHeader(pinned)) <= QuotedTokens(pinned) + 26
  {
    if pinned != [] {
      hide Weight, Escape, Lines, PinnedLines;
      PinnedStartWeight();
      PinnedEndWeight();
      WeightOne(NEWLINE);
      PinnedLinesWeight(pinned);
      var body := Lines(PinnedLines(pinned));
      var upToBody := PINNED_START + [NEWLINE] + body;
      WeightConcat(upToBody + [NEWLINE] + PINNED_END, [NEWLINE, NEWLINE]);
      WeightConcat(upToBody + [NEWLINE], PINNED_END);
      WeightConcat(upToBody, [NEWLINE]);
      WeightConcat(PINNED_START + [NEWLINE], body);
      WeightConcat(PINNED_START, [NEWLINE]);
      PairWeight(NEWLINE, NEWLINE);
    }
  }

  lemma HeaderTokens(values: seq<Text>, messages: seq<Message>, summaryBudget: nat)
    requires summaryBudget >= 348
    ensures var pinned := Selection(PinnedCandidates(values), PinnedBudget(summaryBudget));
            TextTokens(SummaryHeader(pinned, messages, summaryBudget)) + TextTokens(SUMMARY_PREFIX) <= summaryBudget
  {
    var pinned := Selection(PinnedCandidates(values), PinnedBudget(summaryBudget));
    var references := Clipped(SUMMARY, ReferenceText(messages), ReferenceBudget(summaryBudget));
    SelectionWithinBudget(PinnedCandidates(values), PinnedBudget(summaryBudget));
    PinnedHeaderTokens(pinned);
    ClipFits(SUMMARY, ReferenceText(messages), ReferenceBudget(summaryBudget));
    TokensConcat(PinnedHeader(pinned), references);
    PrefixWeight();
  }

  lemma BudgetAtLeast(messageBudget: nat)
    requires messageBudget >= 1_024
    ensures 348 <= SummaryBudget(messageBudget) <= 3_200
  {
  }

  lemma AssembledFits(header: Text, prefix: Text, generated: Text, budget: nat)
    requires TextTokens(header) + TextTokens(prefix) <= budget
    ensures TextTokens(Assembled(header, prefix, generated, budget)) <= budget
  {
    hide TextTokens, Trim, Clipped;
    var available := budget - TextTokens(header) - TextTokens(prefix);
    var body := Clipped(SUMMARY, generated, available);
    ClipFits(SUMMARY, generated, available);
    TrimNeverAdds(header + prefix + body);
    TokensConcat(header + prefix, body);
    TokensConcat(header, prefix);
    if body == [] {
      assert header + prefix + body == header + prefix;
    }
  }

  /** With a message budget of at least 1,024 tokens the summary fits its own budget,
      whatever was generated, pinned or referenced. */
  lemma SummaryFits(generated: Text, messages: seq<Message>, messageBudget: nat)
    requires messageBudget >= 1_024
    ensures TextTokens(CompactionSummary(generated, messages, messageBudget)) <= SummaryBudget(messageBudget)
  {
    hide TextTokens, Assembled, Selection, PinnedCandidates, SummaryHeader, SummaryBudget, AllRequirements;
    BudgetAtLeast(messageBudget);
    var budget := SummaryBudget(messageBudget);
    HeaderTokens(AllRequirements(messages), messages, budget);
    AssembledFits(SummaryHeader(PinnedFor(messages, messageBudget), messages, budget), SUMMARY_PREFIX, generated, budget);
  }
}
