/** Grouping messages and preparing the model context: groupContextMessages,
    calculateContextBudget and prepareModelContext of packages/agent/src/context-manager.ts. */
module Compaction {
  import opened Sequences
  import opened Numbers
  import opened Texts
  import opened Messages
  import opened Summary
  import opened PinnedRoundTrip

  const LOAD_SKILL: Text := Lit("load_skill")

  // ---------- token estimates ----------

  datatype Tool = Tool(name: Text, description: Text, schemaJson: Text)

  function PartTokens(parts: seq<Part>): nat {
    if parts == [] then 0
    else (if parts[0].ImagePart? then 1_024 else TextTokens(parts[0].text)) + PartTokens(parts[1..])
  }

  function BlockTokens(b: Block): nat {
    match b
    case TextBlock(text) => TextTokens(text) + 3
    case ImageBlock => 1_024
    case FileBlock(json) => TextTokens(json) + 256
    case CallBlock(_, name, json) => TextTokens(name) + TextTokens(json) + 12
    case ResultBlock(r) => Max(TextTokens(r.content), PartTokens(r.parts)) + 12
  }

  function BlocksTokens(blocks: seq<Block>): nat {
    if blocks == [] then 0 else BlockTokens(blocks[0]) + BlocksTokens(blocks[1..])
  }

  function MessageTokens(messages: seq<Message>): nat {
    if messages == [] then 0 else 6 + BlocksTokens(messages[0].blocks) + MessageTokens(messages[1..])
  }

  function ToolTokens(tools: seq<Tool>): nat {
    if tools == [] then 0
    else TextTokens(tools[0].name) + TextTokens(tools[0].description) + TextTokens(tools[0].schemaJson) + 16
         + ToolTokens(tools[1..])
  }

  function InstructionTokens(instructions: seq<Text>): nat {
    if instructions == [] then 0 else TextTokens(instructions[0]) + 8 + InstructionTokens(instructions[1..])
  }

  function ContextTokens(messages: seq<Message>, tools: seq<Tool>, instructions: seq<Text>): nat {
    MessageTokens(messages) + ToolTokens(tools) + InstructionTokens(instructions) + 32
  }

  lemma {:induction false} MessageTokensConcat(a: seq<Message>, b: seq<Message>)
    ensures MessageTokens(a + b) == MessageTokens(a) + MessageTokens(b)
  {
    if a == [] {
      assert a + b == b;
    } else {
      assert (a + b)[1..] == a[1..] + b;
      MessageTokensConcat(a[1..], b);
    }
  }

  // ---------- budgets ----------

  datatype Budget = Budget(target: nat, fixed: nat, messages: nat, overCapacity: bool, minimumWindow: nat)

  function CeilDiv(a: nat, b: nat): nat
    requires b > 0
  {
    (a + b - 1) / b
  }

  function ContextBudget(tools: seq<Tool>, instructions: seq<Text>, window: nat, maxOutput: nat): Budget {
    var target := Max(1_024, window * 82 / 100 - maxOutput);
    var fixed := ContextTokens([], tools, instructions);
    var messages := Max(0, target - fixed);
    Budget(target, fixed, messages, messages < 1_024, CeilDiv((fixed + maxOutput + 1_024) * 100, 82))
  }

  /** The window named in the over-capacity error is exactly the smallest one that is enough. */
  lemma MinimumWindowExact(tools: seq<Tool>, instructions: seq<Text>, window: nat, maxOutput: nat)
    ensures var b := ContextBudget(tools, instructions, window, maxOutput);
            b.overCapacity <==> window < b.minimumWindow
  {
    hide ToolTokens, InstructionTokens, MessageTokens;
  }

  function KeepBudget(messageBudget: nat): nat {
    Max(1_024, messageBudget * 62 / 100)
  }

  const WRAPPER_TOKENS := 24

  /** Kept tail, summary and wrapper fit the message budget exactly from 1,587 tokens on. */
  lemma BudgetsFit(messageBudget: nat)
    requires messageBudget >= 1_024
    ensures KeepBudget(messageBudget) + SummaryBudget(messageBudget) + WRAPPER_TOKENS <= messageBudget
            <==> messageBudget >= 1_587
  {
  }

  lemma SummaryMessageTokens(summary: Text)
    ensures MessageTokens([SummaryMessage(summary)]) <= TextTokens(summary) + WRAPPER_TOKENS
  {
    hide TextTokens, Lit;
    var text := WRAP_START + [NEWLINE] + summary + WRAP_END;
    WrapperTextTokens(summary);
    assert [TextBlock(text)][1..] == [];
    assert BlocksTokens([TextBlock(text)]) == BlockTokens(TextBlock(text)) + BlocksTokens([]);
    var m := SummaryMessage(summary);
    assert [m][1..] == [];
    assert MessageTokens([m]) == 6 + BlocksTokens(m.blocks) + MessageTokens([]);
  }

  lemma WrapWeights()
    ensures Weight(WRAP_START) == 32 && Weight(WRAP_END) == 24
  {
    hide Weight, Lit;
    AsciiWeight(WRAP_START);
    AsciiWeight(WRAP_END);
  }

  lemma WrapperTextTokens(summary: Text)
    ensures TextTokens(WRAP_START + [NEWLINE] + summary + WRAP_END) <= TextTokens(summary) + 15
  {
    hide Weight, Lit;
    WrapWeights();
    WeightOne(NEWLINE);
    WeightConcat(WRAP_START + [NEWLINE] + summary, WRAP_END);
    WeightConcat(WRAP_START + [NEWLINE], summary);
    WeightConcat(WRAP_START, [NEWLINE]);
  }

  // ---------- grouping ----------

  /** A tool message that only answers the given calls. */
  predicate AnswersOnly(m: Message, callIds: set<Text>) {
    m.role == Role.Tool && ResultIds(m) != {} && ResultIds(m) <= callIds
  }

  function Absorbed(callIds: set<Text>, rest: seq<Message>): (n: nat)
    ensures n <= |rest|
  {
    if rest == [] || !AnswersOnly(rest[0], callIds) then 0 else 1 + Absorbed(callIds, rest[1..])
  }

  function FirstGroup(messages: seq<Message>): (n: nat)
    requires messages != []
    ensures 1 <= n <= |messages|
  {
    1 + (if CallIds(messages[0]) == {} then 0 else Absorbed(CallIds(messages[0]), messages[1..]))
  }

  function Groups(messages: seq<Message>): seq<seq<Message>> {
    if messages == [] then []
    else var n := FirstGroup(messages); [messages[..n]] + Groups(messages[n..])
  }

  method GroupContextMessages(messages: seq<Message>) returns (groups: seq<seq<Message>>)
    ensures groups == Groups(messages)
  {
    hide AnswersOnly, Absorbed, CallIds, FirstGroup;
    groups := [];
    var index := 0;
    while index < |messages|
      invariant 0 <= index <= |messages|
      invariant groups + Groups(messages[index..]) == Groups(messages)
    {
      ghost var rest := messages[index..];
      var group := TakeGroup(messages, index);
      var next := index + |group|;
      assert rest[|group|..] == messages[next..];
      assert Groups(rest) == [group] + Groups(messages[next..]);
      JoinAssociates(groups, [group], Groups(messages[next..]));
      groups := groups + [group];
      index := next;
    }
  }

  /** The inner loop: a message with the results that directly follow it. */
  method TakeGroup(messages: seq<Message>, start: nat) returns (group: seq<Message>)
    requires start < |messages|
    ensures |group| == FirstGroup(messages[start..])
    ensures group == messages[start..][..|group|]
  {
    hide AnswersOnly, CallIds;
    var index := start;
    group := [messages[start]];
    var callIds := CallIds(messages[start]);
    ghost var run := messages[start..][1..];
    if callIds != {} {
      assert messages[index + 1..] == run;
      while index + 1 < |messages| && AnswersOnly(messages[index + 1], callIds)
        invariant start <= index < |messages|
        invariant group == messages[start..index + 1]
        invariant index - start + Absorbed(callIds, messages[index + 1..]) == Absorbed(callIds, run)
      {
        assert messages[index + 1..][1..] == messages[index + 2..];
        group := group + [messages[index + 1]];
        index := index + 1;
      }
    }
  }

  function Flatten(groups: seq<seq<Message>>): seq<Message> {
    if groups == [] then [] else groups[0] + Flatten(groups[1..])
  }

  /** Grouping loses, adds and reorders nothing. */
  lemma {:induction false} GroupsConserve(messages: seq<Message>)
    ensures Flatten(Groups(messages)) == messages
    ensures forall i | 0 <= i < |Groups(messages)| :: Groups(messages)[i] != []
  {
    if messages != [] {
      var n := FirstGroup(messages);
      GroupsConserve(messages[n..]);
      assert messages == messages[..n] + messages[n..];
    }
  }

  // ---------- calls and results stay together ----------

  /** Messages j+1..k all answer only calls of message j, so result message k directly follows j. */
  ghost predicate DirectlyFollows(messages: seq<Message>, j: nat, k: nat) {
    j < k < |messages| && forall i | j < i <= k :: AnswersOnly(messages[i], CallIds(messages[j]))
  }

  /** Every result directly follows its call, every call is answered so, and no message both
      calls and answers. */
  ghost predicate DirectlyAnswered(messages: seq<Message>) {
    && (forall k: nat | k < |messages| && ResultIds(messages[k]) != {} ::
          exists j: nat :: DirectlyFollows(messages, j, k))
    && (forall j: nat, id | j < |messages| && id in CallIds(messages[j]) ::
          exists k: nat :: DirectlyFollows(messages, j, k) && id in ResultIds(messages[k]))
    && (forall k: nat | k < |messages| :: CallIds(messages[k]) == {} || ResultIds(messages[k]) == {})
  }

  ghost predicate CalledBefore(part: seq<Message>, k: nat, id: Text) {
    exists j: nat :: j < k && j < |part| && id in CallIds(part[j])
  }

  ghost predicate AnsweredAfter(part: seq<Message>, j: nat, id: Text) {
    exists k: nat :: j < k < |part| && id in ResultIds(part[k])
  }

  /** No result without its call, and no call without a result. */
  ghost predicate Closed(part: seq<Message>) {
    && (forall k: nat, id | k < |part| && id in ResultIds(part[k]) :: CalledBefore(part, k, id))
    && (forall j: nat, id | j < |part| && id in CallIds(part[j]) :: AnsweredAfter(part, j, id))
  }

  lemma {:induction false} AbsorbedExactly(callIds: set<Text>, rest: seq<Message>, n: nat)
    requires n <= |rest|
    ensures n <= Absorbed(callIds, rest) <==> forall i | 0 <= i < n :: AnswersOnly(rest[i], callIds)
  {
    if n > 0 {
      if AnswersOnly(rest[0], callIds) {
        AbsorbedExactly(callIds, rest[1..], n - 1);
        assert forall i | 1 <= i < n :: rest[i] == rest[1..][i - 1];
      }
    }
  }

  /** The first group ends exactly where messages stop directly following its first message. */
  lemma FirstGroupFollows(messages: seq<Message>, k: nat)
    requires messages != [] && k < |messages|
    ensures DirectlyFollows(messages, 0, k) <==> 0 < k < FirstGroup(messages)
  {
    if k > 0 {
      var rest := messages[1..];
      AbsorbedExactly(CallIds(messages[0]), rest, k);
      assert forall i | 0 < i <= k :: messages[i] == rest[i - 1];
      if CallIds(messages[0]) == {} {
        assert !AnswersOnly(messages[k], {});
      }
    }
  }

  lemma FollowsShift(messages: seq<Message>, n: nat, j: nat, k: nat)
    requires n <= |messages|
    ensures DirectlyFollows(messages[n..], j, k) <==> DirectlyFollows(messages, n + j, n + k)
  {
    hide AnswersOnly, CallIds;
    var rest := messages[n..];
    if DirectlyFollows(rest, j, k) {
      forall i | n + j < i <= n + k ensures AnswersOnly(messages[i], CallIds(messages[n + j])) {
        assert messages[i] == rest[i - n];
      }
    }
  }

  lemma FollowsAnswers(messages: seq<Message>, j: nat, k: nat)
    requires DirectlyFollows(messages, j, k)
    ensures ResultIds(messages[k]) != {} && ResultIds(messages[k]) <= CallIds(messages[j])
  {
    hide CallIds, ResultIds;
  }

  /** A message inside the first group answers, so it calls nothing and nothing follows it. */
  lemma InsideFirstGroup(messages: seq<Message>, j: nat)
    requires messages != [] && DirectlyAnswered(messages) && 0 < j < FirstGroup(messages)
    ensures CallIds(messages[j]) == {}
  {
    hide CallIds, ResultIds, FirstGroup;
    FirstGroupFollows(messages, j);
    FollowsAnswers(messages, 0, j);
  }

  lemma LaterGroupsAnswered(messages: seq<Message>)
    requires messages != [] && DirectlyAnswered(messages)
    ensures DirectlyAnswered(messages[FirstGroup(messages)..])
  {
    hide CallIds, ResultIds, FirstGroup, AnswersOnly;
    var n := FirstGroup(messages);
    var rest := messages[n..];
    forall k: nat | k < |rest| && ResultIds(rest[k]) != {}
      ensures exists j: nat :: DirectlyFollows(rest, j, k)
    {
      var j := LaterResult(messages, k);
    }
    forall j: nat, id | j < |rest| && id in CallIds(rest[j])
      ensures exists k: nat :: DirectlyFollows(rest, j, k) && id in ResultIds(rest[k])
    {
      var k := LaterCall(messages, j, id);
    }
  }

  lemma LaterResult(messages: seq<Message>, k: nat) returns (j: nat)
    requires messages != [] && DirectlyAnswered(messages)
    requires FirstGroup(messages) + k < |messages| && ResultIds(messages[FirstGroup(messages) + k]) != {}
    ensures DirectlyFollows(messages[FirstGroup(messages)..], j, k)
  {
    hide CallIds, ResultIds, FirstGroup, AnswersOnly;
    var n := FirstGroup(messages);
    var from: nat :| DirectlyFollows(messages, from, n + k);
    FirstGroupFollows(messages, n + k);
    FollowsAnswers(messages, from, n + k);
    if 0 < from < n {
      InsideFirstGroup(messages, from);
    }
    j := from - n;
    FollowsShift(messages, n, j, k);
  }

  lemma LaterCall(messages: seq<Message>, j: nat, id: Text) returns (k: nat)
    requires messages != [] && DirectlyAnswered(messages)
    requires FirstGroup(messages) + j < |messages| && id in CallIds(messages[FirstGroup(messages) + j])
    ensures var rest := messages[FirstGroup(messages)..];
            DirectlyFollows(rest, j, k) && k < |rest| && id in ResultIds(rest[k])
  {
    hide CallIds, ResultIds, FirstGroup, AnswersOnly;
    var n := FirstGroup(messages);
    var at: nat :| DirectlyFollows(messages, n + j, at) && id in ResultIds(messages[at]);
    k := at - n;
    FollowsShift(messages, n, j, k);
  }

  lemma FollowsOrder(messages: seq<Message>, j: nat, k: nat)
    requires DirectlyFollows(messages, j, k)
    ensures j < k < |messages|
  {
  }

  lemma FirstGroupClosed(messages: seq<Message>)
    requires messages != [] && DirectlyAnswered(messages)
    ensures Closed(messages[..FirstGroup(messages)])
  {
    hide CallIds, ResultIds, FirstGroup, AnswersOnly;
    var n := FirstGroup(messages);
    var part := messages[..n];
    forall k: nat, id | k < n && id in ResultIds(part[k])
      ensures CalledBefore(part, k, id)
    {
      assert ResultIds(messages[k]) != {};
      var j: nat :| DirectlyFollows(messages, j, k);
      FollowsOrder(messages, j, k);
      FirstGroupFollows(messages, k);
      FollowsAnswers(messages, 0, k);
      assert id in CallIds(part[0]);
    }
    forall j: nat, id | j < n && id in CallIds(part[j])
      ensures AnsweredAfter(part, j, id)
    {
      if j > 0 {
        InsideFirstGroup(messages, j);
      }
      var k: nat :| DirectlyFollows(messages, 0, k) && id in ResultIds(messages[k]);
      FollowsOrder(messages, 0, k);
      FirstGroupFollows(messages, k);
      assert part[k] == messages[k];
    }
  }

  lemma {:induction false} GroupsClosed(messages: seq<Message>)
    requires DirectlyAnswered(messages)
    ensures forall i | 0 <= i < |Groups(messages)| :: Closed(Groups(messages)[i])
  {
    hide Closed, DirectlyAnswered, FirstGroup;
    if messages != [] {
      var n := FirstGroup(messages);
      FirstGroupClosed(messages);
      LaterGroupsAnswered(messages);
      GroupsClosed(messages[n..]);
    }
  }

  lemma CalledBeforeShift(a: seq<Message>, b: seq<Message>, k: nat, id: Text)
    ensures CalledBefore(a, k, id) ==> CalledBefore(a + b, k, id)
    ensures CalledBefore(b, k, id) ==> CalledBefore(a + b, |a| + k, id)
  {
    hide CallIds;
    if CalledBefore(a, k, id) {
      var j: nat :| j < k && j < |a| && id in CallIds(a[j]);
      assert (a + b)[j] == a[j];
    }
    if CalledBefore(b, k, id) {
      var j: nat :| j < k && j < |b| && id in CallIds(b[j]);
      assert (a + b)[|a| + j] == b[j];
    }
  }

  lemma AnsweredAfterShift(a: seq<Message>, b: seq<Message>, j: nat, id: Text)
    ensures AnsweredAfter(a, j, id) ==> AnsweredAfter(a + b, j, id)
    ensures AnsweredAfter(b, j, id) ==> AnsweredAfter(a + b, |a| + j, id)
  {
    hide ResultIds;
    if AnsweredAfter(a, j, id) {
      var k: nat :| j < k < |a| && id in ResultIds(a[k]);
      assert (a + b)[k] == a[k];
    }
    if AnsweredAfter(b, j, id) {
      var k: nat :| j < k < |b| && id in ResultIds(b[k]);
      assert (a + b)[|a| + k] == b[k];
    }
  }

  lemma ClosedConcat(a: seq<Message>, b: seq<Message>)
    requires Closed(a) && Closed(b)
    ensures Closed(a + b)
  {
    hide CallIds, ResultIds, CalledBefore, AnsweredAfter;
    var c := a + b;
    forall k: nat, id | k < |c| && id in ResultIds(c[k])
      ensures CalledBefore(c, k, id)
    {
      if k < |a| {
        CalledBeforeShift(a, b, k, id);
      } else {
        CalledBeforeShift(a, b, k - |a|, id);
      }
    }
    forall j: nat, id | j < |c| && id in CallIds(c[j])
      ensures AnsweredAfter(c, j, id)
    {
      if j < |a| {
        AnsweredAfterShift(a, b, j, id);
      } else {
        AnsweredAfterShift(a, b, j - |a|, id);
      }
    }
  }

  lemma {:induction false} FlattenClosed(groups: seq<seq<Message>>)
    requires forall i | 0 <= i < |groups| :: Closed(groups[i])
    ensures Closed(Flatten(groups))
  {
    if groups != [] {
      FlattenClosed(groups[1..]);
      ClosedConcat(groups[0], Flatten(groups[1..]));
    }
  }

  // ---------- choosing what to keep ----------

  predicate LoadsSkill(group: seq<Message>) {
    exists m | m in group :: exists b | b in m.blocks :: b.CallBlock? && b.name == LOAD_SKILL
  }

  function SkillGroups(groups: seq<seq<Message>>): seq<seq<Message>> {
    if groups == [] then []
    else (if LoadsSkill(groups[0]) then [groups[0]] else []) + SkillGroups(groups[1..])
  }

  function OtherGroups(groups: seq<seq<Message>>): seq<seq<Message>> {
    if groups == [] then []
    else (if LoadsSkill(groups[0]) then [] else [groups[0]]) + OtherGroups(groups[1..])
  }

  function GroupTokens(groups: seq<seq<Message>>): nat {
    if groups == [] then 0 else MessageTokens(groups[0]) + GroupTokens(groups[1..])
  }

  /** Where the kept tail starts: groups are taken from the end while they fit the keep budget,
      the last one unconditionally, and never the first group. */
  ghost function TailStart(groups: seq<seq<Message>>, keepBudget: nat, from: nat): (s: nat)
    requires from <= |groups|
    ensures s <= from
  {
    if from <= 1 then from
    else if from < |groups| && GroupTokens(groups[from - 1..]) > keepBudget then from
    else TailStart(groups, keepBudget, from - 1)
  }

  /** The kept tail fits the keep budget unless it is a single last group that does not. */
  lemma {:induction false} TailFits(groups: seq<seq<Message>>, keepBudget: nat, from: nat)
    requires from <= |groups|
    requires GroupTokens(groups[from..]) <= keepBudget || (from == |groups| - 1 && from > 0)
    ensures var s := TailStart(groups, keepBudget, from);
            GroupTokens(groups[s..]) <= keepBudget || (s == |groups| - 1 && s > 0)
  {
    if from > 1 && (from == |groups| || GroupTokens(groups[from - 1..]) <= keepBudget) {
      TailFits(groups, keepBudget, from - 1);
    }
  }

  lemma TailStep(all: seq<seq<Message>>, keepBudget: nat, n: nat)
    requires 0 < n <= |all|
    ensures all[n - 1..] == [all[n - 1]] + all[n..]
    ensures GroupTokens(all[n - 1..]) == MessageTokens(all[n - 1]) + GroupTokens(all[n..])
    ensures TailStart(all, keepBudget, n) ==
            if n == 1 || (n < |all| && GroupTokens(all[n - 1..]) > keepBudget) then n
            else TailStart(all, keepBudget, n - 1)
  {
    hide MessageTokens;
    assert all[n - 1..][1..] == all[n..];
  }

  method KeepTail(all: seq<seq<Message>>, keepBudget: nat)
    returns (groups: seq<seq<Message>>, kept: seq<seq<Message>>)
    ensures var s := TailStart(all, keepBudget, |all|);
            groups == all[..s] && kept == all[s..]
  {
    hide MessageTokens, GroupTokens, TailStart;
    groups, kept := all, [];
    var keptTokens := 0;
    assert all[|all|..] == [];
    EmptyTail(all, keepBudget);
    while |groups| > 1
      invariant |groups| <= |all| && groups == all[..|groups|] && kept == all[|groups|..]
      invariant keptTokens == GroupTokens(kept)
      invariant TailStart(all, keepBudget, |groups|) == TailStart(all, keepBudget, |all|)
    {
      var n := |groups|;
      TailStep(all, keepBudget, n);
      var candidate := groups[n - 1];
      var candidateTokens := MessageTokens(candidate);
      if |kept| > 0 && keptTokens + candidateTokens > keepBudget {
        return;
      }
      kept := [candidate] + kept;
      keptTokens := keptTokens + candidateTokens;
      groups := groups[..n - 1];
    }
    if |groups| == 1 {
      TailStep(all, keepBudget, 1);
    }
  }

  lemma EmptyTail(all: seq<seq<Message>>, keepBudget: nat)
    ensures GroupTokens([]) == 0 && TailStart(all, keepBudget, 0) == 0
  {
  }

  // ---------- preparing the context ----------

  datatype Summarized = NotCompacted | Compacted(summary: Text, retainedTail: seq<Message>, tokensBefore: nat)

  datatype Outcome =
    | ContextOverflow
    | Prepared(messages: seq<Message>, estimatedTokens: nat, compactedMessages: nat, compaction: Summarized)

  datatype Request = Request(
    messages: seq<Message>, tools: seq<Tool>, instructions: seq<Text>, window: nat, maxOutput: nat)
  {
    function Budget(): Budget { ContextBudget(tools, instructions, window, maxOutput) }

    function Estimate(messages: seq<Message>): nat { ContextTokens(messages, tools, instructions) }

    ghost function KeepFrom(): (s: nat)
      ensures s <= |Groups(messages)|
    {
      TailStart(Groups(messages), KeepBudget(Budget().messages), |Groups(messages)|)
    }

    /** Groups carried behind the summary: skill groups of the old part, then the tail. */
    ghost function KeptGroups(): seq<seq<Message>> {
      SkillGroups(Groups(messages)[..KeepFrom()]) + Groups(messages)[KeepFrom()..]
    }

    ghost function OldGroups(): seq<seq<Message>> {
      OtherGroups(Groups(messages)[..KeepFrom()])
    }
  }

  /** What prepareModelContext answers, whatever text `generated` the summarizer returned. */
  ghost function Preparation(r: Request, generated: Text): Outcome {
    var estimated := r.Estimate(r.messages);
    if r.Budget().overCapacity then ContextOverflow
    else if estimated <= r.Budget().target || Flatten(r.OldGroups()) == [] then
      Prepared(r.messages, estimated, 0, NotCompacted)
    else
      var compacted := Flatten(r.OldGroups());
      var summary := CompactionSummary(generated, compacted, r.Budget().messages);
      var tail := Flatten(r.KeptGroups());
      var messages := [SummaryMessage(summary)] + tail;
      if r.Estimate(messages) > r.Budget().target then ContextOverflow
      else Prepared(messages, r.Estimate(messages), |compacted|, Compacted(summary, tail, estimated))
  }

  /** prepareModelContext, from the projected messages on. */
  method PrepareModelContext(r: Request, generated: Text) returns (o: Outcome)
    ensures o == Preparation(r, generated)
  {
    hide ContextBudget, ContextTokens, CompactionSummary, Groups, TailStart, SummaryMessage, Flatten, KeepBudget;
    hide SkillGroups, OtherGroups;
    var budget := r.Budget();
    var estimatedTokens := r.Estimate(r.messages);
    if budget.overCapacity {
      return ContextOverflow;
    }
    if estimatedTokens <= budget.target {
      return Prepared(r.messages, estimatedTokens, 0, NotCompacted);
    }
    var groups := GroupContextMessages(r.messages);
    var kept;
    groups, kept := KeepTail(groups, KeepBudget(budget.messages));
    var skills := SkillGroups(groups);
    groups := OtherGroups(groups);
    kept := skills + kept;
    var compacted := Flatten(groups);
    if |compacted| == 0 {
      return Prepared(r.messages, estimatedTokens, 0, NotCompacted);
    }
    var summary := StableCompactionSummary(generated, compacted, budget.messages);
    var messages := [SummaryMessage(summary)] + Flatten(kept);
    var tokensBefore := estimatedTokens;
    estimatedTokens := r.Estimate(messages);
    if estimatedTokens > budget.target {
      return ContextOverflow;
    }
    o := Prepared(messages, estimatedTokens, |compacted|, Compacted(summary, Flatten(kept), tokensBefore));
  }

  // ---------- conservation ----------

  /** all is an interleaving of a and b that keeps the order of both. */
  ghost predicate OrderedSplit<T>(all: seq<T>, a: seq<T>, b: seq<T>) {
    if all == [] then a == [] && b == []
    else
      || (a != [] && a[0] == all[0] && OrderedSplit(all[1..], a[1..], b))
      || (b != [] && b[0] == all[0] && OrderedSplit(all[1..], a, b[1..]))
  }

  lemma {:induction false} SplitExtends<T>(block: seq<T>, all: seq<T>, a: seq<T>, b: seq<T>)
    requires OrderedSplit(all, a, b)
    ensures OrderedSplit(block + all, block + a, b)
    ensures OrderedSplit(block + all, a, block + b)
  {
    if block == [] {
      assert block + all == all && block + a == a && block + b == b;
    } else {
      SplitExtends(block[1..], all, a, b);
      assert (block + all)[1..] == block[1..] + all;
      assert (block + a)[1..] == block[1..] + a;
      assert (block + b)[1..] == block[1..] + b;
    }
  }

  lemma {:induction false} FlattenConcat(a: seq<seq<Message>>, b: seq<seq<Message>>)
    ensures Flatten(a + b) == Flatten(a) + Flatten(b)
  {
    if a == [] {
      assert a + b == b;
    } else {
      assert (a + b)[1..] == a[1..] + b;
      FlattenConcat(a[1..], b);
    }
  }

  lemma {:induction false} OldSplit(front: seq<seq<Message>>, tail: seq<seq<Message>>)
    ensures OrderedSplit(Flatten(front + tail), Flatten(SkillGroups(front) + tail), Flatten(OtherGroups(front)))
  {
    if front == [] {
      assert front + tail == tail && SkillGroups(front) + tail == tail;
      AllKept(Flatten(tail));
    } else {
      hide OrderedSplit, LoadsSkill;
      OldSplit(front[1..], tail);
      var kept, rest := SkillGroups(front[1..]) + tail, OtherGroups(front[1..]);
      SplitExtends(front[0], Flatten(front[1..] + tail), Flatten(kept), Flatten(rest));
      assert front + tail == [front[0]] + (front[1..] + tail);
      FlattenFirst(front[0], front[1..] + tail);
      PartsFirst(front, tail);
    }
  }

  lemma PartsFirst(front: seq<seq<Message>>, tail: seq<seq<Message>>)
    requires front != []
    ensures var kept, rest := SkillGroups(front[1..]) + tail, OtherGroups(front[1..]);
            if LoadsSkill(front[0]) then
              Flatten(SkillGroups(front) + tail) == front[0] + Flatten(kept) && Flatten(OtherGroups(front)) == Flatten(rest)
            else
              Flatten(SkillGroups(front) + tail) == Flatten(kept) && Flatten(OtherGroups(front)) == front[0] + Flatten(rest)
  {
    hide LoadsSkill, Flatten;
    if LoadsSkill(front[0]) {
      assert SkillGroups(front) + tail == [front[0]] + (SkillGroups(front[1..]) + tail);
      assert OtherGroups(front) == OtherGroups(front[1..]);
      FlattenFirst(front[0], SkillGroups(front[1..]) + tail);
    } else {
      assert SkillGroups(front) + tail == SkillGroups(front[1..]) + tail;
      assert OtherGroups(front) == [front[0]] + OtherGroups(front[1..]);
      FlattenFirst(front[0], OtherGroups(front[1..]));
    }
  }

  lemma FlattenFirst(first: seq<Message>, rest: seq<seq<Message>>)
    ensures Flatten([first] + rest) == first + Flatten(rest)
  {
    assert ([first] + rest)[1..] == rest;
  }

  lemma {:induction false} AllKept<T>(all: seq<T>)
    ensures OrderedSplit(all, all, [])
  {
    if all != [] {
      AllKept(all[1..]);
    }
  }

  /** Compaction splits the messages, in order, into the retained tail and the compacted part. */
  lemma CompactionConserves(r: Request, generated: Text)
    ensures var o := Preparation(r, generated);
            o.Prepared? && o.compaction.Compacted? ==>
              && o.messages == [SummaryMessage(o.compaction.summary)] + o.compaction.retainedTail
              && o.compactedMessages == |Flatten(r.OldGroups())| > 0
              && OrderedSplit(r.messages, o.compaction.retainedTail, Flatten(r.OldGroups()))
  {
    hide TailStart, CompactionSummary, ContextTokens, ContextBudget, Groups, SummaryMessage;
    var groups := Groups(r.messages);
    GroupsConserve(r.messages);
    assert groups == groups[..r.KeepFrom()] + groups[r.KeepFrom()..];
    OldSplit(groups[..r.KeepFrom()], groups[r.KeepFrom()..]);
  }

  lemma {:induction false} PartsOfGroups(groups: seq<seq<Message>>)
    ensures forall g | g in SkillGroups(groups) || g in OtherGroups(groups) :: g in groups
  {
    hide LoadsSkill;
    if groups != [] {
      PartsOfGroups(groups[1..]);
      assert groups[0] in groups && forall g | g in groups[1..] :: g in groups;
    }
  }

  /** Neither part has a result without its call or a call without its results. */
  lemma CompactionKeepsPairs(r: Request)
    requires DirectlyAnswered(r.messages)
    ensures Closed(Flatten(r.KeptGroups())) && Closed(Flatten(r.OldGroups()))
  {
    hide Closed, DirectlyAnswered, TailStart, Groups, LoadsSkill, ContextBudget;
    var groups := Groups(r.messages);
    GroupsClosed(r.messages);
    assert forall g | g in groups :: Closed(g);
    PartsOfGroups(groups[..r.KeepFrom()]);
    assert forall g | g in groups[..r.KeepFrom()] :: g in groups;
    assert forall g | g in groups[r.KeepFrom()..] :: g in groups;
    FlattenClosed(r.KeptGroups());
    FlattenClosed(r.OldGroups());
  }

  // ---------- success ----------

  lemma {:induction false} FlattenTokens(groups: seq<seq<Message>>)
    ensures MessageTokens(Flatten(groups)) == GroupTokens(groups)
  {
    if groups != [] {
      FlattenTokens(groups[1..]);
      MessageTokensConcat(groups[0], Flatten(groups[1..]));
    }
  }

  /** From a message budget of 1,587 tokens on, compaction succeeds whenever the kept groups fit
      the keep budget, for any summarizer output. */
  lemma CompactionSucceeds(r: Request, generated: Text)
    requires r.Budget().messages >= 1_587
    requires GroupTokens(r.KeptGroups()) <= KeepBudget(r.Budget().messages)
    ensures Preparation(r, generated).Prepared?
  {
    hide TailStart, CompactionSummary, Groups, SummaryMessage, Flatten, MessageTokens, ToolTokens, InstructionTokens;
    hide GroupTokens, TextTokens, KeepBudget, SummaryBudget;
    var m := r.Budget().messages;
    var compacted := Flatten(r.OldGroups());
    var summary := CompactionSummary(generated, compacted, m);
    SummaryFits(generated, compacted, m);
    SummaryMessageTokens(summary);
    FlattenTokens(r.KeptGroups());
    MessageTokensConcat([SummaryMessage(summary)], Flatten(r.KeptGroups()));
    BudgetsFit(m);
    FixedTokens(r);
  }

  lemma FixedTokens(r: Request)
    ensures forall ms :: r.Estimate(ms) == MessageTokens(ms) + r.Budget().fixed
    ensures r.Budget().messages > 0 ==> r.Budget().target == r.Budget().fixed + r.Budget().messages
  {
    hide ToolTokens, InstructionTokens;
    assert MessageTokens([]) == 0;
  }

  lemma {:induction false} NoSkills(groups: seq<seq<Message>>)
    requires forall g | g in groups :: !LoadsSkill(g)
    ensures SkillGroups(groups) == []
  {
    if groups != [] {
      NoSkills(groups[1..]);
    }
  }

  /** The kept groups fit when the last group does and no skill is loaded outside the tail. */
  lemma KeptGroupsFit(r: Request)
    requires var gs := Groups(r.messages);
             gs != [] && MessageTokens(gs[|gs| - 1]) <= KeepBudget(r.Budget().messages)
    requires forall g | g in Groups(r.messages)[..r.KeepFrom()] :: !LoadsSkill(g)
    ensures GroupTokens(r.KeptGroups()) <= KeepBudget(r.Budget().messages)
  {
    hide TailStart, Groups, LoadsSkill, MessageTokens, ContextBudget, KeepBudget;
    var gs, keep := Groups(r.messages), KeepBudget(r.Budget().messages);
    assert GroupTokens(gs[|gs|..]) == 0;
    TailFits(gs, keep, |gs|);
    NoSkills(gs[..r.KeepFrom()]);
    assert r.KeptGroups() == gs[r.KeepFrom()..];
    if r.KeepFrom() == |gs| - 1 {
      assert gs[|gs| - 1..] == [gs[|gs| - 1]];
      assert [gs[|gs| - 1]][1..] == [];
      assert GroupTokens([gs[|gs| - 1]]) == MessageTokens(gs[|gs| - 1]) + GroupTokens([]);
    }
  }

  /** A prepared context is measured truthfully, and exceeds its target exactly when the messages
      did and everything before the kept tail loads a skill. */
  lemma PreparedWithinTarget(r: Request, generated: Text)
    requires Preparation(r, generated).Prepared?
    ensures var o := Preparation(r, generated);
            && o.estimatedTokens == r.Estimate(o.messages)
            && (o.estimatedTokens > r.Budget().target
                <==> r.Estimate(r.messages) > r.Budget().target
                     && forall g | g in Groups(r.messages)[..r.KeepFrom()] :: LoadsSkill(g))
  {
    hide TailStart, CompactionSummary, SummaryMessage, ContextTokens, ContextBudget, LoadsSkill, Groups;
    var front := Groups(r.messages)[..r.KeepFrom()];
    GroupsConserve(r.messages);
    AllSkills(front);
  }

  lemma {:induction false} AllSkills(groups: seq<seq<Message>>)
    requires forall i | 0 <= i < |groups| :: groups[i] != []
    ensures Flatten(OtherGroups(groups)) == [] <==> forall g | g in groups :: LoadsSkill(g)
  {
    hide LoadsSkill;
    if groups != [] {
      AllSkills(groups[1..]);
      assert groups[0] in groups && forall g | g in groups[1..] :: g in groups;
      assert forall g | g in groups :: g == groups[0] || g in groups[1..];
      if LoadsSkill(groups[0]) {
        assert OtherGroups(groups) == OtherGroups(groups[1..]);
      }
      if !LoadsSkill(groups[0]) {
        assert OtherGroups(groups) == [groups[0]] + OtherGroups(groups[1..]);
        assert OtherGroups(groups)[1..] == OtherGroups(groups[1..]);
      }
    }
  }

  /** One message that loads a skill and is larger than the whole target. */
  function SkillMessage(): Message {
    Message(Assistant, [CallBlock([], LOAD_SKILL, seq(40_000, i => 0x61))], false, false)
  }

  lemma SkillMessageTokens()
    ensures MessageTokens([SkillMessage()]) >= 10_000
  {
    hide Weight;
    var json: Text := seq(40_000, i => 0x61);
    AsciiWeight(json);
    assert TextTokens(json) >= 10_000;
    assert [SkillMessage()][1..] == [] && SkillMessage().blocks[1..] == [];
  }

  /** A context that is prepared far above its target. */
  lemma SkillsExceedTarget()
    ensures exists r, generated :: Preparation(r, generated).Prepared?
                                   && Preparation(r, generated).estimatedTokens > r.Budget().target
  {
    hide Weight, SkillMessage, LOAD_SKILL;
    var r := Request([SkillMessage()], [], [], 10_000, 0);
    SkillMessageTokens();
    OneSkillGroup();
    assert r.Budget().target == 8_200 && !r.Budget().overCapacity;
    assert Flatten(r.OldGroups()) == [];
    assert Preparation(r, []).Prepared?;
  }

  lemma OneSkillGroup()
    ensures forall keepBudget: nat ::
              var gs := Groups([SkillMessage()]);
              TailStart(gs, keepBudget, |gs|) <= |gs| && OtherGroups(gs[..TailStart(gs, keepBudget, |gs|)]) == []
  {
    var ms := [SkillMessage()];
    assert ms[1..] == [] && ms[..1] == ms;
    assert Absorbed(CallIds(ms[0]), []) == 0;
    assert FirstGroup(ms) == 1;
    var gs := Groups(ms);
    assert gs == [ms];
    assert LoadsSkill(ms) by {
      assert SkillMessage() in ms && SkillMessage().blocks[0] in SkillMessage().blocks;
    }
    assert OtherGroups(gs) == [] by { assert gs[1..] == []; }
    forall keepBudget: nat ensures TailStart(gs, keepBudget, |gs|) <= |gs| && OtherGroups(gs[..TailStart(gs, keepBudget, |gs|)]) == [] {
      assert gs[..0] == [] && gs[..1] == gs;
    }
  }
}
