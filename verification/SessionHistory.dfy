/** The durable history of a session over any number of compactions: the projection of
    packages/agent-runtime/src/context/projection.ts, fed by prepareModelContext. Two things last
    for good: the requirement the conversation opens with, and calls beside their results. */
module SessionHistory {
  import opened Sequences
  import opened Texts
  import opened Messages
  import opened Requirements
  import opened Clip
  import opened Summary
  import opened PinnedRoundTrip
  import opened Compaction

  /** A durable entry. The context of a hook is kept as the internal message it is shown as. */
  datatype Entry =
    | MessageEntry(message: Message)
    | HookEntry(message: Message)
    | CompactionEntry(summary: Text, retainedTail: seq<Message>)
    | OtherEntry

  function Shown(e: Entry): seq<Message> {
    if e.MessageEntry? || e.HookEntry? then [e.message] else []
  }

  /** What a history projects to: the latest compaction replaces everything before it. */
  function Projected(entries: seq<Entry>): seq<Message> {
    if entries == [] then []
    else
      var last := entries[|entries| - 1];
      if last.CompactionEntry? then [SummaryMessage(last.summary)] + last.retainedTail
      else Projected(entries[..|entries| - 1]) + Shown(last)
  }

  function ShownAll(entries: seq<Entry>): seq<Message> {
    if entries == [] then [] else ShownAll(entries[..|entries| - 1]) + Shown(entries[|entries| - 1])
  }

  lemma {:induction false} ProjectedFrom(entries: seq<Entry>, n: nat)
    requires n <= |entries| && forall i | n <= i < |entries| :: !entries[i].CompactionEntry?
    ensures Projected(entries) == Projected(entries[..n]) + ShownAll(entries[n..])
    decreases |entries|
  {
    hide Shown, SummaryMessage;
    if n == |entries| {
      assert entries[..n] == entries && entries[n..] == [];
      NothingShown();
    } else {
      var front, last := entries[..|entries| - 1], entries[|entries| - 1];
      ProjectedFrom(front, n);
      assert front[..n] == entries[..n];
      assert entries[n..][..|entries[n..]| - 1] == front[n..];
      JoinAssociates(Projected(front[..n]), ShownAll(front[n..]), Shown(last));
    }
  }

  /** projectEntriesToMessages. */
  method ProjectEntries(entries: seq<Entry>) returns (messages: seq<Message>)
    ensures messages == Projected(entries)
  {
    hide Projected, ShownAll, SummaryMessage;
    var latest := |entries|;
    while latest > 0 && !entries[latest - 1].CompactionEntry?
      invariant 0 <= latest <= |entries|
      invariant forall i | latest <= i < |entries| :: !entries[i].CompactionEntry?
    {
      latest := latest - 1;
    }
    ProjectedFrom(entries, latest);
    LatestProjected(entries, latest);
    messages := if latest > 0 then [SummaryMessage(entries[latest - 1].summary)] + entries[latest - 1].retainedTail else [];
    NothingShown();
    assert entries[latest..latest] == [];
    assert messages + ShownAll([]) == messages;
    for i := latest to |entries|
      invariant messages == Projected(entries[..latest]) + ShownAll(entries[latest..i])
    {
      ShownNext(entries, latest, i);
      JoinAssociates(Projected(entries[..latest]), ShownAll(entries[latest..i]), Shown(entries[i]));
      messages := messages + Shown(entries[i]);
    }
    assert entries[latest..|entries|] == entries[latest..];
  }

  lemma LatestProjected(entries: seq<Entry>, latest: nat)
    requires latest <= |entries| && (latest > 0 ==> entries[latest - 1].CompactionEntry?)
    ensures Projected(entries[..latest]) ==
            if latest > 0 then [SummaryMessage(entries[latest - 1].summary)] + entries[latest - 1].retainedTail else []
  {
  }

  lemma NothingShown()
    ensures ShownAll([]) == []
    ensures forall m: seq<Message> :: m + [] == m
  {
  }

  lemma ShownNext(entries: seq<Entry>, from: nat, i: nat)
    requires from <= i < |entries|
    ensures ShownAll(entries[from..i + 1]) == ShownAll(entries[from..i]) + Shown(entries[i])
  {
    assert entries[from..i + 1][..i - from] == entries[from..i];
  }

  /** The places of the message and hook entries from one on, in order. */
  ghost predicate Places(entries: seq<Entry>, from: nat, at: seq<nat>) {
    && (forall i | 0 <= i < |at| :: from <= at[i] < |entries| && (entries[at[i]].MessageEntry? || entries[at[i]].HookEntry?))
    && (forall i, j | 0 <= i < j < |at| :: at[i] < at[j])
    && forall k | from <= k < |entries| && (entries[k].MessageEntry? || entries[k].HookEntry?) :: k in at
  }

  /** The messages shown from one place on are those at the given places. */
  ghost predicate ShownAt(entries: seq<Entry>, from: nat, at: seq<nat>)
    requires from <= |entries|
  {
    && Places(entries, from, at)
    && ShownAll(entries[from..]) == seq(|at|, i requires 0 <= i < |at| => entries[at[i]].message)
  }

  lemma {:induction false} ShownPlaces(entries: seq<Entry>, from: nat) returns (at: seq<nat>)
    requires from <= |entries|
    ensures ShownAt(entries, from, at)
    decreases |entries|
  {
    if from == |entries| {
      at := [];
    } else {
      hide ShownAt;
      at := ShownPlaces(entries[..|entries| - 1], from);
      at := ShownStep(entries, from, at);
    }
  }

  lemma ShownStep(entries: seq<Entry>, from: nat, before: seq<nat>) returns (at: seq<nat>)
    requires from < |entries| && ShownAt(entries[..|entries| - 1], from, before)
    ensures ShownAt(entries, from, at)
  {
    hide Places, ShownAll;
    var front, last, n := entries[..|entries| - 1], entries[|entries| - 1], |entries| - 1;
    PlacesInside(front, from, before);
    NextPlace(entries, from, before);
    ShownNext(entries, from, n);
    assert entries[from..n + 1] == entries[from..] && front[from..] == entries[from..n];
    at := if last.MessageEntry? || last.HookEntry? then before + [n] else before;
    PlacesInside(entries, from, at);
    assert forall i | 0 <= i < |before| :: front[before[i]] == entries[before[i]];
  }

  lemma PlacesInside(entries: seq<Entry>, from: nat, at: seq<nat>)
    requires Places(entries, from, at)
    ensures forall i | 0 <= i < |at| :: at[i] < |entries| && (entries[at[i]].MessageEntry? || entries[at[i]].HookEntry?)
  {
  }

  lemma NextPlace(entries: seq<Entry>, from: nat, at: seq<nat>)
    requires from < |entries| && Places(entries[..|entries| - 1], from, at)
    ensures var last := entries[|entries| - 1];
            Places(entries, from, if last.MessageEntry? || last.HookEntry? then at + [|entries| - 1] else at)
  {
    var front, n := entries[..|entries| - 1], |entries| - 1;
    forall k | from <= k < n && (entries[k].MessageEntry? || entries[k].HookEntry?) ensures k in at {
      assert front[k] == entries[k];
    }
    var after := at + [n];
    assert after[|at|] == n;
  }

  /** A history shows the latest compaction's summary and tail, if there is one, and behind them the
      messages of every message and hook entry since, each once and in order, and nothing else. */
  lemma ProjectionShowsAll(entries: seq<Entry>, latest: nat) returns (at: seq<nat>)
    requires latest <= |entries| && (latest > 0 ==> entries[latest - 1].CompactionEntry?)
    requires forall i | latest <= i < |entries| :: !entries[i].CompactionEntry?
    ensures Places(entries, latest, at)
    ensures var before := if latest > 0 then [SummaryMessage(entries[latest - 1].summary)] + entries[latest - 1].retainedTail else [];
            Projected(entries) == before + seq(|at|, i requires 0 <= i < |at| => entries[at[i]].message)
  {
    hide SummaryMessage, Projected, ShownAll, Places;
    ProjectedFrom(entries, latest);
    LatestProjected(entries, latest);
    at := ShownPlaces(entries, latest);
    PlacesInside(entries, latest, at);
  }

  // ---------- what prepareModelContext starts from ----------

  function WithoutTraces(messages: seq<Message>): seq<Message> {
    if messages == [] then []
    else
      var last := messages[|messages| - 1];
      WithoutTraces(messages[..|messages| - 1]) + if last.hostTrace then [] else [last]
  }

  /** A block after reclaiming: only the content of a result may differ. */
  predicate SameBlock(a: Block, b: Block) {
    a == b || (a.ResultBlock? && b.ResultBlock? && a.result.callId == b.result.callId && a.result.ok == b.result.ok)
  }

  ghost predicate SameMessage(a: Message, b: Message) {
    && a.role == b.role && a.internal == b.internal && a.hostTrace == b.hostTrace && |a.blocks| == |b.blocks|
    && forall i | 0 <= i < |a.blocks| :: SameBlock(a.blocks[i], b.blocks[i])
  }

  ghost predicate Reclaimed(before: seq<Message>, after: seq<Message>) {
    |before| == |after| && forall i | 0 <= i < |before| :: SameMessage(before[i], after[i])
  }

  // ---------- a session's life ----------

  /** Entries are appended, or a context prepared; a compaction it makes becomes an entry. */
  datatype Action = Append(entries: seq<Entry>) | Prepare(request: Request, generated: Text)

  ghost predicate Fitting(entries: seq<Entry>, a: Action) {
    match a
    case Append(added) => forall i | 0 <= i < |added| :: !added[i].CompactionEntry?
    case Prepare(request, _) => Reclaimed(WithoutTraces(Projected(entries)), request.messages)
  }

  ghost function Step(entries: seq<Entry>, a: Action): seq<Entry> {
    match a
    case Append(added) => entries + added
    case Prepare(request, generated) =>
      var o := Preparation(request, generated);
      if o.Prepared? && o.compaction.Compacted? then
        entries + [CompactionEntry(o.compaction.summary, o.compaction.retainedTail)]
      else entries
  }

  ghost function Run(entries: seq<Entry>, actions: seq<Action>): seq<Entry>
    decreases |actions|
  {
    if actions == [] then entries else Run(Step(entries, actions[0]), actions[1..])
  }

  ghost predicate AllFitting(entries: seq<Entry>, actions: seq<Action>)
    decreases |actions|
  {
    actions == [] || (Fitting(entries, actions[0]) && AllFitting(Step(entries, actions[0]), actions[1..]))
  }

  lemma AppendProjected(entries: seq<Entry>, added: seq<Entry>)
    requires forall i | 0 <= i < |added| :: !added[i].CompactionEntry?
    ensures Projected(entries + added) == Projected(entries) + ShownAll(added)
  {
    var all := entries + added;
    assert all[..|entries|] == entries && all[|entries|..] == added;
    ProjectedFrom(all, |entries|);
  }

  lemma CompactionProjected(entries: seq<Entry>, summary: Text, tail: seq<Message>)
    ensures Projected(entries + [CompactionEntry(summary, tail)]) == [SummaryMessage(summary)] + tail
  {
  }

  // ---------- the opening requirement ----------

  /** The conversation opens with a message whose first requirement is q: the user's own first
      message, or a summary that pins q first. */
  ghost predicate Opens(messages: seq<Message>, q: Text) {
    && messages != [] && !messages[0].hostTrace && CallIds(messages[0]) == {}
    && MessageRequirements(messages[0]) != [] && MessageRequirements(messages[0])[0] == q
  }

  /** q fits an eighth of the pinned budget of every preparation. */
  ghost predicate Affordable(actions: seq<Action>, q: Text) {
    forall a | a in actions && a.Prepare? :: 8 * Cost(q) <= PinnedBudget(SummaryBudget(a.request.Budget().messages))
  }

  lemma {:induction false} FirstKept(values: seq<Text>)
    requires values != []
    ensures Dedupe(values) != [] && Dedupe(values)[0] == values[0]
  {
    if |values| > 1 {
      FirstKept(values[..|values| - 1]);
    }
  }

  lemma FirstCandidate(values: seq<Text>)
    requires values != []
    ensures PinnedCandidates(values) != [] && PinnedCandidates(values)[0] == values[0]
  {
    hide Dedupe, Reverse;
    FirstKept(values);
  }

  lemma TimesEight(count: nat, cost: nat)
    requires count <= 8
    ensures cost * count <= 8 * cost
  {
  }

  lemma ShareOfEight(remaining: nat, count: nat, cost: nat)
    requires 0 < count <= 8 && 8 * cost <= remaining
    ensures cost <= Share(remaining, count)
  {
    ShareIsQuotient(remaining, count);
    GrowsBy(Share(remaining, count), cost, count);
    TimesEight(count, cost);
  }

  /** The first requirement is pinned first and unclipped. */
  lemma PinnedFirst(values: seq<Text>, budget: nat)
    requires values != [] && values[0] != [] && 8 * Cost(values[0]) <= budget
    ensures var pinned := Selection(PinnedCandidates(values), budget);
            pinned != [] && pinned[0] == values[0]
  {
    hide Cost, PinnedCandidates, Share, Clipped;
    var candidates := PinnedCandidates(values);
    assert |candidates| <= 8;
    FirstCandidate(values);
    ShareOfEight(budget, |candidates|, Cost(values[0]));
    BoundedCost(values[0], Share(budget, |candidates|));
  }

  lemma FirstRecovered(pinned: seq<Text>)
    requires pinned != [] && Readable(pinned[0])
    ensures Recoverable(pinned, PINNED_END) != [] && Recoverable(pinned, PINNED_END)[0] == Trim(pinned[0])
  {
    hide Trim, Quoted, Contains;
    var i := CutAt(pinned, PINNED_END);
    assert i >= 1;
    assert pinned[..i][0] == pinned[0];
  }

  lemma {:induction false} RequirementsConcat(a: seq<Message>, b: seq<Message>)
    ensures AllRequirements(a + b) == AllRequirements(a) + AllRequirements(b)
  {
    hide MessageRequirements;
    if b == [] {
      assert a + b == a;
    } else {
      var front := b[..|b| - 1];
      assert (a + b)[..|a + b| - 1] == a + front;
      RequirementsConcat(a, front);
    }
  }

  lemma OpeningFirst(messages: seq<Message>, q: Text)
    requires Opens(messages, q)
    ensures AllRequirements(messages) != [] && AllRequirements(messages)[0] == q
  {
    hide MessageRequirements, AllRequirements, CallIds;
    assert messages == [messages[0]] + messages[1..];
    RequirementsConcat([messages[0]], messages[1..]);
    OneMessage(messages[0]);
  }

  /** The summary of messages that open with q opens with q. */
  lemma SummaryOpens(generated: Text, compacted: seq<Message>, messageBudget: nat, tail: seq<Message>, q: Text)
    requires Opens(compacted, q) && Clean(q) && Readable(q)
    requires 8 * Cost(q) <= PinnedBudget(SummaryBudget(messageBudget))
    ensures Opens([SummaryMessage(CompactionSummary(generated, compacted, messageBudget))] + tail, q)
  {
    hide Selection, PinnedCandidates, AllRequirements, Readable, Cost, SummaryBudget, SummaryText, Recoverable, Opens;
    OpeningFirst(compacted, q);
    NotBlankNotEmpty(q);
    PinnedFirst(AllRequirements(compacted), PinnedBudget(SummaryBudget(messageBudget)));
    PinnedNotBlank(compacted, messageBudget);
    var pinned := PinnedFor(compacted, messageBudget);
    SummaryReadBack(generated, pinned, compacted, SummaryBudget(messageBudget));
    FirstRecovered(pinned);
    OpeningSummary(CompactionSummary(generated, compacted, messageBudget), tail, q);
  }

  lemma NotBlankNotEmpty(q: Text)
    requires Clean(q)
    ensures q != []
  {
  }

  lemma OpeningSummary(summary: Text, tail: seq<Message>, q: Text)
    requires AllRequirements([SummaryMessage(summary)]) != [] && AllRequirements([SummaryMessage(summary)])[0] == q
    ensures Opens([SummaryMessage(summary)] + tail, q)
  {
    hide MessageRequirements;
    OneMessage(SummaryMessage(summary));
  }

  /** The first message is compacted whenever anything is. */
  lemma FirstIsCompacted(r: Request)
    requires r.messages != [] && CallIds(r.messages[0]) == {} && Flatten(r.OldGroups()) != []
    ensures Flatten(r.OldGroups())[0] == r.messages[0]
  {
    hide Groups, TailStart, ContextBudget;
    var groups := Groups(r.messages);
    FirstAlone(r.messages);
    var oldPart := groups[..r.KeepFrom()];
    assert oldPart != [];
    assert oldPart[0] == [r.messages[0]];
  }

  lemma CallsSeen(m: Message)
    ensures forall b | b in m.blocks && b.CallBlock? :: b.id in CallIds(m)
  {
  }

  lemma FirstAlone(messages: seq<Message>)
    requires messages != [] && CallIds(messages[0]) == {}
    ensures Groups(messages) != [] && Groups(messages)[0] == [messages[0]] && !LoadsSkill([messages[0]])
  {
    assert messages[..1] == [messages[0]];
    CallsSeen(messages[0]);
  }

  lemma {:induction false} FirstShown(messages: seq<Message>)
    requires messages != [] && !messages[0].hostTrace
    ensures WithoutTraces(messages) != [] && WithoutTraces(messages)[0] == messages[0]
  {
    if |messages| > 1 {
      FirstShown(messages[..|messages| - 1]);
    }
  }

  lemma {:induction false} SameTexts(a: seq<Block>, b: seq<Block>)
    requires |a| == |b| && forall i | 0 <= i < |a| :: SameBlock(a[i], b[i])
    ensures JoinTexts(a) == JoinTexts(b)
    decreases |a|
  {
    if a != [] {
      assert SameBlock(a[0], b[0]);
      forall i | 0 <= i < |a[1..]| ensures SameBlock(a[1..][i], b[1..][i]) {
        assert SameBlock(a[i + 1], b[i + 1]);
      }
      SameTexts(a[1..], b[1..]);
    }
  }

  lemma SameIds(a: Message, b: Message)
    requires SameMessage(a, b)
    ensures CallIds(a) == CallIds(b) && ResultIds(a) == ResultIds(b)
  {
    CallsWithin(a, b);
    CallsWithin(b, a);
  }

  lemma CallsWithin(a: Message, b: Message)
    requires SameMessage(a, b)
    ensures CallIds(a) <= CallIds(b) && ResultIds(a) <= ResultIds(b)
  {
    forall id | id in CallIds(a) ensures id in CallIds(b) {
      var i :| 0 <= i < |a.blocks| && a.blocks[i].CallBlock? && a.blocks[i].id == id;
      assert SameBlock(a.blocks[i], b.blocks[i]) && b.blocks[i] in b.blocks;
    }
    forall id | id in ResultIds(a) ensures id in ResultIds(b) {
      var i :| 0 <= i < |a.blocks| && a.blocks[i].ResultBlock? && a.blocks[i].result.callId == id;
      assert SameBlock(a.blocks[i], b.blocks[i]) && b.blocks[i] in b.blocks;
    }
  }

  /** Filtering traces and reclaiming results leave the opening as it is. */
  lemma ReclaimedOpens(before: seq<Message>, after: seq<Message>, q: Text)
    requires Opens(before, q) && Reclaimed(WithoutTraces(before), after)
    ensures Opens(after, q)
  {
    hide Trim, JoinTexts, PinnedFromCompaction, CallIds;
    FirstShown(before);
    SameTexts(before[0].blocks, after[0].blocks);
    SameIds(before[0], after[0]);
  }

  lemma {:induction false} StepOpens(entries: seq<Entry>, a: Action, q: Text)
    requires Opens(Projected(entries), q) && Fitting(entries, a) && Clean(q) && Readable(q)
    requires a.Prepare? ==> 8 * Cost(q) <= PinnedBudget(SummaryBudget(a.request.Budget().messages))
    ensures Opens(Projected(Step(entries, a)), q)
  {
    hide Projected, Readable, Clean, Cost, SummaryBudget, CompactionSummary, Groups, TailStart, ContextBudget, MessageRequirements;
    match a
    case Append(added) => AppendProjected(entries, added);
    case Prepare(r, generated) =>
      var o := Preparation(r, generated);
      if o.Prepared? && o.compaction.Compacted? {
        ReclaimedOpens(Projected(entries), r.messages, q);
        FirstIsCompacted(r);
        SummaryOpens(generated, Flatten(r.OldGroups()), r.Budget().messages, o.compaction.retainedTail, q);
        CompactionProjected(entries, o.compaction.summary, o.compaction.retainedTail);
      }
  }

  /** The requirement a conversation opens with stays its first requirement, word for word, through
      any number of compactions, whatever the summarizer writes. */
  lemma {:induction false} OpeningLasts(entries: seq<Entry>, actions: seq<Action>, q: Text)
    requires Opens(Projected(entries), q) && Clean(q) && Readable(q)
    requires AllFitting(entries, actions) && Affordable(actions, q)
    ensures Opens(Projected(Run(entries, actions)), q)
    ensures AllRequirements(Projected(Run(entries, actions))) != []
    ensures AllRequirements(Projected(Run(entries, actions)))[0] == q
    decreases |actions|
  {
    hide Opens, Projected, Clean, Readable, Step, Fitting, AllRequirements, Cost, SummaryBudget, ContextBudget;
    if actions == [] {
      OpeningFirst(Projected(entries), q);
    } else {
      assert actions[0] in actions && forall a | a in actions[1..] :: a in actions;
      StepOpens(entries, actions[0], q);
      OpeningLasts(Step(entries, actions[0]), actions[1..], q);
    }
  }

  // ---------- calls and results ----------

  lemma AnsweredConcat(a: seq<Message>, b: seq<Message>)
    requires DirectlyAnswered(a) && DirectlyAnswered(b)
    ensures DirectlyAnswered(a + b)
  {
    hide CallIds, ResultIds, AnswersOnly;
    var all := a + b;
    forall k: nat | k < |all| && ResultIds(all[k]) != {} ensures exists j: nat :: DirectlyFollows(all, j, k) {
      if k < |a| {
        var j: nat :| DirectlyFollows(a, j, k);
        assert DirectlyFollows(all, j, k);
      } else {
        var j: nat :| DirectlyFollows(b, j, k - |a|);
        FollowsLater(a, b, j, k - |a|);
      }
    }
    forall j: nat, id | j < |all| && id in CallIds(all[j])
      ensures exists k: nat :: DirectlyFollows(all, j, k) && id in ResultIds(all[k])
    {
      if j < |a| {
        var k: nat :| DirectlyFollows(a, j, k) && id in ResultIds(a[k]);
        assert DirectlyFollows(all, j, k) && all[k] == a[k];
      } else {
        var k: nat :| DirectlyFollows(b, j - |a|, k) && id in ResultIds(b[k]);
        FollowsLater(a, b, j - |a|, k);
        assert all[|a| + k] == b[k];
      }
    }
  }

  lemma FollowsLater(a: seq<Message>, b: seq<Message>, j: nat, k: nat)
    requires DirectlyFollows(b, j, k)
    ensures DirectlyFollows(a + b, |a| + j, |a| + k)
  {
    hide CallIds, ResultIds, AnswersOnly;
    var all := a + b;
    forall i | |a| + j < i <= |a| + k ensures AnswersOnly(all[i], CallIds(all[|a| + j])) {
      assert all[i] == b[i - |a|];
    }
  }

  lemma FirstGroupAnswered(messages: seq<Message>)
    requires messages != [] && DirectlyAnswered(messages)
    ensures DirectlyAnswered(messages[..FirstGroup(messages)])
  {
    hide CallIds, ResultIds, AnswersOnly, FirstGroup;
    var n := FirstGroup(messages);
    var group := messages[..n];
    forall k: nat | k < n && ResultIds(group[k]) != {} ensures exists j: nat :: DirectlyFollows(group, j, k) {
      var j: nat :| DirectlyFollows(messages, j, k);
      FirstGroupFollows(messages, k);
      assert DirectlyFollows(group, 0, k);
    }
    forall j: nat, id | j < n && id in CallIds(group[j])
      ensures exists k: nat :: DirectlyFollows(group, j, k) && id in ResultIds(group[k])
    {
      if j > 0 {
        InsideFirstGroup(messages, j);
      }
      var k: nat :| DirectlyFollows(messages, j, k) && id in ResultIds(messages[k]);
      FollowsOrder(messages, j, k);
      FirstGroupFollows(messages, k);
      assert DirectlyFollows(group, 0, k);
    }
  }

  /** What the model is shown of a history: no host traces, and results directly after their calls. */
  ghost predicate Paired(messages: seq<Message>) {
    DirectlyAnswered(messages) && forall m | m in messages :: !m.hostTrace
  }

  lemma PairedConcat(a: seq<Message>, b: seq<Message>)
    requires Paired(a) && Paired(b)
    ensures Paired(a + b)
  {
    hide DirectlyAnswered;
    AnsweredConcat(a, b);
  }

  lemma {:induction false} GroupsPaired(messages: seq<Message>)
    requires Paired(messages)
    ensures forall g | g in Groups(messages) :: Paired(g)
    decreases |messages|
  {
    hide DirectlyAnswered, FirstGroup;
    if messages != [] {
      FirstGroupAnswered(messages);
      LaterGroupsAnswered(messages);
      GroupsPaired(messages[FirstGroup(messages)..]);
    }
  }

  lemma {:induction false} FlattenPaired(groups: seq<seq<Message>>)
    requires forall g | g in groups :: Paired(g)
    ensures Paired(Flatten(groups))
  {
    hide Paired;
    if groups == [] {
      NothingPaired();
    } else {
      assert groups[0] in groups && forall g | g in groups[1..] :: g in groups;
      FlattenPaired(groups[1..]);
      PairedConcat(groups[0], Flatten(groups[1..]));
    }
  }

  lemma NothingPaired()
    ensures Paired([])
  {
  }

  lemma SummaryPaired(summary: Text)
    ensures Paired([SummaryMessage(summary)])
  {
  }

  /** Message by message the same kind, calls and results. */
  ghost predicate SameExchange(before: seq<Message>, after: seq<Message>) {
    && |before| == |after|
    && forall i | 0 <= i < |before| :: Alike(before[i], after[i])
  }

  predicate Alike(a: Message, b: Message) {
    CallIds(a) == CallIds(b) && ResultIds(a) == ResultIds(b) && a.role == b.role && a.hostTrace == b.hostTrace
  }

  lemma ReclaimedExchange(before: seq<Message>, after: seq<Message>)
    requires Reclaimed(before, after)
    ensures SameExchange(before, after)
  {
    hide CallIds, ResultIds, SameMessage;
    forall i | 0 <= i < |before| ensures Alike(before[i], after[i]) {
      SameIds(before[i], after[i]);
      SameKind(before[i], after[i]);
    }
  }

  lemma FollowsAlike(before: seq<Message>, after: seq<Message>, j: nat, k: nat)
    requires SameExchange(before, after) && DirectlyFollows(before, j, k)
    ensures DirectlyFollows(after, j, k)
  {
    hide CallIds, ResultIds;
    forall i | j < i <= k ensures AnswersOnly(after[i], CallIds(after[j])) {
      assert Alike(before[i], after[i]) && Alike(before[j], after[j]);
      assert AnswersOnly(before[i], CallIds(before[j]));
    }
  }

  lemma AnsweredAlike(before: seq<Message>, after: seq<Message>)
    requires SameExchange(before, after) && DirectlyAnswered(before)
    ensures DirectlyAnswered(after)
  {
    hide CallIds, ResultIds, AnswersOnly;
    forall k: nat | k < |after| && ResultIds(after[k]) != {} ensures exists j: nat :: DirectlyFollows(after, j, k) {
      assert Alike(before[k], after[k]);
      var j: nat :| DirectlyFollows(before, j, k);
      FollowsAlike(before, after, j, k);
    }
    forall j: nat, id | j < |after| && id in CallIds(after[j])
      ensures exists k: nat :: DirectlyFollows(after, j, k) && id in ResultIds(after[k])
    {
      assert Alike(before[j], after[j]);
      var k: nat :| DirectlyFollows(before, j, k) && id in ResultIds(before[k]);
      FollowsAlike(before, after, j, k);
      assert Alike(before[k], after[k]);
    }
    forall k: nat | k < |after| ensures CallIds(after[k]) == {} || ResultIds(after[k]) == {} {
      assert Alike(before[k], after[k]);
    }
  }

  lemma ReclaimedPaired(before: seq<Message>, after: seq<Message>)
    requires Paired(before) && Reclaimed(before, after)
    ensures Paired(after)
  {
    hide DirectlyAnswered, CallIds, ResultIds;
    ReclaimedExchange(before, after);
    AnsweredAlike(before, after);
    forall m | m in after ensures !m.hostTrace {
      var i :| 0 <= i < |after| && after[i] == m;
      assert Alike(before[i], after[i]) && before[i] in before;
    }
  }

  lemma SameKind(a: Message, b: Message)
    requires SameMessage(a, b)
    ensures a.role == b.role && a.hostTrace == b.hostTrace
  {
  }

  lemma {:induction false} WithoutTracesConcat(a: seq<Message>, b: seq<Message>)
    ensures WithoutTraces(a + b) == WithoutTraces(a) + WithoutTraces(b)
  {
    if b == [] {
      assert a + b == a;
    } else {
      var front := b[..|b| - 1];
      assert (a + b)[..|a + b| - 1] == a + front;
      WithoutTracesConcat(a, front);
    }
  }

  lemma {:induction false} WithoutTracesSame(messages: seq<Message>)
    requires forall m | m in messages :: !m.hostTrace
    ensures WithoutTraces(messages) == messages
    decreases |messages|
  {
    if messages != [] {
      var front, last := messages[..|messages| - 1], messages[|messages| - 1];
      assert messages == front + [last];
      assert last in messages && forall m | m in front :: m in messages;
      WithoutTracesSame(front);
    }
  }

  /** Whatever is appended together answers its own calls: a user message, an answered tool batch, a whole turn. */
  ghost predicate WholeExchanges(actions: seq<Action>) {
    forall a | a in actions && a.Append? :: Paired(WithoutTraces(ShownAll(a.entries)))
  }

  /** The context after a compaction: the summary and the groups carried behind it. */
  lemma CompactionPaired(r: Request, summary: Text)
    requires Paired(r.messages)
    ensures Paired([SummaryMessage(summary)] + Flatten(r.KeptGroups()))
  {
    hide Paired, Groups, TailStart, ContextBudget, LoadsSkill, SummaryMessage;
    var groups := Groups(r.messages);
    GroupsPaired(r.messages);
    PartsOfGroups(groups[..r.KeepFrom()]);
    assert forall g | g in groups[..r.KeepFrom()] :: g in groups;
    assert forall g | g in groups[r.KeepFrom()..] :: g in groups;
    FlattenPaired(r.KeptGroups());
    SummaryPaired(summary);
    PairedConcat([SummaryMessage(summary)], Flatten(r.KeptGroups()));
  }

  lemma PairedShown(messages: seq<Message>)
    requires Paired(messages)
    ensures WithoutTraces(messages) == messages
  {
    hide DirectlyAnswered;
    WithoutTracesSame(messages);
  }

  lemma StepPaired(entries: seq<Entry>, a: Action)
    requires Paired(WithoutTraces(Projected(entries))) && Fitting(entries, a)
    requires a.Append? ==> Paired(WithoutTraces(ShownAll(a.entries)))
    ensures Paired(WithoutTraces(Projected(Step(entries, a))))
  {
    hide Paired, Projected, WithoutTraces, CompactionSummary, ContextTokens, ContextBudget, Reclaimed, SummaryMessage;
    match a
    case Append(added) =>
      AppendProjected(entries, added);
      WithoutTracesConcat(Projected(entries), ShownAll(added));
      PairedConcat(WithoutTraces(Projected(entries)), WithoutTraces(ShownAll(added)));
    case Prepare(r, generated) =>
      var o := Preparation(r, generated);
      if o.Prepared? && o.compaction.Compacted? {
        ReclaimedPaired(WithoutTraces(Projected(entries)), r.messages);
        CompactionPaired(r, o.compaction.summary);
        CompactionProjected(entries, o.compaction.summary, o.compaction.retainedTail);
        PairedShown([SummaryMessage(o.compaction.summary)] + o.compaction.retainedTail);
      }
  }

  /** A history grown from nothing by whole exchanges and compactions, in any number and order,
      always shows the model every call with its results directly behind it and no result without
      its call. */
  lemma {:induction false} PairsLast(entries: seq<Entry>, actions: seq<Action>)
    requires Paired(WithoutTraces(Projected(entries))) && AllFitting(entries, actions) && WholeExchanges(actions)
    ensures Paired(WithoutTraces(Projected(Run(entries, actions))))
    decreases |actions|
  {
    hide Paired, Projected, Step, Fitting, WithoutTraces, ShownAll;
    if actions != [] {
      assert actions[0] in actions && forall a | a in actions[1..] :: a in actions;
      StepPaired(entries, actions[0]);
      PairsLast(Step(entries, actions[0]), actions[1..]);
    }
  }

  lemma {:induction false} NoTracesLeft(messages: seq<Message>)
    ensures forall m | m in WithoutTraces(messages) :: !m.hostTrace
  {
    if messages != [] {
      NoTracesLeft(messages[..|messages| - 1]);
    }
  }

  lemma EmptyHistoryPaired()
    ensures Paired(WithoutTraces(Projected([])))
  {
  }
}
