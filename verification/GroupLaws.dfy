/** Which messages stay together and which are kept: a group is a message with the results that answer
    it, the kept tail is the longest that fits, and what loads a skill is never compacted. */
module GroupLaws {
  import opened Texts
  import opened Messages
  import opened Summary
  import opened PinnedRoundTrip
  import opened Compaction

  // ---------- groups ----------

  /** A tool message whose results all answer calls of the other message. */
  ghost predicate Answers(m: Message, calling: Message) {
    && m.role == Role.Tool && (exists b :: b in m.blocks && b.ResultBlock?)
    && forall b | b in m.blocks && b.ResultBlock? ::
         exists c :: c in calling.blocks && c.CallBlock? && c.id == b.result.callId
  }

  lemma AnswersExactly(m: Message, calling: Message)
    ensures Answers(m, calling) <==> AnswersOnly(m, CallIds(calling))
  {
    if b :| b in m.blocks && b.ResultBlock? {
      assert b.result.callId in ResultIds(m);
    }
    if AnswersOnly(m, CallIds(calling)) {
      forall b | b in m.blocks && b.ResultBlock?
        ensures exists c :: c in calling.blocks && c.CallBlock? && c.id == b.result.callId
      {
        assert b.result.callId in ResultIds(m);
      }
    }
    if Answers(m, calling) {
      forall id | id in ResultIds(m) ensures id in CallIds(calling) {
        var b :| b in m.blocks && b.ResultBlock? && b.result.callId == id;
        var c :| c in calling.blocks && c.CallBlock? && c.id == id;
      }
    }
  }

  lemma {:induction false} AbsorbedExactly(callIds: set<Text>, rest: seq<Message>)
    ensures var n := Absorbed(callIds, rest);
            && (forall i | 0 <= i < n :: AnswersOnly(rest[i], callIds))
            && (n < |rest| ==> !AnswersOnly(rest[n], callIds))
  {
    hide AnswersOnly;
    if rest != [] && AnswersOnly(rest[0], callIds) {
      AbsorbedExactly(callIds, rest[1..]);
    }
  }

  /** The first group is a message with the messages directly behind it that answer it, all of them. */
  ghost predicate WholeGroup(messages: seq<Message>, n: nat) {
    && 1 <= n <= |messages|
    && (forall i | 1 <= i < n :: Answers(messages[i], messages[0]))
    && (n < |messages| ==> !Answers(messages[n], messages[0]))
  }

  lemma FirstGroupWhole(messages: seq<Message>)
    requires messages != []
    ensures WholeGroup(messages, FirstGroup(messages))
  {
    hide CallIds, ResultIds, Answers;
    var n := FirstGroup(messages);
    forall i | 0 <= i < |messages| ensures Answers(messages[i], messages[0]) <==> AnswersOnly(messages[i], CallIds(messages[0])) {
      AnswersExactly(messages[i], messages[0]);
    }
    if CallIds(messages[0]) != {} {
      AbsorbedExactly(CallIds(messages[0]), messages[1..]);
      assert forall i | 1 <= i < |messages| :: messages[1..][i - 1] == messages[i];
    }
  }

  /** Every group is whole in what is left of the messages when it begins. */
  lemma {:induction false} GroupsWhole(messages: seq<Message>, i: nat)
    requires i < |Groups(messages)|
    ensures var groups := Groups(messages);
            var left := Flatten(groups[i..]);
            left != [] && |groups[i]| <= |left| && groups[i] == left[..|groups[i]|] && WholeGroup(left, |groups[i]|)
    decreases |messages|
  {
    hide WholeGroup, FirstGroup;
    var n := FirstGroup(messages);
    GroupsConserve(messages);
    assert Groups(messages) == [messages[..n]] + Groups(messages[n..]);
    if i == 0 {
      assert Groups(messages)[0..] == Groups(messages);
      FirstGroupWhole(messages);
    } else {
      GroupsWhole(messages[n..], i - 1);
      assert Groups(messages)[i..] == Groups(messages[n..])[i - 1..];
    }
  }

  // ---------- the kept tail ----------

  /** The kept tail is the longest that fits the keep budget, but never all groups and never none. */
  lemma {:induction false} TailIsLongest(groups: seq<seq<Message>>, keepBudget: nat, from: nat)
    requires 1 <= from <= |groups|
    ensures var s := TailStart(groups, keepBudget, from);
            && 1 <= s <= from
            && (s > 1 && s < |groups| ==> GroupTokens(groups[s - 1..]) > keepBudget)
            && (|groups| >= 2 && from == |groups| ==> s < |groups|)
            && forall k | s <= k < from && k < |groups| - 1 :: GroupTokens(groups[k..]) <= keepBudget
  {
    hide GroupTokens;
    if from > 1 && (from == |groups| || GroupTokens(groups[from - 1..]) <= keepBudget) {
      TailIsLongest(groups, keepBudget, from - 1);
    }
  }

  // ---------- skills ----------

  /** The message calls load_skill. */
  ghost predicate CallsSkill(m: Message) {
    exists b :: b in m.blocks && b.CallBlock? && b.name == Lit("load_skill")
  }

  lemma {:induction false} SkillsKept(groups: seq<seq<Message>>, m: Message)
    requires m in Flatten(groups) && CallsSkill(m)
    ensures m in Flatten(SkillGroups(groups))
  {
    if m in groups[0] {
      assert LoadsSkill(groups[0]) by {
        var b :| b in m.blocks && b.CallBlock? && b.name == Lit("load_skill");
      }
      FlattenFirst(groups[0], SkillGroups(groups[1..]));
    } else {
      SkillsKept(groups[1..], m);
      if LoadsSkill(groups[0]) {
        FlattenFirst(groups[0], SkillGroups(groups[1..]));
      } else {
        assert SkillGroups(groups) == SkillGroups(groups[1..]);
      }
    }
  }

  lemma {:induction false} OthersLoadNone(groups: seq<seq<Message>>, m: Message)
    requires m in Flatten(OtherGroups(groups))
    ensures !CallsSkill(m)
  {
    if LoadsSkill(groups[0]) {
      assert OtherGroups(groups) == OtherGroups(groups[1..]);
      OthersLoadNone(groups[1..], m);
    } else {
      FlattenFirst(groups[0], OtherGroups(groups[1..]));
      assert OtherGroups(groups) == [groups[0]] + OtherGroups(groups[1..]);
      if m !in groups[0] {
        OthersLoadNone(groups[1..], m);
      }
    }
  }

  /** A message that loads a skill is in every prepared context, and none is compacted away. */
  lemma SkillsStay(r: Request, generated: Text, m: Message)
    requires Preparation(r, generated).Prepared?
    ensures m in r.messages && CallsSkill(m) ==> m in Preparation(r, generated).messages
    ensures m in Flatten(r.OldGroups()) ==> !CallsSkill(m)
  {
    hide CallsSkill, ContextBudget, ContextTokens, CompactionSummary, SummaryMessage, TailStart, Groups, SkillGroups, OtherGroups;
    var groups := Groups(r.messages);
    var front, tail := groups[..r.KeepFrom()], groups[r.KeepFrom()..];
    GroupsConserve(r.messages);
    assert groups == front + tail;
    FlattenConcat(front, tail);
    FlattenConcat(SkillGroups(front), tail);
    if m in r.messages && CallsSkill(m) && m in Flatten(front) {
      SkillsKept(front, m);
    }
    if m in Flatten(r.OldGroups()) {
      OthersLoadNone(front, m);
    }
  }

  /** Of two or more groups the last, and with it the latest message, is never compacted; a single
      group that is compacted leaves nothing but the summary. */
  lemma LatestStays(r: Request, generated: Text)
    requires Preparation(r, generated).Prepared? && r.messages != []
    ensures var o := Preparation(r, generated);
            if o.compaction.Compacted? && |Groups(r.messages)| == 1 then o.messages == [SummaryMessage(o.compaction.summary)]
            else o.messages != [] && o.messages[|o.messages| - 1] == r.messages[|r.messages| - 1]
  {
    hide ContextBudget, ContextTokens, CompactionSummary, SummaryMessage, TailStart, Groups, SkillGroups, OtherGroups, KeepBudget;
    var groups, s := Groups(r.messages), r.KeepFrom();
    GroupsConserve(r.messages);
    TailBounds(groups, KeepBudget(r.Budget().messages));
    if Preparation(r, generated).compaction.Compacted? {
      if |groups| >= 2 {
        FlattenLast(groups[s..]);
        FlattenLast(groups);
        FlattenConcat(SkillGroups(groups[..s]), groups[s..]);
      } else {
        assert groups == [groups[0]] && groups[..s] == groups && groups[s..] == [];
        OneGroup(groups[0]);
      }
    }
  }

  lemma OneGroup(group: seq<Message>)
    requires Flatten(OtherGroups([group])) != []
    ensures SkillGroups([group]) == []
  {
    assert [group][1..] == [];
  }

  lemma TailBounds(groups: seq<seq<Message>>, keepBudget: nat)
    ensures |groups| >= 2 ==> TailStart(groups, keepBudget, |groups|) < |groups|
    ensures |groups| <= 1 ==> TailStart(groups, keepBudget, |groups|) == |groups|
  {
    if |groups| >= 2 {
      TailIsLongest(groups, keepBudget, |groups|);
    }
  }

  lemma {:induction false} FlattenLast(groups: seq<seq<Message>>)
    requires groups != [] && groups[|groups| - 1] != []
    ensures Flatten(groups) != []
    ensures var last := groups[|groups| - 1]; Flatten(groups)[|Flatten(groups)| - 1] == last[|last| - 1]
  {
    if |groups| > 1 {
      FlattenLast(groups[1..]);
    } else {
      assert groups[1..] == [];
    }
  }
}
