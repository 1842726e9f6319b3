/** What a turn leaves is what compaction asks for: in the messages of a settled turn, without the
    host's own traces, every result directly follows its call. */
module TurnContext {
  import opened Wrappers
  import opened Messages
  import opened Texts
  import Compaction
  import SessionHistory
  import T = AgentTurn

  function TextIds(ids: seq<string>): set<Text> {
    set id | id in ids :: Lit(id)
  }

  /** The calls and results of a context message are those of a message of the turn. Its texts may
      be any, so results whose content was reclaimed are covered. */
  ghost predicate Shows(m: T.Message, c: Message) {
    match m
    case UserMessage => CallIds(c) == {} && ResultIds(c) == {}
    case AssistantMessage(calls, _) => CallIds(c) == TextIds(T.Ids(calls)) && ResultIds(c) == {}
    case ToolMessage(r, _) => c.role == Role.Tool && CallIds(c) == {} && ResultIds(c) == {Lit(r.callId)}
  }

  /** The host's verification traces are not shown to the model. */
  function Visible(messages: seq<T.Message>): seq<T.Message> {
    if messages == [] then []
    else
      Visible(messages[..|messages| - 1])
      + if T.HostTrace(messages[|messages| - 1]) then [] else [messages[|messages| - 1]]
  }

  ghost predicate ShowsAll(visible: seq<T.Message>, context: seq<Message>) {
    |visible| == |context| && forall i | 0 <= i < |context| :: Shows(visible[i], context[i])
  }

  /** Everything from message j on answers j. */
  ghost predicate Open(context: seq<Message>, j: nat) {
    j < |context| && forall i | j < i < |context| :: Compaction.AnswersOnly(context[i], CallIds(context[j]))
  }

  ghost predicate Followed(context: seq<Message>, k: nat) {
    exists i: nat :: Compaction.DirectlyFollows(context, i, k)
  }

  ghost predicate Answered(context: seq<Message>, i: nat, id: Text) {
    exists k: nat :: Compaction.DirectlyFollows(context, i, k) && id in ResultIds(context[k])
  }

  /** Directly answered, but for the calls of message j still owed. */
  ghost predicate Partly(context: seq<Message>, owed: seq<string>, j: nat) {
    && (forall k: nat | k < |context| && ResultIds(context[k]) != {} :: Followed(context, k))
    && (forall i: nat, id | i < |context| && id in CallIds(context[i]) ::
          Answered(context, i, id) || (i == j && id in TextIds(owed)))
    && (forall k: nat | k < |context| :: CallIds(context[k]) == {} || ResultIds(context[k]) == {})
    && (owed != [] ==> Open(context, j) && TextIds(owed) <= CallIds(context[j]))
  }

  lemma FollowedStays(context: seq<Message>, c: Message, k: nat)
    requires Followed(context, k)
    ensures Followed(context + [c], k)
  {
    hide CallIds, ResultIds, Compaction.AnswersOnly;
    var i: nat :| Compaction.DirectlyFollows(context, i, k);
    assert Compaction.DirectlyFollows(context + [c], i, k);
  }

  lemma AnsweredStays(context: seq<Message>, c: Message, i: nat, id: Text)
    requires Answered(context, i, id)
    ensures Answered(context + [c], i, id)
  {
    hide CallIds, ResultIds, Compaction.AnswersOnly;
    var k: nat :| Compaction.DirectlyFollows(context, i, k) && id in ResultIds(context[k]);
    assert Compaction.DirectlyFollows(context + [c], i, k);
  }

  /** A message without calls or results, or with calls, when nothing is owed. */
  lemma PartlyStarts(context: seq<Message>, c: Message, ids: seq<string>, j: nat)
    requires Partly(context, [], j) && ResultIds(c) == {} && CallIds(c) == TextIds(ids)
    ensures Partly(context + [c], ids, |context|)
  {
    hide CallIds, ResultIds, Compaction.AnswersOnly, Followed, Answered;
    var all := context + [c];
    assert TextIds([]) == {};
    forall k: nat | k < |all| && ResultIds(all[k]) != {} ensures Followed(all, k) {
      assert all[k] == context[k];
      FollowedStays(context, c, k);
    }
    forall i: nat, id | i < |all| && id in CallIds(all[i])
      ensures Answered(all, i, id) || (i == |context| && id in TextIds(ids))
    {
      if i < |context| {
        assert all[i] == context[i];
        AnsweredStays(context, c, i, id);
      }
    }
  }

  lemma OpenAnswers(context: seq<Message>, c: Message, id: Text, j: nat)
    requires Open(context, j) && id in CallIds(context[j])
    requires c.role == Role.Tool && ResultIds(c) == {id}
    ensures Open(context + [c], j) && Followed(context + [c], |context|) && Answered(context + [c], j, id)
  {
    hide CallIds, ResultIds;
    var all := context + [c];
    assert all[j] == context[j];
    assert Compaction.AnswersOnly(c, CallIds(context[j]));
    assert Compaction.DirectlyFollows(all, j, |context|);
  }

  /** The result of the first call owed. */
  lemma PartlyAnswers(context: seq<Message>, c: Message, owed: seq<string>, j: nat)
    requires Partly(context, owed, j) && owed != []
    requires c.role == Role.Tool && CallIds(c) == {} && ResultIds(c) == {Lit(owed[0])}
    ensures Partly(context + [c], owed[1..], j)
  {
    hide CallIds, ResultIds, Compaction.AnswersOnly, Followed, Answered, Open, Lit;
    var all := context + [c];
    assert Lit(owed[0]) in TextIds(owed);
    assert TextIds(owed) == TextIds(owed[1..]) + {Lit(owed[0])};
    OpenIsWithin(context, j);
    OpenAnswers(context, c, Lit(owed[0]), j);
    forall k: nat | k < |all| && ResultIds(all[k]) != {} ensures Followed(all, k) {
      if k < |context| {
        assert all[k] == context[k];
        FollowedStays(context, c, k);
      }
    }
    forall i: nat, id | i < |all| && id in CallIds(all[i])
      ensures Answered(all, i, id) || (i == j && id in TextIds(owed[1..]))
    {
      assert i < |context| && all[i] == context[i];
      if Answered(context, i, id) {
        AnsweredStays(context, c, i, id);
      }
    }
    assert all[j] == context[j];
  }

  lemma OpenIsWithin(context: seq<Message>, j: nat)
    ensures Open(context, j) ==> j < |context|
  {
  }

  lemma {:induction false} SettledPartly(messages: seq<T.Message>, context: seq<Message>) returns (j: nat)
    requires T.Owed(messages).Some? && ShowsAll(Visible(messages), context)
    ensures Partly(context, T.Owed(messages).value, j)
  {
    hide Partly, Shows;
    if messages == [] {
      NothingOwed();
      return 0;
    }
    var before, m := messages[..|messages| - 1], messages[|messages| - 1];
    if T.HostTrace(m) {
      j := SettledPartly(before, context);
      return;
    }
    var n := |context| - 1;
    var c := context[n];
    assert context == context[..n] + [c];
    j := SettledPartly(before, context[..n]);
    j := ShownNext(context[..n], c, T.Owed(before).value, m, j);
  }

  lemma NothingOwed()
    ensures Partly([], [], 0)
  {
  }

  lemma ShownNext(context: seq<Message>, c: Message, owed: seq<string>, m: T.Message, j: nat) returns (next: nat)
    requires Partly(context, owed, j) && Shows(m, c) && !T.HostTrace(m) && T.Fits(Some(owed), m).Some?
    ensures Partly(context + [c], T.Fits(Some(owed), m).value, next)
  {
    hide Partly;
    match m
    case UserMessage =>
      PartlyStarts(context, c, [], j);
      next := |context|;
    case AssistantMessage(calls, _) =>
      PartlyStarts(context, c, T.Ids(calls), j);
      next := |context|;
    case ToolMessage(r, _) =>
      PartlyAnswers(context, c, owed, j);
      next := j;
  }

  /** A settled turn's messages meet the condition under which compaction keeps calls and results together. */
  lemma SettledTurnsAreDirectlyAnswered(messages: seq<T.Message>, context: seq<Message>)
    requires T.Owed(messages) == Some([]) && ShowsAll(Visible(messages), context)
    ensures Compaction.DirectlyAnswered(context)
  {
    hide CallIds, ResultIds, Compaction.AnswersOnly;
    var j := SettledPartly(messages, context);
    forall i: nat, id | i < |context| && id in CallIds(context[i])
      ensures exists k: nat :: Compaction.DirectlyFollows(context, i, k) && id in ResultIds(context[k])
    {
      assert id !in TextIds([]);
      assert Answered(context, i, id);
    }
  }

  /** So whatever compaction keeps and drops of it, no result loses its call and no call its result. */
  lemma CompactedTurnsKeepPairs(messages: seq<T.Message>, r: Compaction.Request)
    requires T.Owed(messages) == Some([]) && ShowsAll(Visible(messages), r.messages)
    ensures Compaction.Closed(Compaction.Flatten(r.KeptGroups())) && Compaction.Closed(Compaction.Flatten(r.OldGroups()))
  {
    hide Compaction.Closed, Compaction.DirectlyAnswered;
    SettledTurnsAreDirectlyAnswered(messages, r.messages);
    Compaction.CompactionKeepsPairs(r);
  }

  /** The entries of a settled turn are a whole exchange, the kind of which session histories are grown. */
  lemma SettledTurnsAreWhole(messages: seq<T.Message>, entries: seq<SessionHistory.Entry>)
    requires T.Owed(messages) == Some([])
    requires ShowsAll(Visible(messages), SessionHistory.WithoutTraces(SessionHistory.ShownAll(entries)))
    ensures SessionHistory.Paired(SessionHistory.WithoutTraces(SessionHistory.ShownAll(entries)))
  {
    hide Compaction.DirectlyAnswered;
    SettledTurnsAreDirectlyAnswered(messages, SessionHistory.WithoutTraces(SessionHistory.ShownAll(entries)));
    SessionHistory.NoTracesLeft(SessionHistory.ShownAll(entries));
  }

  /** Turns follow one another: a settled history stays settled through a settled turn. */
  lemma {:induction false} OwedJoins(history: seq<T.Message>, turn: seq<T.Message>)
    requires T.Owed(history) == Some([])
    ensures T.Owed(history + turn) == T.Owed(turn)
  {
    hide T.Fits;
    if turn == [] {
      assert history + turn == history;
    } else {
      var before := turn[..|turn| - 1];
      assert (history + turn)[..|history + turn| - 1] == history + before;
      OwedJoins(history, before);
    }
  }
}
