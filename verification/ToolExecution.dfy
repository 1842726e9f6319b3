/** Which tool calls of a turn are executed: each call id once, a repeated call a limited number of
    times, a polled input within its polling budget. */
module ToolExecution {
  import opened Numbers
  import opened Wrappers

  /** The input stands for its canonical JSON. */
  datatype Call = Call(id: string, name: string, input: string)

  type Signature = (string, string)

  /** The polling budget of a tool, with the defaults of the turn filled in. */
  datatype Polls = Polls(maxPolls: int, maxDuration: int, minInterval: int)

  datatype Tool = Tool(polling: Option<Polls>)

  datatype PollState = PollState(count: nat, firstAt: int, lastAt: int)

  /** What executeToolCall remembers of a turn. */
  datatype Guards = Guards(
    executed: set<string>, counts: map<Signature, nat>, polls: map<Signature, PollState>, repeatedToolCalls: nat)

  const FRESH := Guards({}, map[], map[], 0)

  /** A call that reaches executeToolCall, with the tool its name has at that time. */
  datatype Attempt = Attempt(call: Call, tool: Option<Tool>, now: int)

  datatype Verdict = Duplicate | Unknown | Repeated | TooSoon | Exhausted | Admitted

  function Sig(a: Attempt): Signature {
    (a.call.name, a.call.input)
  }

  function CountOf(g: Guards, s: Signature): nat {
    if s in g.counts then g.counts[s] else 0
  }

  /** repeatedCallResult for a tool that is not polled. */
  function JudgeRepeat(g: Guards, a: Attempt, maximum: int): (Guards, Verdict) {
    var count := CountOf(g, Sig(a)) + 1;
    (g.(counts := g.counts[Sig(a) := count], repeatedToolCalls := g.repeatedToolCalls + if count > 1 then 1 else 0),
     if count <= maximum then Admitted else Repeated)
  }

  /** pollingBudgetResult. Every attempt counts, refused or not. */
  function JudgePoll(g: Guards, a: Attempt, p: Polls): (Guards, Verdict) {
    var s := Sig(a);
    var next := if s in g.polls then PollState(g.polls[s].count + 1, g.polls[s].firstAt, a.now) else PollState(1, a.now, a.now);
    (g.(polls := g.polls[s := next]),
     if s in g.polls && p.minInterval > 0 && a.now - g.polls[s].lastAt < p.minInterval then TooSoon
     else if next.count > p.maxPolls || a.now - next.firstAt > p.maxDuration then Exhausted
     else Admitted)
  }

  /** The guards of executeToolCall, before the tool itself. */
  function Judge(g: Guards, a: Attempt, maximum: int): (Guards, Verdict) {
    if a.call.id in g.executed then (g, Duplicate)
    else if a.tool.None? then (g, Unknown)
    else
      var h := g.(executed := g.executed + {a.call.id});
      if a.tool.value.polling.Some? then JudgePoll(h, a, a.tool.value.polling.value) else JudgeRepeat(h, a, maximum)
  }

  function After(attempts: seq<Attempt>, maximum: int): Guards {
    if attempts == [] then FRESH
    else Judge(After(attempts[..|attempts| - 1], maximum), attempts[|attempts| - 1], maximum).0
  }

  function VerdictAt(attempts: seq<Attempt>, i: nat, maximum: int): Verdict
    requires i < |attempts|
  {
    Judge(After(attempts[..i], maximum), attempts[i], maximum).1
  }

  // ---------- as the program writes it ----------

  class ToolExecutionState {
    var executedCallIds: set<string>
    var toolCallCounts: map<Signature, nat>
    var pollingCalls: map<Signature, PollState>
    var repeatedToolCalls: nat

    function State(): Guards
      reads this
    {
      Guards(executedCallIds, toolCallCounts, pollingCalls, repeatedToolCalls)
    }

    constructor ()
      ensures State() == FRESH
    {
      executedCallIds, toolCallCounts, pollingCalls, repeatedToolCalls := {}, map[], map[], 0;
    }

    method PollingBudgetResult(a: Attempt, p: Polls) returns (v: Verdict)
      modifies `pollingCalls
      ensures (State(), v) == JudgePoll(old(State()), a, p)
    {
      var previous := if Sig(a) in pollingCalls then Some(pollingCalls[Sig(a)]) else None;
      var next := PollState(1, a.now, a.now);
      if previous.Some? {
        next := PollState(previous.value.count + 1, previous.value.firstAt, a.now);
      }
      pollingCalls := pollingCalls[Sig(a) := next];
      if previous.Some? && p.minInterval > 0 && a.now - previous.value.lastAt < p.minInterval {
        return TooSoon;
      }
      if next.count > p.maxPolls || a.now - next.firstAt > p.maxDuration {
        return Exhausted;
      }
      v := Admitted;
    }

    method RepeatedCallResult(a: Attempt, tool: Tool, maximum: int) returns (v: Verdict)
      modifies `toolCallCounts, `repeatedToolCalls, `pollingCalls
      ensures (State(), v) == if tool.polling.Some? then JudgePoll(old(State()), a, tool.polling.value)
                              else JudgeRepeat(old(State()), a, maximum)
    {
      if tool.polling.Some? {
        v := PollingBudgetResult(a, tool.polling.value);
        return;
      }
      var count := 1;
      if Sig(a) in toolCallCounts {
        count := toolCallCounts[Sig(a)] + 1;
      }
      toolCallCounts := toolCallCounts[Sig(a) := count];
      if count > 1 {
        repeatedToolCalls := repeatedToolCalls + 1;
      }
      v := if count <= maximum then Admitted else Repeated;
    }

    method Admit(a: Attempt, maximum: int) returns (v: Verdict)
      modifies this
      ensures (State(), v) == Judge(old(State()), a, maximum)
    {
      if a.call.id in executedCallIds {
        return Duplicate;
      }
      if a.tool.None? {
        return Unknown;
      }
      executedCallIds := executedCallIds + {a.call.id};
      v := RepeatedCallResult(a, a.tool.value, maximum);
    }
  }

  // ---------- what the guards remember ----------

  predicate HasId(reached: seq<Attempt>, id: string) {
    exists k :: 0 <= k < |reached| && reached[k].call.id == id
  }

  /** The attempts that got as far as the repeat guards: known tools, each call id for the first time. */
  function Reached(attempts: seq<Attempt>): seq<Attempt> {
    if attempts == [] then []
    else
      var earlier := Reached(attempts[..|attempts| - 1]);
      var a := attempts[|attempts| - 1];
      if a.tool.None? || HasId(earlier, a.call.id) then earlier else earlier + [a]
  }

  predicate Polled(a: Attempt) {
    a.tool.Some? && a.tool.value.polling.Some?
  }

  /** How often a signature was tried without polling. */
  function Tries(reached: seq<Attempt>, s: Signature): nat {
    if reached == [] then 0
    else
      var a := reached[|reached| - 1];
      Tries(reached[..|reached| - 1], s) + if Sig(a) == s && !Polled(a) then 1 else 0
  }

  /** How many tries were not the first of their signature. */
  function Repeats(reached: seq<Attempt>): nat {
    if reached == [] then 0
    else
      var earlier, a := reached[..|reached| - 1], reached[|reached| - 1];
      Repeats(earlier) + if !Polled(a) && Tries(earlier, Sig(a)) > 0 then 1 else 0
  }

  /** When a signature was polled. */
  function PollTimes(reached: seq<Attempt>, s: Signature): seq<int> {
    if reached == [] then []
    else
      var a := reached[|reached| - 1];
      PollTimes(reached[..|reached| - 1], s) + if Sig(a) == s && Polled(a) then [a.now] else []
  }

  /** The guards hold exactly the ids, the number of tries and of repeats, and the polls of the attempts that reached them. */
  ghost predicate Tracks(g: Guards, reached: seq<Attempt>) {
    && (forall id :: id in g.executed <==> HasId(reached, id))
    && (forall s :: CountOf(g, s) == Tries(reached, s))
    && g.repeatedToolCalls == Repeats(reached)
    && (forall s :: PollsTrack(g.polls, s, PollTimes(reached, s)))
  }

  predicate PollsTrack(polls: map<Signature, PollState>, s: Signature, times: seq<int>) {
    if times == [] then s !in polls
    else s in polls && polls[s] == PollState(|times|, times[0], times[|times| - 1])
  }

  lemma ReachedAppend(reached: seq<Attempt>, a: Attempt)
    ensures forall id :: HasId(reached + [a], id) <==> HasId(reached, id) || a.call.id == id
    ensures forall s :: Tries(reached + [a], s) == Tries(reached, s) + if Sig(a) == s && !Polled(a) then 1 else 0
    ensures Repeats(reached + [a]) == Repeats(reached) + if !Polled(a) && Tries(reached, Sig(a)) > 0 then 1 else 0
    ensures forall s :: PollTimes(reached + [a], s) == PollTimes(reached, s) + if Sig(a) == s && Polled(a) then [a.now] else []
  {
    var all := reached + [a];
    assert all[..|all| - 1] == reached && all[|reached|] == a;
    forall id ensures HasId(all, id) <==> HasId(reached, id) || a.call.id == id {
      if HasId(reached, id) {
        var k :| 0 <= k < |reached| && reached[k].call.id == id;
        assert all[k].call.id == id;
      }
    }
  }

  lemma JudgeTracks(g: Guards, reached: seq<Attempt>, a: Attempt, maximum: int)
    requires Tracks(g, reached)
    ensures Tracks(Judge(g, a, maximum).0, if a.tool.None? || HasId(reached, a.call.id) then reached else reached + [a])
  {
    if a.tool.Some? && !HasId(reached, a.call.id) {
      var h := Judge(g, a, maximum).0;
      ReachedAppend(reached, a);
      forall s ensures PollsTrack(h.polls, s, PollTimes(reached + [a], s)) {
        assert PollsTrack(g.polls, s, PollTimes(reached, s));
      }
      assert CountOf(g, Sig(a)) == Tries(reached, Sig(a));
      forall s ensures CountOf(h, s) == Tries(reached + [a], s) {
        assert CountOf(g, s) == Tries(reached, s);
      }
    }
  }

  lemma {:induction false} GuardsTrackHistory(attempts: seq<Attempt>, maximum: int)
    ensures Tracks(After(attempts, maximum), Reached(attempts))
  {
    if attempts != [] {
      var before := attempts[..|attempts| - 1];
      GuardsTrackHistory(before, maximum);
      JudgeTracks(After(before, maximum), Reached(before), attempts[|attempts| - 1], maximum);
    }
  }

  /** The verdict, told from the history alone. */
  function Expected(reached: seq<Attempt>, a: Attempt, maximum: int): Verdict {
    if HasId(reached, a.call.id) then Duplicate
    else if a.tool.None? then Unknown
    else if !Polled(a) then if Tries(reached, Sig(a)) < maximum then Admitted else Repeated
    else
      var p := a.tool.value.polling.value;
      var times := PollTimes(reached, Sig(a)) + [a.now];
      if |times| > 1 && p.minInterval > 0 && a.now - times[|times| - 2] < p.minInterval then TooSoon
      else if |times| > p.maxPolls || a.now - times[0] > p.maxDuration then Exhausted
      else Admitted
  }

  /** Every verdict is the one its history calls for. */
  lemma VerdictFromHistory(attempts: seq<Attempt>, i: nat, maximum: int)
    requires i < |attempts|
    ensures VerdictAt(attempts, i, maximum) == Expected(Reached(attempts[..i]), attempts[i], maximum)
  {
    hide Tries, PollTimes, HasId, Reached, After;
    var a := attempts[i];
    var g, reached := After(attempts[..i], maximum), Reached(attempts[..i]);
    GuardsTrackHistory(attempts[..i], maximum);
    assert PollsTrack(g.polls, Sig(a), PollTimes(reached, Sig(a)));
    assert CountOf(g, Sig(a)) == Tries(reached, Sig(a));
    assert a.call.id in g.executed <==> HasId(reached, a.call.id);
  }

  // ---------- bounds over any sequence of attempts ----------

  lemma {:induction false} ReachedGrows(attempts: seq<Attempt>, i: nat, j: nat)
    requires i <= j <= |attempts|
    ensures Reached(attempts[..i]) <= Reached(attempts[..j])
    decreases j
  {
    if i < j {
      ReachedGrows(attempts, i, j - 1);
      assert attempts[..j][..j - 1] == attempts[..j - 1];
    }
  }

  /** An admitted attempt is the last to have reached the guards. */
  lemma AdmittedReached(attempts: seq<Attempt>, i: nat, maximum: int)
    requires i < |attempts| && VerdictAt(attempts, i, maximum) == Admitted
    ensures Reached(attempts[..i + 1]) == Reached(attempts[..i]) + [attempts[i]]
    ensures !HasId(Reached(attempts[..i]), attempts[i].call.id) && attempts[i].tool.Some?
  {
    hide Tries, PollTimes, HasId, After;
    VerdictFromHistory(attempts, i, maximum);
    assert attempts[..i + 1][..i] == attempts[..i];
  }

  /** A call id is admitted at most once. */
  lemma AdmittedOnce(attempts: seq<Attempt>, i: nat, j: nat, maximum: int)
    requires i < j < |attempts|
    requires VerdictAt(attempts, i, maximum) == Admitted && VerdictAt(attempts, j, maximum) == Admitted
    ensures attempts[i].call.id != attempts[j].call.id
  {
    hide After;
    AdmittedReached(attempts, i, maximum);
    AdmittedReached(attempts, j, maximum);
    ReachedGrows(attempts, i + 1, j);
    var reached := Reached(attempts[..j]);
    assert reached[|Reached(attempts[..i])|] == attempts[i];
  }

  /** How many of the attempts at a signature were admitted, polled or not. */
  function AdmittedCount(attempts: seq<Attempt>, s: Signature, polled: bool, maximum: int): nat {
    if attempts == [] then 0
    else
      var i := |attempts| - 1;
      AdmittedCount(attempts[..i], s, polled, maximum)
      + if Sig(attempts[i]) == s && Polled(attempts[i]) == polled && VerdictAt(attempts, i, maximum) == Admitted then 1 else 0
  }

  /** Of the tries of a signature exactly the first maximum are admitted. */
  lemma {:induction false} TriesAdmitted(attempts: seq<Attempt>, s: Signature, maximum: int)
    ensures AdmittedCount(attempts, s, false, maximum) == Min(Tries(Reached(attempts), s), Max(0, maximum))
  {
    if attempts != [] {
      var i := |attempts| - 1;
      TriesAdmitted(attempts[..i], s, maximum);
      hide HasId, After, PollTimes, Judge;
      VerdictFromHistory(attempts, i, maximum);
      ReachedAppend(Reached(attempts[..i]), attempts[i]);
    }
  }

  /** The polling tool of a signature keeps its budget. */
  ghost predicate Steady(attempts: seq<Attempt>, s: Signature, p: Polls) {
    forall i | 0 <= i < |attempts| && Sig(attempts[i]) == s && Polled(attempts[i]) :: attempts[i].tool.value.polling.value == p
  }

  ghost predicate Monotone(attempts: seq<Attempt>) {
    forall i, j | 0 <= i < j < |attempts| :: attempts[i].now <= attempts[j].now
  }

  /** A polled input is admitted at most maxPolls times. */
  lemma {:induction false} PollsAdmitted(attempts: seq<Attempt>, s: Signature, p: Polls, maximum: int)
    requires Steady(attempts, s, p)
    ensures AdmittedCount(attempts, s, true, maximum) <= |PollTimes(Reached(attempts), s)|
    ensures AdmittedCount(attempts, s, true, maximum) <= Max(0, p.maxPolls)
  {
    if attempts != [] {
      var i := |attempts| - 1;
      PollsAdmitted(attempts[..i], s, p, maximum);
      hide HasId, After, Tries, Judge;
      VerdictFromHistory(attempts, i, maximum);
      ReachedAppend(Reached(attempts[..i]), attempts[i]);
    }
  }

  /** After an admitted poll the last poll of its input is at least as late, and the first one stays. */
  lemma {:induction false} PollsLast(attempts: seq<Attempt>, i: nat, j: nat, maximum: int)
    requires Monotone(attempts) && i < j <= |attempts|
    requires Polled(attempts[i]) && VerdictAt(attempts, i, maximum) == Admitted
    ensures var times := PollTimes(Reached(attempts[..j]), Sig(attempts[i]));
            times != [] && times[|times| - 1] >= attempts[i].now
    decreases j
  {
    hide After, HasId, Tries;
    var s := Sig(attempts[i]);
    if i + 1 == j {
      AdmittedReached(attempts, i, maximum);
      ReachedAppend(Reached(attempts[..i]), attempts[i]);
    } else {
      PollsLast(attempts, i, j - 1, maximum);
      assert attempts[..j][..j - 1] == attempts[..j - 1];
      ReachedAppend(Reached(attempts[..j - 1]), attempts[j - 1]);
    }
  }

  /** Two admitted polls of one input are at least the minimum interval apart. */
  lemma PollsApart(attempts: seq<Attempt>, i: nat, j: nat, p: Polls, maximum: int)
    requires i < j < |attempts| && Monotone(attempts) && Sig(attempts[i]) == Sig(attempts[j])
    requires Polled(attempts[i]) && Polled(attempts[j]) && Steady(attempts, Sig(attempts[i]), p)
    requires VerdictAt(attempts, i, maximum) == Admitted && VerdictAt(attempts, j, maximum) == Admitted
    ensures attempts[j].now - attempts[i].now >= p.minInterval
  {
    hide After, HasId, Tries, Reached, PollTimes, Judge;
    PollsLast(attempts, i, j, maximum);
    VerdictFromHistory(attempts, j, maximum);
  }

  /** Every admitted poll lies within the maximum duration of the first poll of its input. */
  lemma PollsInTime(attempts: seq<Attempt>, j: nat, maximum: int)
    requires j < |attempts| && Polled(attempts[j]) && VerdictAt(attempts, j, maximum) == Admitted
    ensures var times := PollTimes(Reached(attempts), Sig(attempts[j]));
            times != [] && attempts[j].now - times[0] <= attempts[j].tool.value.polling.value.maxDuration
  {
    hide After, HasId, Tries, Judge;
    var s := Sig(attempts[j]);
    VerdictFromHistory(attempts, j, maximum);
    AdmittedReached(attempts, j, maximum);
    ReachedAppend(Reached(attempts[..j]), attempts[j]);
    ReachedGrows(attempts, j + 1, |attempts|);
    assert attempts[..|attempts|] == attempts;
    PollTimesGrow(Reached(attempts[..j + 1]), Reached(attempts), s);
  }

  lemma {:induction false} PollTimesGrow(first: seq<Attempt>, all: seq<Attempt>, s: Signature)
    requires first <= all
    ensures PollTimes(first, s) <= PollTimes(all, s)
    decreases |all|
  {
    if |first| < |all| {
      PollTimesGrow(first, all[..|all| - 1], s);
    } else {
      assert first == all;
    }
  }
}
