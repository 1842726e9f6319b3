/** One turn of the agent loop. Whatever lies outside it answers through the environment: the
    answer to the n-th question is an arbitrary function of n, so a statement for every environment
    is one for every model, guard, tool, store and moment of cancellation. */
module AgentTurn {
  import opened Numbers
  import opened Wrappers
  import opened ToolExecution
  import IterationBudget

  datatype Failure = AbortError | OutputLimit | BudgetExhausted | InvalidBatch | TurnLimit(reason: Reason) | OtherError(text: string)

  datatype ToolResult = ToolResult(callId: string, ok: bool, code: string)

  /** Messages as far as calls and results go; host traces are the verification checks of the host. */
  datatype Message =
    | UserMessage
    | AssistantMessage(calls: seq<Call>, hostTrace: bool)
    | ToolMessage(result: ToolResult, hostTrace: bool)

  datatype Reason =
    | MaxIterations
    | AbsoluteLimit
    | ResourceBudget(name: string)     // of time, tokens, cost, context or tool calls
    | LoopDetected
    | NoProgress
    | ModelStop(truncated: bool)
    | OtherReason(name: string)

  datatype GuardDecision = Continue | ExtendBudget | Finalize(reason: Reason) | Stop(reason: Reason)

  datatype ModelAnswer = Stepped(calls: seq<Call>, truncated: bool) | ModelFailed(failure: Failure)

  datatype Gate = Granted | Refused(code: string) | GateRaised(failure: Failure)

  datatype Batch = Batch(valid: bool, checks: seq<Check>)

  /** A check of a verification batch, with the id its call gets. */
  datatype Check = Check(callId: string, input: string)

  datatype ToolEnd = Ended(ok: bool, code: string) | ToolRaised(failure: Failure)

  datatype Environment = Environment(
    abortedFrom: Option<nat>,
    commit: nat -> Option<Failure>,
    guard: nat -> GuardDecision,
    tools: nat -> map<string, Tool>,
    revisions: nat -> bool,
    prepare: nat -> Option<Failure>,
    model: nat -> ModelAnswer,
    cycle: nat -> bool,
    clock: nat -> int,
    gate: nat -> Gate,
    batches: nat -> seq<Batch>,
    toolEnd: nat -> ToolEnd,
    deadlinePassed: nat -> bool,
    budgetAborted: nat -> bool)

  predicate AbortedAt(e: Environment, tick: nat) {
    e.abortedFrom.Some? && e.abortedFrom.value <= tick
  }

  /** A question that may leave calls unanswered, with its number and the calls owed when it was put:
      committing a message, or checking the permission of a call (child: of a verification check). */
  datatype Question =
    | Committed(at: nat, hostTrace: bool, owed: seq<string>)
    | Checked(at: nat, child: bool, owed: seq<string>)

  /** The answer ends the turn on the spot: a message of the turn's own cannot be committed, or a
      permission check fails although nothing is being cancelled. */
  predicate Breaks(e: Environment, q: Question) {
    match q
    case Committed(at, hostTrace, _) => !hostTrace && e.commit(at).Some?
    case Checked(at, child, _) =>
      !child && e.gate(at).GateRaised? && e.gate(at).failure != AbortError && !AbortedAt(e, at + 1)
  }

  ghost predicate Unbroken(e: Environment, asked: seq<Question>) {
    forall q | q in asked :: !Breaks(e, q)
  }

  /** The last question asked ended the turn, and none before it. */
  ghost predicate BrokeLast(e: Environment, asked: seq<Question>) {
    asked != [] && Breaks(e, asked[|asked| - 1]) && Unbroken(e, asked[..|asked| - 1])
  }

  /** What a turn that asked these questions leaves owed. */
  function LeftOwed(e: Environment, asked: seq<Question>): seq<string> {
    if asked != [] && Breaks(e, asked[|asked| - 1]) then asked[|asked| - 1].owed else []
  }

  /** Calls are left owed exactly when some question ended the turn while calls were owed. */
  lemma LeftOwedExactly(e: Environment, asked: seq<Question>)
    requires Unbroken(e, asked) || BrokeLast(e, asked)
    ensures LeftOwed(e, asked) != [] <==> exists q :: q in asked && Breaks(e, q) && q.owed != []
  {
    if q :| q in asked && Breaks(e, q) && q.owed != [] {
      assert asked == asked[..|asked| - 1] + [asked[|asked| - 1]];
    }
  }

  lemma AskedNext(e: Environment, asked: seq<Question>, q: Question)
    requires Unbroken(e, asked)
    ensures if Breaks(e, q) then BrokeLast(e, asked + [q]) && LeftOwed(e, asked + [q]) == q.owed
            else Unbroken(e, asked + [q])
  {
    hide Breaks;
    assert (asked + [q])[..|asked|] == asked;
  }

  datatype Options = Options(
    budget: IterationBudget.Options, maxToolCalls: int, maxIdenticalToolCalls: int, allowPartialOnMaxIterations: bool)

  /** A pass begun at question t in which everything goes well until the model's calls cannot be
      committed: guard, workspace, context, model and guard are asked at t to t + 4. */
  ghost predicate AnswerLost(e: Environment, o: Options, t: nat, paid: nat) {
    && !AbortedAt(e, t) && e.guard(t) == Continue && !e.revisions(t + 2) && e.prepare(t + 2).None?
    && e.model(t + 3).Stepped? && e.model(t + 3).calls != [] && paid + |e.model(t + 3).calls| <= o.maxToolCalls
    && !e.cycle(t + 4) && e.guard(t + 4) == Continue && e.commit(t + 5).Some?
  }

  /** Nothing is cancelled and nothing fails, the guards never intervene, and the model always answers. */
  ghost predicate Smooth(e: Environment) {
    && e.abortedFrom.None?
    && (forall t :: e.commit(t).None?) && (forall t :: e.guard(t) == Continue) && (forall t :: !e.revisions(t))
    && (forall t :: e.prepare(t).None?) && (forall t :: e.model(t).Stepped?) && (forall t :: !e.gate(t).GateRaised?)
  }

  lemma SmoothAt(e: Environment, t: nat)
    ensures Smooth(e) ==>
              && !AbortedAt(e, t) && e.commit(t).None? && e.guard(t) == Continue && !e.revisions(t) && e.prepare(t).None?
              && e.model(t).Stepped? && !e.gate(t).GateRaised?
  {
  }

  const MAX_OUTPUT_CONTINUATIONS := 2
  const NO_PROGRESS_RECOVERY_TOOL_STEPS := 2

  datatype Outcome = Returned(reason: Reason) | Cancelled | Failed(failure: Failure)

  datatype Executed = Result(result: ToolResult) | Raised(failure: Failure)

  /** How one pass of the loop ends. */
  datatype Pass = Next | End(reason: Reason) | Throw(failure: Failure)

  // ---------- calls and their results ----------

  function Ids(calls: seq<Call>): (ids: seq<string>)
    ensures |ids| == |calls| && (calls == [] ==> ids == [])
  {
    seq(|calls|, i requires 0 <= i < |calls| => calls[i].id)
  }

  predicate HostTrace(m: Message) {
    !m.UserMessage? && m.hostTrace
  }

  /** The calls still to be answered, in order, after one more message; None once a message does not fit. */
  function Fits(owed: Option<seq<string>>, m: Message): Option<seq<string>> {
    if owed.None? || HostTrace(m) then owed
    else
      match m
      case UserMessage => if owed.value == [] then Some([]) else None
      case AssistantMessage(calls, _) => if owed.value == [] then Some(Ids(calls)) else None
      case ToolMessage(r, _) => if owed.value != [] && owed.value[0] == r.callId then Some(owed.value[1..]) else None
  }

  function Owed(messages: seq<Message>): Option<seq<string>> {
    if messages == [] then Some([]) else Fits(Owed(messages[..|messages| - 1]), messages[|messages| - 1])
  }

  /** The host's record of a check's result. */
  predicate ResultOf(m: Message, callId: string) {
    m.ToolMessage? && m.hostTrace && m.result.callId == callId
  }

  /** Only host traces were added. */
  ghost predicate OnlyTraces(before: seq<Message>, after: seq<Message>) {
    before <= after && forall i | |before| <= i < |after| :: HostTrace(after[i])
  }

  /** Some result of the turn's own reports that nothing was achieved, or that something was. */
  predicate SaysNoProgress(said: seq<Message>) {
    exists m :: m in said && m.ToolMessage? && !m.hostTrace && m.result.code == "no_progress"
  }

  predicate SaysProgress(said: seq<Message>) {
    exists m :: m in said && m.ToolMessage? && !m.hostTrace && m.result.ok
  }

  lemma NothingTold()
    ensures !SaysNoProgress([]) && !SaysProgress([])
  {
  }

  lemma ProgressTold(before: seq<Message>, traced: seq<Message>, after: seq<Message>, result: ToolResult, from: nat)
    requires from <= |before| && OnlyTraces(before, traced) && after == traced + [ToolMessage(result, false)]
    ensures SaysNoProgress(after[from..]) <==> SaysNoProgress(before[from..]) || result.code == "no_progress"
    ensures SaysProgress(after[from..]) <==> SaysProgress(before[from..]) || result.ok
  {
    TracesTellNothing(before, traced, from);
    assert after[from..] == traced[from..] + [ToolMessage(result, false)];
  }

  lemma TracesTellNothing(before: seq<Message>, after: seq<Message>, from: nat)
    requires from <= |before| && OnlyTraces(before, after)
    ensures SaysNoProgress(after[from..]) <==> SaysNoProgress(before[from..])
    ensures SaysProgress(after[from..]) <==> SaysProgress(before[from..])
  {
    assert after[from..] == before[from..] + after[|before|..];
  }

  /** Only messages to the model were added, no answers of tools. */
  ghost predicate OnlyNotes(before: seq<Message>, after: seq<Message>) {
    before <= after && forall i | |before| <= i < |after| :: after[i] == UserMessage
  }

  lemma NotesTellNothing(before: seq<Message>, after: seq<Message>, from: nat)
    requires from <= |before| && OnlyNotes(before, after)
    ensures SaysNoProgress(after[from..]) <==> SaysNoProgress(before[from..])
  {
    assert after[from..] == before[from..] + after[|before|..];
  }

  lemma OwedAppend(messages: seq<Message>, m: Message)
    ensures Owed(messages + [m]) == Fits(Owed(messages), m)
  {
    assert (messages + [m])[..|messages|] == messages;
  }

  lemma {:induction false} TracesOweNothing(before: seq<Message>, after: seq<Message>)
    requires OnlyTraces(before, after)
    ensures Owed(after) == Owed(before)
    decreases |after|
  {
    if |before| < |after| {
      TracesOweNothing(before, after[..|after| - 1]);
    } else {
      assert before == after;
    }
  }

  /** A tool was invoked for an attempt, with the final-response latch set or not. */
  datatype Execution = Execution(attempt: nat, latched: bool)

  /** Tools run only for admitted attempts, each attempt once, none while the latch is set. */
  ghost predicate ExecutionsSound(executions: seq<Execution>, attempts: seq<Attempt>, maximum: int) {
    && (forall k | 0 <= k < |executions| ::
          && executions[k].attempt < |attempts| && !executions[k].latched
          && VerdictAt(attempts, executions[k].attempt, maximum) == Admitted)
    && (forall j, k | 0 <= j < k < |executions| :: executions[j].attempt < executions[k].attempt)
  }

  lemma ExecutionsStay(executions: seq<Execution>, attempts: seq<Attempt>, a: Attempt, maximum: int)
    requires ExecutionsSound(executions, attempts, maximum)
    ensures ExecutionsSound(executions, attempts + [a], maximum)
  {
    hide After, Judge;
    forall k | 0 <= k < |executions|
      ensures VerdictAt(attempts + [a], executions[k].attempt, maximum) == Admitted
    {
      var i := executions[k].attempt;
      assert (attempts + [a])[..i] == attempts[..i];
    }
  }

  lemma VerdictStays(before: seq<Attempt>, attempts: seq<Attempt>, i: nat, maximum: int)
    requires i < |before| && before <= attempts
    ensures VerdictAt(attempts, i, maximum) == VerdictAt(before, i, maximum)
  {
    assert attempts[..i] == before[..i];
  }

  lemma AttemptAdded(attempts: seq<Attempt>, a: Attempt, maximum: int)
    ensures (After(attempts + [a], maximum), VerdictAt(attempts + [a], |attempts|, maximum)) == Judge(After(attempts, maximum), a, maximum)
  {
    assert (attempts + [a])[..|attempts|] == attempts;
  }

  lemma ExecutionsPush(executions: seq<Execution>, attempts: seq<Attempt>, maximum: int)
    requires ExecutionsSound(executions, attempts, maximum) && |attempts| > 0
    requires VerdictAt(attempts, |attempts| - 1, maximum) == Admitted
    requires forall e | e in executions :: e.attempt < |attempts| - 1
    ensures ExecutionsSound(executions + [Execution(|attempts| - 1, false)], attempts, maximum)
  {
    hide VerdictAt;
  }

  lemma ExecutionsBefore(executions: seq<Execution>, attempts: seq<Attempt>, maximum: int)
    requires ExecutionsSound(executions, attempts, maximum)
    ensures forall e | e in executions :: e.attempt < |attempts|
  {
  }

  /** No call id is executed twice in a turn. */
  lemma ExecutedOnce(executions: seq<Execution>, attempts: seq<Attempt>, maximum: int, j: nat, k: nat)
    requires ExecutionsSound(executions, attempts, maximum) && j < k < |executions|
    ensures attempts[executions[j].attempt].call.id != attempts[executions[k].attempt].call.id
  {
    AdmittedOnce(attempts, executions[j].attempt, executions[k].attempt, maximum);
  }

  /** Each call was tried, in order, at the given attempts from a first one on. */
  ghost predicate TriedAt(calls: seq<Call>, attempts: seq<Attempt>, from: nat, at: seq<nat>) {
    && |at| == |calls|
    && (forall i | 0 <= i < |at| :: from <= at[i] < |attempts| && attempts[at[i]].call == calls[i])
    && (forall i, j | 0 <= i < j < |at| :: at[i] < at[j])
  }

  ghost predicate Tried(calls: seq<Call>, attempts: seq<Attempt>, from: nat) {
    exists at :: TriedAt(calls, attempts, from, at)
  }

  lemma TriedNext(calls: seq<Call>, before: seq<Attempt>, from: nat, at: seq<nat>, c: Call, attempts: seq<Attempt>)
    requires TriedAt(calls, before, from, at) && from <= |before|
    requires before <= attempts && |before| < |attempts| && attempts[|before|].call == c
    ensures TriedAt(calls + [c], attempts, from, at + [|before|])
  {
  }

  lemma NothingTried(attempts: seq<Attempt>)
    ensures TriedAt([], attempts, |attempts|, [])
  {
  }

  class Turn {
    const environment: Environment
    const options: Options
    const history: seq<Message>

    var messages: seq<Message>
    const execution: ToolExecutionState
    var toolsByName: map<string, Tool>
    var toolCalls: nat
    var iterationBudget: IterationBudget.Policy
    var outputContinuations: nat
    var recoveryToolStepsRemaining: Option<int>
    var finalResponseOnly: bool
    var finalResponseReason: Option<Reason>
    var tick: nat                       // questions put to the environment so far

    ghost var attempts: seq<Attempt>    // every call that came to the repeat guards
    ghost var executions: seq<Execution>
    ghost var answers: seq<ModelAnswer> // what the model said, step by step
    ghost var passes: seq<Pass>         // how each pass of the loop ended
    ghost var asked: seq<Question>      // the questions that may leave calls unanswered, so far

    ghost predicate Valid()
      reads this, execution
    {
      && execution.State() == After(attempts, options.maxIdenticalToolCalls)
      && ExecutionsSound(executions, attempts, options.maxIdenticalToolCalls)
      && toolCalls <= Max(0, options.maxToolCalls)
      && IterationBudget.WellFormed(iterationBudget)
      && iterationBudget.runLimit == IterationBudget.CreatePolicy(options.budget).runLimit
      && history <= messages
      && forall q | q in asked :: q.at < tick
    }

    constructor (environment: Environment, options: Options, history: seq<Message>)
      ensures Valid() && fresh(execution)
      ensures this.environment == environment && this.options == options && this.history == history
      ensures messages == history && toolCalls == 0 && executions == [] && answers == [] && passes == [] && asked == [] && tick == 0
      ensures !finalResponseOnly
    {
      this.environment, this.options, this.history := environment, options, history;
      messages := history;
      execution := new ToolExecutionState();
      toolsByName, toolCalls := map[], 0;
      iterationBudget := IterationBudget.CreatePolicy(options.budget);
      outputContinuations, recoveryToolStepsRemaining, finalResponseOnly, tick := 0, None, false, 0;
      finalResponseReason := None;
      attempts, executions, answers, passes, asked := [], [], [], [], [];
      IterationBudget.PolicyWellFormed(options.budget);
    }

    predicate Aborted()
      reads this
    {
      AbortedAt(environment, tick)
    }

    ghost function OwedNow(): Option<seq<string>>
      reads this
    {
      if history <= messages then Owed(messages[|history|..]) else None
    }

    ghost function OwedIds(): seq<string>
      reads this
    {
      if OwedNow().Some? then OwedNow().value else []
    }

    /** appendMessage: the message stays even when committing it fails. */
    method Append(m: Message) returns (e: Option<Failure>)
      requires history <= messages
      modifies `messages, `tick, `asked
      ensures messages == old(messages) + [m]
      ensures e == environment.commit(old(tick)) && tick == old(tick) + 1
      ensures asked == old(asked) + [Committed(old(tick), HostTrace(m), OwedIds())]
      ensures OwedNow() == Fits(old(OwedNow()), m)
    {
      ghost var before := messages;
      messages := messages + [m];
      e := environment.commit(tick);
      tick := tick + 1;
      OwedAppend(before[|history|..], m);
      assert messages[|history|..] == before[|history|..] + [m];
      asked := asked + [Committed(tick - 1, HostTrace(m), OwedIds())];
    }

    // ---------- tool calls ----------

    /** What running tool calls may change: host traces are added, every call is paid for in
        toolCalls (allowance of them beforehand), and while the latch is set no tool runs. */
    twostate predicate Ran(allowance: nat)
      reads this, execution
    {
      && Valid()
      && OnlyTraces(old(messages), messages)
      && old(toolCalls) <= toolCalls && old(executions) <= executions && old(attempts) <= attempts
      && |executions| - |old(executions)| <= toolCalls - old(toolCalls) + allowance
      && (finalResponseOnly && old(toolsByName) == map[] ==> executions == old(executions))
      && toolsByName == old(toolsByName) && finalResponseOnly == old(finalResponseOnly)
      && old(asked) <= asked && old(tick) <= tick
    }

    /** A call whose tool was admitted: it runs exactly when the permission check grants it. */
    twostate predicate Permitted(call: Call, attempt: nat, r: Executed)
      reads this
    {
      match environment.gate(old(tick))
      case Granted => old(executions) + [Execution(attempt, false)] <= executions
      case Refused(code) => executions == old(executions) && r == Result(ToolResult(call.id, false, code))
      case GateRaised(failure) => executions == old(executions) && r == Raised(failure)
    }

    /** What becomes of a call: nothing after an abort, else what the verdict of the guards says. */
    twostate predicate Handled(call: Call, child: bool, r: Executed)
      reads this
    {
      if old(Aborted()) || (child && environment.budgetAborted(old(tick))) then
        r == Raised(AbortError) && attempts == old(attempts) && executions == old(executions)
      else
        var tool := if call.name in toolsByName then Some(toolsByName[call.name]) else None;
        var n := |old(attempts)|;
        && old(attempts) + [Attempt(call, tool, environment.clock(old(tick)))] <= attempts
        && match VerdictAt(attempts, n, options.maxIdenticalToolCalls)
           case Admitted => Permitted(call, n, r)
           case Duplicate => executions == old(executions) && r == Result(ToolResult(call.id, false, "duplicate_tool_call"))
           case Unknown => executions == old(executions) && r == Result(ToolResult(call.id, false, "unknown_tool"))
           case _ => executions == old(executions) && r == Result(ToolResult(call.id, false, "no_progress"))
    }

    /** executeToolCall. A call of a verification batch may also be cut off by its own deadline. */
    method ExecuteToolCall(call: Call, child: bool) returns (r: Executed)
      requires Valid() && (finalResponseOnly ==> toolsByName == map[])
      modifies `messages, `tick, `asked, `toolCalls, `attempts, `executions, execution
      ensures Ran(1)
      ensures old(Unbroken(environment, asked)) ==>
                if r.Raised? && !child && !Aborted() && r.failure != AbortError then
                  BrokeLast(environment, asked) && LeftOwed(environment, asked) == old(OwedIds())
                else Unbroken(environment, asked)
      ensures Handled(call, child, r)
      ensures Smooth(environment) && !child ==> r.Result?
      ensures r.Result? ==> |old(attempts)| < |attempts| && attempts[|old(attempts)|].call == call
      ensures r.Result? ==> r.result.callId == call.id
      decreases if call.name == "verification_run" then 1 else 0, 3
    {
      hide ExecutionsSound, VerdictAt, After, Fits, Owed, Breaks, Unbroken, LeftOwed, BrokeLast,
           IterationBudget.CreatePolicy, IterationBudget.WellFormed;
      if Aborted() || (child && environment.budgetAborted(tick)) {
        return Raised(AbortError);
      }
      var tool := if call.name in toolsByName then Some(toolsByName[call.name]) else None;
      var a := Attempt(call, tool, environment.clock(tick));
      var v := execution.Admit(a, options.maxIdenticalToolCalls);
      ExecutionsStay(executions, attempts, a, options.maxIdenticalToolCalls);
      AttemptAdded(attempts, a, options.maxIdenticalToolCalls);
      ExecutionsBefore(executions, attempts, options.maxIdenticalToolCalls);
      attempts := attempts + [a];
      ghost var so := attempts;
      match v {
        case Duplicate => r := Result(ToolResult(call.id, false, "duplicate_tool_call"));
        case Unknown => r := Result(ToolResult(call.id, false, "unknown_tool"));
        case Admitted => r := ExecuteKnownTool(call, child);
        case _ => r := Result(ToolResult(call.id, false, "no_progress"));
      }
      VerdictStays(so, attempts, |old(attempts)|, options.maxIdenticalToolCalls);
    }

    method ExecuteKnownTool(call: Call, child: bool) returns (r: Executed)
      requires Valid() && !finalResponseOnly
      requires |attempts| > 0 && attempts[|attempts| - 1].call == call
      requires VerdictAt(attempts, |attempts| - 1, options.maxIdenticalToolCalls) == Admitted
      requires forall e | e in executions :: e.attempt < |attempts| - 1
      modifies `messages, `tick, `asked, `toolCalls, `attempts, `executions, execution
      ensures Ran(1)
      ensures old(Unbroken(environment, asked)) ==>
                if r.Raised? && !child && !Aborted() && r.failure != AbortError then
                  BrokeLast(environment, asked) && LeftOwed(environment, asked) == old(OwedIds())
                else Unbroken(environment, asked)
      ensures Permitted(call, |old(attempts)| - 1, r)
      ensures Smooth(environment) && !child ==> r.Result?
      ensures r.Result? ==> r.result.callId == call.id
      decreases if call.name == "verification_run" then 1 else 0, 2, 1
    {
      hide ExecutionsSound, VerdictAt, After, IterationBudget.CreatePolicy, IterationBudget.WellFormed;
      hide Owed, Fits, LeftOwed, BrokeLast, Unbroken;
      ghost var question := Checked(tick, child, OwedIds());
      if Unbroken(environment, asked) {
        AskedNext(environment, asked, question);
      }
      asked := asked + [question];
      var gate := environment.gate(tick);
      tick := tick + 1;
      if gate.GateRaised? {
        return Raised(gate.failure);
      }
      if gate.Refused? {
        return Result(ToolResult(call.id, false, gate.code));
      }
      r := ExecuteApprovedTool(call, child);
    }

    /** A tool that raises is a failure only once its call has been aborted, else its error is the result. */
    function ToolOutcome(call: Call, child: bool, at: nat): Executed {
      match environment.toolEnd(at)
      case Ended(ok, code) => Result(ToolResult(call.id, ok, code))
      case ToolRaised(failure) =>
        if AbortedAt(environment, at + 1) then Raised(failure)
        else if child && environment.budgetAborted(at + 1) then Raised(failure)
        else Result(ToolResult(call.id, false, "tool_error"))
    }

    /** executeApprovedTool. */
    method ExecuteApprovedTool(call: Call, child: bool) returns (r: Executed)
      requires Valid() && !finalResponseOnly
      requires |attempts| > 0 && attempts[|attempts| - 1].call == call
      requires VerdictAt(attempts, |attempts| - 1, options.maxIdenticalToolCalls) == Admitted
      requires forall e | e in executions :: e.attempt < |attempts| - 1
      modifies `messages, `tick, `asked, `toolCalls, `attempts, `executions, execution
      ensures Ran(1)
      ensures old(Unbroken(environment, asked)) ==> Unbroken(environment, asked)
      ensures old(executions) + [Execution(|old(attempts)| - 1, false)] <= executions
      ensures r.Raised? ==> Aborted() || child
      ensures tick > old(tick) && r == ToolOutcome(call, child, tick - 1)
      ensures call.name != "verification_run" ==> tick == old(tick) + 1
      ensures r.Result? ==> r.result.callId == call.id
      decreases if call.name == "verification_run" then 1 else 0, 2, 0
    {
      hide ExecutionsSound, VerdictAt, After, Breaks, Unbroken, IterationBudget.CreatePolicy, IterationBudget.WellFormed;
      ExecutionsPush(executions, attempts, options.maxIdenticalToolCalls);
      executions := executions + [Execution(|attempts| - 1, finalResponseOnly)];
      if call.name == "verification_run" {
        RunBatches(call, environment.batches(tick));
      }
      var end := environment.toolEnd(tick);
      tick := tick + 1;
      if end.Ended? {
        return Result(ToolResult(call.id, end.ok, end.code));
      }
      var aborted := Aborted() || (child && environment.budgetAborted(tick));
      r := if aborted then Raised(end.failure) else Result(ToolResult(call.id, false, "tool_error"));
    }

    /** The batches a verification tool runs, one after the other; it may go on after one that failed. */
    method RunBatches(parent: Call, batches: seq<Batch>)
      requires Valid() && !finalResponseOnly
      modifies `messages, `tick, `asked, `toolCalls, `attempts, `executions, execution
      ensures Ran(0)
      ensures old(Unbroken(environment, asked)) ==> Unbroken(environment, asked)
      decreases 1, 1
    {
      for i := 0 to |batches|
        invariant Ran(0) && (old(Unbroken(environment, asked)) ==> Unbroken(environment, asked))
      {
        var e := RunVerificationBatch(batches[i]);
      }
    }

    /** runVerificationBatch. */
    method RunVerificationBatch(batch: Batch) returns (e: Option<Failure>)
      requires Valid() && !finalResponseOnly
      modifies `messages, `tick, `asked, `toolCalls, `attempts, `executions, execution
      ensures Ran(0)
      ensures old(Unbroken(environment, asked)) ==> Unbroken(environment, asked)
      ensures !batch.valid ==> e == Some(InvalidBatch) && messages == old(messages) && executions == old(executions)
      ensures e.None? ==> batch.valid && toolCalls >= old(toolCalls) + |batch.checks|
      ensures batch.valid && batch.checks != [] && old(Aborted()) ==> e == Some(AbortError) && messages == old(messages)
      ensures batch.valid && batch.checks != [] && !AbortedAt(environment, old(tick) + 1) && old(toolCalls) >= options.maxToolCalls ==>
                e == Some(BudgetExhausted) && messages == old(messages)
      decreases 1, 0
    {
      hide ExecutionsSound, VerdictAt, After, OwedNow, Fits, Owed, IterationBudget.CreatePolicy, IterationBudget.WellFormed;
      tick := tick + 1;
      if !batch.valid {
        return Some(InvalidBatch);
      }
      for i := 0 to |batch.checks|
        invariant toolCalls >= old(toolCalls) + i
        invariant i == 0 ==> messages == old(messages) && toolCalls == old(toolCalls) && tick == old(tick) + 1
        invariant i > 0 ==> !AbortedAt(environment, old(tick) + 1) && old(toolCalls) < options.maxToolCalls
        invariant Ran(0) && (old(Unbroken(environment, asked)) ==> Unbroken(environment, asked))
      {
        e := RunCheck(batch.checks[i]);
        if e.Some? {
          return;
        }
      }
      e := None;
    }

    /** One check of the batch, paid for before it runs. */
    method RunCheck(check: Check) returns (e: Option<Failure>)
      requires Valid() && !finalResponseOnly
      modifies `messages, `tick, `asked, `toolCalls, `attempts, `executions, execution
      ensures Ran(0)
      ensures old(Unbroken(environment, asked)) ==> Unbroken(environment, asked)
      ensures old(Aborted()) ==> e == Some(AbortError) && messages == old(messages)
      ensures !old(Aborted()) && old(toolCalls) >= options.maxToolCalls ==> e == Some(BudgetExhausted) && messages == old(messages)
      ensures e.None? ==>
                && !old(Aborted()) && old(toolCalls) < options.maxToolCalls && toolCalls > old(toolCalls)
                && old(messages) + [AssistantMessage([Call(check.callId, "terminal", check.input)], true)] <= messages
                && ResultOf(messages[|messages| - 1], check.callId)
      decreases 0, 5
    {
      hide Handled, LeftOwed, BrokeLast, ExecutionsSound, VerdictAt, After, OwedNow, Fits, Owed,
           IterationBudget.CreatePolicy, IterationBudget.WellFormed;
      if Aborted() {
        return Some(AbortError);
      }
      var call := Call(check.callId, "terminal", check.input);
      if toolCalls >= options.maxToolCalls {
        return Some(BudgetExhausted);
      }
      toolCalls := toolCalls + 1;
      e := Append(AssistantMessage([call], true));
      if e.Some? {
        return;
      }
      var r := ExecuteCheck(call);
      e := RecordCheck(call, r);
    }

    /** A check that comes too late is answered without being tried. */
    method ExecuteCheck(call: Call) returns (r: Executed)
      requires Valid() && !finalResponseOnly && call.name == "terminal"
      modifies `messages, `tick, `asked, `toolCalls, `attempts, `executions, execution
      ensures Ran(1)
      ensures old(Unbroken(environment, asked)) ==> Unbroken(environment, asked)
      ensures environment.deadlinePassed(old(tick)) ==>
                && r == Result(ToolResult(call.id, false, "budget_exhausted"))
                && executions == old(executions) && attempts == old(attempts)
      ensures r.Result? ==> r.result.callId == call.id
      decreases 0, 4
    {
      hide Handled, LeftOwed, BrokeLast, ExecutionsSound, VerdictAt, After, OwedNow, Fits, Owed;
      hide IterationBudget.CreatePolicy, IterationBudget.WellFormed;
      if environment.deadlinePassed(tick) {
        r := Result(ToolResult(call.id, false, "budget_exhausted"));
      } else {
        r := ExecuteToolCall(call, true);
      }
    }

    /** The result of a check, also of one that was cut off; other failures go up without one. */
    method RecordCheck(call: Call, r: Executed) returns (e: Option<Failure>)
      requires history <= messages
      requires r.Result? ==> r.result.callId == call.id
      modifies `messages, `tick, `asked
      ensures OnlyTraces(old(messages), messages) && old(asked) <= asked && old(tick) <= tick
      ensures old(forall q | q in asked :: q.at < tick) ==> forall q | q in asked :: q.at < tick
      ensures old(Unbroken(environment, asked)) ==> Unbroken(environment, asked)
      ensures if r.Raised? && !old(Aborted()) && !environment.budgetAborted(old(tick)) then
                e == Some(r.failure) && messages == old(messages)
              else
                && messages == old(messages) + [ToolMessage(if r.Result? then r.result
                     else ToolResult(call.id, false, if old(Aborted()) then "cancelled" else "budget_exhausted"), true)]
                && e == if environment.commit(old(tick)).Some? then environment.commit(old(tick))
                        else if r.Raised? && old(Aborted()) then Some(r.failure) else None
      ensures e.None? ==> messages != [] && ResultOf(messages[|messages| - 1], call.id)
    {
      if r.Raised? && !Aborted() && !environment.budgetAborted(tick) {
        return Some(r.failure);
      }
      if r.Raised? && Aborted() {
        e := Append(ToolMessage(ToolResult(call.id, false, "cancelled"), true));
        return Some(if e.Some? then e.value else r.failure);
      }
      e := Append(ToolMessage(if r.Raised? then ToolResult(call.id, false, "budget_exhausted") else r.result, true));
    }

    // ---------- the calls of one answer ----------

    /** Between two passes: every call of the turn is answered and paid for. */
    ghost predicate Settled()
      reads this, execution
    {
      Valid() && OwedNow() == Some([]) && Unbroken(environment, asked) && |executions| <= toolCalls
    }

    /** When the turn is thrown out of: calls are owed only if something broke. */
    ghost predicate Stopped()
      reads this, execution
    {
      && Valid() && |executions| <= toolCalls && OwedNow() == Some(LeftOwed(environment, asked))
      && (Unbroken(environment, asked) || BrokeLast(environment, asked))
    }

    lemma SettledIsStopped()
      requires Settled()
      ensures Stopped()
    {
      hide ExecutionsSound, Owed, IterationBudget.CreatePolicy, IterationBudget.WellFormed;
    }

    lemma TracesKeepOwed(before: seq<Message>)
      requires history <= before && OnlyTraces(before, messages)
      ensures history <= messages && Owed(messages[|history|..]) == Owed(before[|history|..])
    {
      TracesOweNothing(before[|history|..], messages[|history|..]);
    }

    /** The result of the first call owed. */
    method AnswerCall(calls: seq<Call>, i: nat, result: ToolResult) returns (e: Option<Failure>)
      requires Valid() && i < |calls| && OwedNow() == Some(Ids(calls)[i..]) && Unbroken(environment, asked)
      requires result.callId == calls[i].id
      modifies `messages, `tick, `asked
      ensures Valid() && OwedNow() == Some(Ids(calls)[i + 1..]) && old(messages) <= messages
      ensures e.None? ==> Unbroken(environment, asked)
      ensures e == environment.commit(old(tick)) && messages == old(messages) + [ToolMessage(result, false)]
      ensures e.Some? ==> BrokeLast(environment, asked) && LeftOwed(environment, asked) == Ids(calls)[i + 1..]
    {
      hide ExecutionsSound, VerdictAt, After, Owed, IterationBudget.CreatePolicy, IterationBudget.WellFormed;
      e := Append(ToolMessage(result, false));
    }

    /** executeToolCalls: each call is answered in turn; after an abort the rest is answered as cancelled. */
    method ExecuteToolCalls(calls: seq<Call>) returns (e: Option<Failure>, noProgress: bool, madeProgress: bool)
      requires Valid() && OwedNow() == Some(Ids(calls)) && Unbroken(environment, asked)
      requires |executions| + |calls| <= toolCalls && (finalResponseOnly ==> toolsByName == map[])
      modifies `messages, `tick, `asked, `toolCalls, `attempts, `executions, execution
      ensures e.None? ==> Settled() && Tried(calls, attempts, |old(attempts)|)
      ensures Smooth(environment) ==> e.None?
      ensures old(messages) <= messages
      ensures e.None? ==> (noProgress <==> SaysNoProgress(messages[|old(messages)|..]))
      ensures e.None? ==> (madeProgress <==> SaysProgress(messages[|old(messages)|..]))
      ensures e.Some? ==> Stopped()
      ensures old(attempts) <= attempts
      ensures old(toolCalls) <= toolCalls && old(executions) <= executions
      ensures finalResponseOnly ==> executions == old(executions)
    {
      hide SaysNoProgress, SaysProgress, Fits, TriedAt, Handled, Permitted, ExecutionsSound, VerdictAt, After, Owed,
           IterationBudget.CreatePolicy, IterationBudget.WellFormed;
      noProgress, madeProgress := false, false;
      ghost var at: seq<nat> := [];
      NothingTried(attempts);
      NothingTold();
      assert calls[..0] == [] && messages[|messages|..] == [];
      for i := 0 to |calls|
        invariant old(messages) <= messages
        invariant noProgress <==> SaysNoProgress(messages[|old(messages)|..])
        invariant madeProgress <==> SaysProgress(messages[|old(messages)|..])
        invariant old(attempts) <= attempts && TriedAt(calls[..i], attempts, |old(attempts)|, at)
        invariant Valid() && OwedNow() == Some(Ids(calls)[i..]) && Unbroken(environment, asked)
        invariant |executions| + |calls| - i <= toolCalls
        invariant old(toolCalls) <= toolCalls && old(executions) <= executions
        invariant finalResponseOnly ==> executions == old(executions)
      {
        ghost var before, tried := messages, attempts;
        var r := ExecuteToolCall(calls[i], false);
        TracesKeepOwed(before);
        assert OwedNow() == Some(Ids(calls)[i..]);
        if r.Raised? {
          var failure := CallRaised(calls, i, r.failure);
          return Some(failure), noProgress, madeProgress;
        }
        ghost var traced := messages;
        e := AnswerCall(calls, i, r.result);
        ProgressTold(before, traced, messages, r.result, |old(messages)|);
        if e.Some? {
          return;
        }
        TriedNext(calls[..i], tried, |old(attempts)|, at, calls[i], attempts);
        assert calls[..i + 1] == calls[..i] + [calls[i]];
        at := at + [|tried|];
        noProgress := noProgress || r.result.code == "no_progress";
        madeProgress := madeProgress || r.result.ok;
      }
      assert calls[..|calls|] == calls;
      e := None;
    }

    /** A call threw. After an abort it and the rest are answered as cancelled; else the failure goes up. */
    method CallRaised(calls: seq<Call>, from: nat, failure: Failure) returns (thrown: Failure)
      requires Valid() && from <= |calls| && OwedNow() == Some(Ids(calls)[from..])
      requires if !Aborted() && failure != AbortError then
                 BrokeLast(environment, asked) && LeftOwed(environment, asked) == Ids(calls)[from..]
               else Unbroken(environment, asked)
      modifies `messages, `tick, `asked
      ensures Valid() && OwedNow() == Some(LeftOwed(environment, asked))
      ensures Unbroken(environment, asked) || BrokeLast(environment, asked)
      ensures old(messages) <= messages
    {
      hide ExecutionsSound, VerdictAt, After, Owed, IterationBudget.CreatePolicy, IterationBudget.WellFormed;
      if !Aborted() && failure != AbortError {
        tick := tick + 1;
        return failure;
      }
      for i := from to |calls|
        invariant Valid() && OwedNow() == Some(Ids(calls)[i..]) && Unbroken(environment, asked) && old(messages) <= messages
      {
        var e := AnswerCall(calls, i, ToolResult(calls[i].id, false, "cancelled"));
        if e.Some? {
          return e.value;
        }
      }
      assert Ids(calls)[|calls|..] == [];
      thrown := failure;
    }

    // ---------- one pass of the loop ----------

    /** What every part of a pass keeps: the latch stays, limits only grow, no more model steps than said. */
    twostate predicate Advanced(steps: nat)
      reads this, execution
    {
      && (old(finalResponseOnly) ==> finalResponseOnly && executions == old(executions))
      && old(iterationBudget).currentLimit <= iterationBudget.currentLimit
      && old(executions) <= executions && old(toolCalls) <= toolCalls
      && old(answers) <= answers && |answers| <= |old(answers)| + steps && passes == old(passes)
    }

    ghost predicate Ends(p: Pass)
      reads this, execution
    {
      if p.Throw? then Stopped() else Settled()
    }

    function LimitReason(): Reason
      reads this
    {
      if iterationBudget.limitReason == IterationBudget.AbsoluteLimit then AbsoluteLimit else MaxIterations
    }

    /** A message without calls between two passes. */
    method Note(m: Message) returns (p: Pass)
      requires Settled() && (m == UserMessage || m == AssistantMessage([], false))
      modifies `messages, `tick, `asked
      ensures Ends(p) && !p.End?
      ensures messages == old(messages) + [m]
      ensures tick == old(tick) + 1
      ensures p == match environment.commit(old(tick)) case None => Next case Some(failure) => Throw(failure)
    {
      hide ExecutionsSound, Owed, IterationBudget.CreatePolicy, IterationBudget.WellFormed;
      var e := Append(m);
      p := if e.Some? then Throw(e.value) else Next;
    }

    /** Sets the latch and tells the model so. */
    method Latch(reason: Reason) returns (p: Pass)
      requires Settled()
      modifies `messages, `tick, `asked, `finalResponseOnly, `finalResponseReason
      ensures Ends(p) && finalResponseOnly && !p.End?
      ensures finalResponseReason == Some(reason) && messages == old(messages) + [UserMessage]
      ensures p.Next? <==> environment.commit(old(tick)).None?
    {
      hide ExecutionsSound, Owed, Fits, IterationBudget.CreatePolicy, IterationBudget.WellFormed;
      finalResponseOnly, finalResponseReason := true, Some(reason);
      p := Note(UserMessage);
    }

    /** From the top of a pass to the guards before the step. */
    method GuardStep() returns (p: Pass)
      requires Settled()
      modifies `messages, `tick, `asked, `finalResponseOnly, `finalResponseReason
      ensures Ends(p) && Advanced(0)
      ensures old(Aborted()) ==> p == Throw(AbortError)
      ensures !old(Aborted()) && old(finalResponseOnly) ==> p == Next
      ensures !old(Aborted()) && !old(finalResponseOnly) ==>
                match environment.guard(old(tick))
                case Stop(reason) => p == End(reason) && !finalResponseOnly
                case Finalize(reason) => !p.End? && finalResponseOnly && finalResponseReason == Some(reason)
                case _ => p == Next && !finalResponseOnly
      ensures !old(Aborted()) && !old(finalResponseOnly) && environment.guard(old(tick)) == Continue ==>
                tick == old(tick) + 1 && OwedNow() == old(OwedNow())
    {
      hide ExecutionsSound, Owed, Fits, IterationBudget.CreatePolicy, IterationBudget.WellFormed;
      if Aborted() {
        return Throw(AbortError);
      }
      p := Next;
      if !finalResponseOnly {
        var decision := environment.guard(tick);
        tick := tick + 1;
        if decision.Finalize? {
          p := Latch(decision.reason);
        } else if decision.Stop? {
          p := End(decision.reason);
        }
      }
    }

    /** The tools, the workspace revisions and the context of a step; no tools once the latch is set. */
    method PrepareStep() returns (p: Pass)
      requires Settled()
      modifies `messages, `tick, `asked, `toolsByName
      ensures Ends(p) && Advanced(0) && !p.End?
      ensures p.Next? && finalResponseOnly ==> toolsByName == map[]
      ensures !environment.revisions(old(tick) + 1) ==>
                tick == old(tick) + 2 && p == match environment.prepare(old(tick) + 1) case None => Next case Some(failure) => Throw(failure)
      ensures environment.revisions(old(tick) + 1) ==>
                p == match environment.commit(old(tick) + 1)
                     case Some(failure) => Throw(failure)
                     case None => match environment.prepare(old(tick) + 2) case None => Next case Some(failure) => Throw(failure)
    {
      hide ExecutionsSound, Owed, Fits, Breaks, Unbroken, LeftOwed, BrokeLast, IterationBudget.CreatePolicy,
           IterationBudget.WellFormed;
      toolsByName := environment.tools(tick);
      if finalResponseOnly {
        toolsByName := map[];
      }
      tick := tick + 1;
      if environment.revisions(tick) {
        p := Note(AssistantMessage([], false));
        if p.Throw? {
          return;
        }
      }
      var failure := environment.prepare(tick);
      tick := tick + 1;
      p := if failure.Some? then Throw(failure.value) else Next;
      SettledIsStopped();
    }

    /** The catch around the model: only a response cut off inside its tool arguments is tried again. */
    method ModelFails(failure: Failure, iteration: nat) returns (p: Pass)
      requires Settled()
      modifies `messages, `tick, `asked, `finalResponseOnly, `finalResponseReason, `outputContinuations
      ensures Ends(p) && Advanced(0)
      ensures old(Aborted()) ==> p == Throw(AbortError)
      ensures !old(Aborted())
              && (failure != OutputLimit || old(finalResponseOnly) || old(outputContinuations) >= MAX_OUTPUT_CONTINUATIONS) ==>
                p == Throw(failure)
      ensures p.Next? ==>
                && outputContinuations == old(outputContinuations) + 1 <= MAX_OUTPUT_CONTINUATIONS
                && (finalResponseOnly <==>
                      iteration + 1 >= iterationBudget.currentLimit && !options.allowPartialOnMaxIterations)
      ensures !p.End?
    {
      hide ExecutionsSound, Owed, Fits, IterationBudget.CreatePolicy, IterationBudget.WellFormed;
      if Aborted() {
        return Throw(AbortError);
      }
      if failure != OutputLimit || finalResponseOnly || outputContinuations >= MAX_OUTPUT_CONTINUATIONS {
        return Throw(failure);
      }
      outputContinuations := outputContinuations + 1;
      p := Note(UserMessage);
      if p.Next? && iteration + 1 >= iterationBudget.currentLimit && !options.allowPartialOnMaxIterations {
        p := Latch(LimitReason());
      }
    }

    /** How a pass ends when nothing fails: an answer with calls goes on, unless no calls were allowed any
        more; a complete answer without calls ends the turn. */
    predicate GoesOn(calls: seq<Call>, truncated: bool, latched: bool, p: Pass) {
      && (calls != [] && !latched ==> p == Next)
      && (calls == [] && !truncated && options.maxToolCalls >= 0 ==> p.End?)
      && (p.End? ==> calls == [])
      && (p.Throw? ==> latched && calls != [])
    }

    /** From the model's answer on. */
    method UseAnswer(calls: seq<Call>, truncated: bool, iteration: nat) returns (p: Pass)
      requires Settled() && (finalResponseOnly ==> toolsByName == map[])
      modifies this, execution
      ensures Ends(p) && Advanced(0)
      // Calls beyond the budget or in a cycle are neither paid for nor tried; they set the latch.
      ensures old(toolCalls) + |calls| > options.maxToolCalls
              || (calls != [] && !old(finalResponseOnly) && environment.cycle(old(tick))) ==>
                attempts == old(attempts) && toolCalls == old(toolCalls) && !p.End? && (p.Next? ==> finalResponseOnly)
      // An answer without calls ends the turn unless it was cut off and may be continued.
      ensures calls == [] && old(toolCalls) <= options.maxToolCalls ==>
                (p.End? ==> !truncated || old(outputContinuations) >= MAX_OUTPUT_CONTINUATIONS)
                && (p.Next? ==> truncated && outputContinuations == old(outputContinuations) + 1 <= MAX_OUTPUT_CONTINUATIONS)
                && (p.End? ==> p.reason == if old(finalResponseReason).Some? then old(finalResponseReason).value
                                           else ModelStop(truncated))
      ensures Smooth(environment) ==> GoesOn(calls, truncated, old(finalResponseOnly), p)
      ensures calls != [] && !environment.cycle(old(tick)) && environment.guard(old(tick)) == Continue
              && old(toolCalls) + |calls| <= options.maxToolCalls && environment.commit(old(tick) + 1).Some? ==>
                p.Throw? && tick == old(tick) + 2 && OwedNow() == Some(Ids(calls))
    {
      hide ExecutionsSound, Owed, Fits, IterationBudget.CreatePolicy, IterationBudget.WellFormed;
      var cycleDetected := !finalResponseOnly && calls != [] && environment.cycle(tick);
      var exceeded := toolCalls + |calls| > options.maxToolCalls;
      var decision := environment.guard(tick);
      tick := tick + 1;
      var overBudget :=
        if calls != [] && decision.Finalize? && decision.reason.ResourceBudget? then Some(decision.reason)
        else if exceeded then Some(ResourceBudget("tool_call_budget"))
        else None;
      if calls != [] && !cycleDetected && overBudget.None? {
        p := RunTools(calls);
        return;
      }
      p := Conclude(if cycleDetected then Some(LoopDetected) else overBudget, truncated);
    }

    /** An answer whose calls are dropped sets the latch; one without calls is continued or ends the turn. */
    method Conclude(latchReason: Option<Reason>, truncated: bool) returns (p: Pass)
      requires Settled()
      modifies `messages, `tick, `asked, `finalResponseOnly, `finalResponseReason, `outputContinuations
      ensures Ends(p) && Advanced(0)
      ensures latchReason.Some? ==>
                !p.End? && (p.Next? ==> finalResponseOnly && finalResponseReason == latchReason && outputContinuations == 0)
      ensures latchReason.None? ==>
                && finalResponseReason == old(finalResponseReason)
                && (p.Next? ==> truncated && outputContinuations == old(outputContinuations) + 1 <= MAX_OUTPUT_CONTINUATIONS)
                && (p.End? ==> !truncated || old(outputContinuations) >= MAX_OUTPUT_CONTINUATIONS)
                && (p.End? ==> p.reason == if finalResponseReason.Some? then finalResponseReason.value else ModelStop(truncated))
      ensures Smooth(environment) ==> !p.Throw?
    {
      hide ExecutionsSound, Owed, Fits, IterationBudget.CreatePolicy, IterationBudget.WellFormed;
      p := Note(AssistantMessage([], false));
      if p.Throw? {
        return;
      }
      if latchReason.Some? {
        p := Latch(latchReason.value);
        outputContinuations := 0;
      } else if truncated && outputContinuations < MAX_OUTPUT_CONTINUATIONS {
        outputContinuations := outputContinuations + 1;
        p := Note(UserMessage);
      } else {
        p := End(if finalResponseReason.Some? then finalResponseReason.value else ModelStop(truncated));
      }
    }

    /** The answer is recorded and its calls are paid for. */
    method AcceptCalls(calls: seq<Call>) returns (e: Option<Failure>)
      requires Settled() && toolCalls + |calls| <= options.maxToolCalls
      modifies `messages, `tick, `asked, `toolCalls
      ensures e == environment.commit(old(tick)) && tick == old(tick) + 1
      ensures messages == old(messages) + [AssistantMessage(calls, false)] && OwedNow() == Some(Ids(calls))
      ensures e.Some? ==> Stopped() && toolCalls == old(toolCalls)
      ensures e.None? ==> Valid() && Unbroken(environment, asked) && toolCalls == old(toolCalls) + |calls| >= |executions| + |calls|
    {
      hide ExecutionsSound, Owed, IterationBudget.CreatePolicy, IterationBudget.WellFormed;
      e := Append(AssistantMessage(calls, false));
      if e.None? {
        toolCalls := toolCalls + |calls|;
      }
    }

    /** The answer's calls are within the budget: they are recorded, paid for and executed. */
    method RunTools(calls: seq<Call>) returns (p: Pass)
      requires Settled() && (finalResponseOnly ==> toolsByName == map[])
      requires toolCalls + |calls| <= options.maxToolCalls
      modifies this, execution
      ensures Ends(p) && Advanced(0)
      ensures old(messages) + [AssistantMessage(calls, false)] <= messages
      ensures old(finalResponseOnly) ==> p.Throw?
      ensures !p.Throw? ==> Tried(calls, attempts, |old(attempts)|) && toolCalls >= old(toolCalls) + |calls|
      ensures environment.commit(old(tick)).Some? ==> p.Throw? && tick == old(tick) + 1 && OwedNow() == Some(Ids(calls))
      ensures Smooth(environment) && !old(finalResponseOnly) ==> p == Next
      ensures Smooth(environment) && old(finalResponseOnly) ==>
                p == Throw(TurnLimit(match old(finalResponseReason) case Some(reason) => reason case None => NoProgress))
      // Two more tool steps from the first result without progress on, then counted down.
      ensures !p.Throw? ==>
                recoveryToolStepsRemaining == match old(recoveryToolStepsRemaining)
                                              case Some(n) => Some(n - 1)
                                              case None => if SaysNoProgress(messages[|old(messages)| + 1..]) then Some(2) else None
      ensures Smooth(environment) ==> !p.End?
    {
      hide ExecutionsSound, Owed, Fits, Smooth, Breaks, Unbroken, LeftOwed, BrokeLast, SaysNoProgress, SaysProgress, TriedAt;
      hide IterationBudget.CreatePolicy, IterationBudget.WellFormed;
      SmoothAt(environment, tick);
      var e := AcceptCalls(calls);
      if e.Some? {
        return Throw(e.value);
      }
      var noProgress, madeProgress;
      e, noProgress, madeProgress := ExecuteToolCalls(calls);
      if e.Some? {
        return Throw(e.value);
      }
      if finalResponseOnly {
        SettledIsStopped();
        return Throw(TurnLimit(if finalResponseReason.Some? then finalResponseReason.value else NoProgress));
      }
      ghost var told := messages;
      p := EndPass(noProgress);
      NotesTellNothing(told, messages, |old(messages)| + 1);
    }

    /** After the tools: recovery from calls without progress, and the guards. */
    method EndPass(noProgress: bool) returns (p: Pass)
      requires Settled() && !finalResponseOnly
      modifies `messages, `tick, `asked, `finalResponseOnly, `finalResponseReason, `outputContinuations, `recoveryToolStepsRemaining, `iterationBudget
      ensures Ends(p) && Advanced(0)
      ensures OnlyNotes(old(messages), messages)
      ensures p.Next? ==> outputContinuations == 0
      ensures Smooth(environment) ==> p == Next
      ensures recoveryToolStepsRemaining ==
              if old(recoveryToolStepsRemaining).Some? then Some(old(recoveryToolStepsRemaining).value - 1)
              else if noProgress then Some(NO_PROGRESS_RECOVERY_TOOL_STEPS) else None
      // Recovery used up sets the latch; else the guards decide.
      ensures old(recoveryToolStepsRemaining).Some? && old(recoveryToolStepsRemaining).value <= 1 ==>
                !p.End? && finalResponseOnly && finalResponseReason == Some(NoProgress)
      ensures !(old(recoveryToolStepsRemaining).Some? && old(recoveryToolStepsRemaining).value <= 1) ==>
                match environment.guard(old(tick))
                case ExtendBudget => p == Next && !finalResponseOnly && iterationBudget == IterationBudget.Extend(old(iterationBudget))
                case Stop(reason) => p == End(reason)
                case Finalize(reason) =>
                  if options.allowPartialOnMaxIterations && (reason == MaxIterations || reason == AbsoluteLimit) then p == End(reason)
                  else !p.End? && finalResponseOnly && finalResponseReason == Some(reason)
                case Continue => p == Next && !finalResponseOnly && iterationBudget == old(iterationBudget)
    {
      hide ExecutionsSound, Owed, Fits, Smooth, Breaks, Unbroken, LeftOwed, BrokeLast, IterationBudget.CreatePolicy;
      SmoothAt(environment, tick);
      p := Recover(noProgress);
      if p.Throw? {
        return;
      }
      if !finalResponseOnly {
        p := GuardsAfter();
        if !p.Next? {
          return;
        }
      }
      p := Next;
      outputContinuations := 0;
    }

    /** After calls without progress two more tool steps are left; used up, the latch is set. */
    method Recover(noProgress: bool) returns (p: Pass)
      requires Settled() && !finalResponseOnly
      modifies `messages, `tick, `asked, `finalResponseOnly, `finalResponseReason, `recoveryToolStepsRemaining
      ensures Ends(p) && !p.End? && OnlyNotes(old(messages), messages)
      ensures recoveryToolStepsRemaining ==
              if old(recoveryToolStepsRemaining).Some? then Some(old(recoveryToolStepsRemaining).value - 1)
              else if noProgress then Some(NO_PROGRESS_RECOVERY_TOOL_STEPS) else None
      ensures if old(recoveryToolStepsRemaining).Some? && old(recoveryToolStepsRemaining).value <= 1 then
                finalResponseOnly && finalResponseReason == Some(NoProgress) && (p.Next? <==> environment.commit(old(tick)).None?)
              else p == Next && tick == old(tick) && !finalResponseOnly && finalResponseReason == old(finalResponseReason)
    {
      hide ExecutionsSound, Owed, Fits, IterationBudget.CreatePolicy, IterationBudget.WellFormed;
      p := Next;
      if noProgress && recoveryToolStepsRemaining.None? {
        recoveryToolStepsRemaining := Some(NO_PROGRESS_RECOVERY_TOOL_STEPS);
      } else if recoveryToolStepsRemaining.Some? {
        recoveryToolStepsRemaining := Some(recoveryToolStepsRemaining.value - 1);
        if recoveryToolStepsRemaining.value <= 0 {
          p := Latch(NoProgress);
        }
      }
    }

    /** The guards after the tools: they may extend the budget, set the latch or end the turn. */
    method GuardsAfter() returns (p: Pass)
      requires Settled() && !finalResponseOnly
      modifies `messages, `tick, `asked, `finalResponseOnly, `finalResponseReason, `iterationBudget
      ensures Ends(p) && Advanced(0) && OnlyNotes(old(messages), messages)
      ensures match environment.guard(old(tick))
              case ExtendBudget => p == Next && !finalResponseOnly && iterationBudget == IterationBudget.Extend(old(iterationBudget))
              case Stop(reason) => p == End(reason)
              case Finalize(reason) =>
                if options.allowPartialOnMaxIterations && (reason == MaxIterations || reason == AbsoluteLimit) then p == End(reason)
                else !p.End? && finalResponseOnly && finalResponseReason == Some(reason)
              case Continue => p == Next && !finalResponseOnly && iterationBudget == old(iterationBudget)
    {
      hide ExecutionsSound, Owed, Fits, IterationBudget.CreatePolicy;
      var decision := environment.guard(tick);
      tick := tick + 1;
      p := Next;
      match decision
      case ExtendBudget => iterationBudget := IterationBudget.Extend(iterationBudget);
      case Finalize(reason) =>
        if options.allowPartialOnMaxIterations && (reason == MaxIterations || reason == AbsoluteLimit) {
          return End(reason);
        }
        p := Latch(reason);
      case Stop(reason) => return End(reason);
      case Continue =>
    }

    /** One question to the model, and what follows from its answer. */
    method AskModel(iteration: nat) returns (p: Pass)
      requires Settled() && (finalResponseOnly ==> toolsByName == map[])
      modifies this, execution
      ensures Ends(p) && Advanced(1) && answers == old(answers) + [environment.model(old(tick))]
      ensures Smooth(environment) ==> AnswerGoesOn(old(finalResponseOnly), p)
      ensures environment.model(old(tick)).Stepped? ==>
                var calls, t := environment.model(old(tick)).calls, old(tick) + 1;
                calls != [] && !environment.cycle(t) && environment.guard(t) == Continue
                && old(toolCalls) + |calls| <= options.maxToolCalls && environment.commit(t + 1).Some? ==>
                  p.Throw? && tick == t + 2 && OwedNow() == Some(Ids(calls))
    {
      hide ExecutionsSound, Owed, Fits, Breaks, Unbroken, LeftOwed, BrokeLast, IterationBudget.CreatePolicy,
           IterationBudget.WellFormed;
      var answer := environment.model(tick);
      tick := tick + 1;
      answers := answers + [answer];
      match answer
      case ModelFailed(failure) => p := ModelFails(failure, iteration);
      case Stepped(calls, truncated) => p := UseAnswer(calls, truncated, iteration);
    }

    /** The same of the last answer. */
    ghost predicate AnswerGoesOn(latched: bool, p: Pass)
      reads this
    {
      && answers != [] && answers[|answers| - 1].Stepped?
      && GoesOn(answers[|answers| - 1].calls, answers[|answers| - 1].truncated, latched, p)
    }

    /** One pass of the loop; it goes on only after an answer of the model. */
    method Iterate(iteration: nat) returns (p: Pass)
      requires Settled()
      modifies this, execution
      ensures Ends(p) && Advanced(1) && (p.Next? ==> |answers| == |old(answers)| + 1)
      ensures Smooth(environment) ==> |answers| == |old(answers)| + 1 && AnswerGoesOn(old(finalResponseOnly), p)
      ensures !old(finalResponseOnly) && AnswerLost(environment, options, old(tick), old(toolCalls)) ==>
                p.Throw? && tick == old(tick) + 6 && environment.model(old(tick) + 3).Stepped?
                && OwedNow() == Some(Ids(environment.model(old(tick) + 3).calls))
    {
      hide Settled, Stopped, Valid, OwedNow, GoesOn, AnswerGoesOn;
      hide ExecutionsSound, Owed, Fits, Breaks, Unbroken, LeftOwed, BrokeLast, Smooth, IterationBudget.CreatePolicy,
           IterationBudget.WellFormed;
      SmoothAt(environment, tick);
      p := GuardStep();
      if !p.Next? {
        return;
      }
      SmoothAt(environment, tick + 1);
      p := PrepareStep();
      if !p.Next? {
        return;
      }
      p := AskModel(iteration);
    }

    /** A pass whose end is noted. */
    method RunPass(iteration: nat) returns (p: Pass)
      requires Settled()
      modifies this, execution
      ensures Ends(p) && passes == old(passes) + [p]
      ensures (old(finalResponseOnly) ==> finalResponseOnly) && old(iterationBudget).currentLimit <= iterationBudget.currentLimit
      ensures |answers| <= |old(answers)| + 1 && (p.Next? ==> |answers| == |old(answers)| + 1)
      ensures Smooth(environment) && old(FollowsModel()) ==> FollowsModel()
      ensures !old(finalResponseOnly) && AnswerLost(environment, options, old(tick), old(toolCalls)) ==>
                p.Throw? && tick == old(tick) + 6 && environment.model(old(tick) + 3).Stepped?
                && OwedNow() == Some(Ids(environment.model(old(tick) + 3).calls))
    {
      hide ExecutionsSound, Owed, Fits, Breaks, Unbroken, LeftOwed, BrokeLast, AnswerLost, Smooth, IterationBudget.CreatePolicy,
           IterationBudget.WellFormed;
      p := Iterate(iteration);
      passes := passes + [p];
    }

    // ---------- the turn ----------

    /** handleTurnError. */
    method HandleTurnError(failure: Failure) returns (o: Outcome)
      ensures o == if Aborted() || failure == AbortError then Cancelled else Failed(failure)
    {
      o := if Aborted() || failure == AbortError then Cancelled else Failed(failure);
    }

    lemma EndsExactly(p: Pass)
      requires Ends(p)
      ensures history <= messages && Owed(messages[|history|..]) == Some(LeftOwed(environment, asked))
      ensures LeftOwed(environment, asked) != [] <==> exists q :: q in asked && Breaks(environment, q) && q.owed != []
      ensures forall q | q in asked :: q.at < tick
    {
      hide Owed, Breaks, ExecutionsSound, IterationBudget.CreatePolicy, IterationBudget.WellFormed;
      LeftOwedExactly(environment, asked);
    }

    /** Every pass but the last went on; the last one decides the outcome. A turn that gives up has made
        as many passes as its limit allows by then, three more once only a final answer was left. */
    ghost predicate Concluded(o: Outcome)
      reads this
    {
      && passes != [] && (forall i | 0 <= i < |passes| - 1 :: passes[i] == Next)
      && match passes[|passes| - 1]
         case End(reason) => o == Returned(reason)
         case Throw(failure) => o == if Aborted() || failure == AbortError then Cancelled else Failed(failure)
         case Next =>
           && |passes| == |answers| == (if finalResponseOnly then iterationBudget.currentLimit + 3 else iterationBudget.currentLimit)
           && o == GivesUp()
    }

    /** A turn out of passes names the limit that stopped it. */
    ghost function GivesUp(): Outcome
      reads this
    {
      var reason := match iterationBudget.limitReason case AbsoluteLimit => AbsoluteLimit case MaxIterations => MaxIterations;
      if options.allowPartialOnMaxIterations then Returned(reason)
      else if Aborted() then Cancelled else Failed(TurnLimit(reason))
    }

    /** Nothing failed: pass by pass the turn went on, or ended, as the model's answer says. */
    ghost predicate FollowsModel()
      reads this
    {
      && |answers| == |passes|
      && forall i | 0 <= i < |passes| ::
           && answers[i].Stepped?
           && (passes[i].End? ==> answers[i].calls == [])
           && (answers[i].calls == [] && !answers[i].truncated && options.maxToolCalls >= 0 ==> passes[i].End?)
           && (passes[i].Throw? ==> finalResponseOnly && answers[i].calls != [])
    }

    lemma NoPassesYet()
      ensures passes == [] && answers == [] ==> FollowsModel()
    {
    }

    /** The bounds of a turn, for every environment. */
    method RunAgentTurn() returns (o: Outcome)
      requires Valid() && messages == history && !finalResponseOnly && asked == [] && tick == 0
      requires toolCalls == 0 && executions == [] && answers == [] && passes == []
      modifies this, execution
      // No call id is executed twice, repeats and polls keep to their limits, nothing runs after the latch.
      ensures ExecutionsSound(executions, attempts, options.maxIdenticalToolCalls)
      ensures |executions| <= toolCalls <= Max(0, options.maxToolCalls)
      ensures |answers| <= IterationBudget.CreatePolicy(options.budget).runLimit + 3
      // When it ends and how.
      ensures if environment.commit(0).Some? then passes == [] && !o.Returned? else Concluded(o)
      ensures Smooth(environment) ==> FollowsModel()
      // A first answer that cannot be committed, with an abort by then, leaves all its calls owed.
      ensures environment.commit(0).None? && AnswerLost(environment, options, 1, 0) && AbortedAt(environment, 7) ==>
                o == Cancelled && history <= messages && Owed(messages[|history|..]) == Some(Ids(environment.model(4).calls))
      // Every call has its result, in call order, also after a cancellation, but exactly those owed when
      // a message of the turn could not be committed or a permission check failed uncancelled.
      ensures history <= messages && Owed(messages[|history|..]) == Some(LeftOwed(environment, asked))
      ensures LeftOwed(environment, asked) != [] <==> exists q :: q in asked && Breaks(environment, q) && q.owed != []
      ensures (forall q | q in asked :: q.at < tick) && (o.Returned? ==> Unbroken(environment, asked))
    {
      hide ExecutionsSound, Owed, Fits, Breaks, LeftOwed, BrokeLast, AnswerLost, Smooth, FollowsModel, GivesUp,
           IterationBudget.CreatePolicy;
      assert messages[|history|..] == [];
      OwesNothing();
      var p := Note(UserMessage);
      NoPassesYet();
      var iteration := 0;
      while p.Next? && (iteration < iterationBudget.currentLimit
                        || (finalResponseOnly && iteration <= iterationBudget.currentLimit + MAX_OUTPUT_CONTINUATIONS))
        invariant Ends(p) && |answers| <= iteration == |passes| <= iterationBudget.runLimit + 3
        invariant IterationBudget.WellFormed(iterationBudget) && iterationBudget.runLimit == old(iterationBudget.runLimit)
        invariant iteration == 0 ==> (p.Next? <==> environment.commit(0).None?) && !p.End?
        invariant iteration > 0 ==> environment.commit(0).None? && passes[iteration - 1] == p
                                    && iteration <= iterationBudget.currentLimit + if finalResponseOnly then 3 else 0
        invariant (forall i | 0 <= i < iteration - 1 :: passes[i] == Next) && (p.Next? ==> |answers| == iteration)
        invariant Smooth(environment) ==> FollowsModel()
        invariant iteration == 0 ==> tick == 1 && toolCalls == 0 && !finalResponseOnly
        invariant environment.commit(0).None? && AnswerLost(environment, options, 1, 0) ==>
                    if iteration == 0 then p.Next?
                    else p.Throw? && tick == 7 && environment.model(4).Stepped? && OwedNow() == Some(Ids(environment.model(4).calls))
        decreases iterationBudget.runLimit + 3 - iteration
      {
        p := RunPass(iteration);
        iteration := iteration + 1;
      }
      EndsExactly(p);
      o := EndTurn(p);
    }

    /** How the turn ends once the loop is left. */
    method EndTurn(p: Pass) returns (o: Outcome)
      ensures match p
              case End(reason) => o == Returned(reason)
              case Throw(failure) => o == if Aborted() || failure == AbortError then Cancelled else Failed(failure)
              case Next => o == GivesUp()
    {
      match p
      case End(reason) => o := Returned(reason);
      case Throw(failure) => o := HandleTurnError(failure);
      case Next =>
        if options.allowPartialOnMaxIterations {
          o := Returned(LimitReason());
        } else {
          o := HandleTurnError(TurnLimit(LimitReason()));
        }
    }
  }

  const LOST_CALL := Call("c", "terminal", "{}")

  /** A store that fails from the sixth question on, and an abort at the same time. */
  function Failing(): Environment {
    Environment(Some(6), t => if t >= 6 then Some(OtherError("store")) else None, t => Continue, t => map[], t => false, t => None,
                t => Stepped([LOST_CALL], false), t => false, t => 0, t => Granted, t => [], t => Ended(true, ""),
                t => false, t => false)
  }

  /** A turn that is cancelled with a call that never gets a result. */
  method CancelledTurnOwes(options: Options) returns (t: Turn, o: Outcome)
    requires options.maxToolCalls >= 1
    ensures o == Cancelled && t.messages != [] && Owed(t.messages) == Some(["c"])
    ensures Breaks(t.environment, Committed(6, false, ["c"]))
  {
    hide Owed, ExecutionsSound;
    t := new Turn(Failing(), options, []);
    assert t.messages[|t.history|..] == [];
    o := t.RunAgentTurn();
    assert t.messages[|t.history|..] == t.messages;
    assert Ids([LOST_CALL]) == ["c"];
    OwesNothing();
  }

  lemma OwesNothing()
    ensures Owed([]) == Some([])
  {
  }
}
