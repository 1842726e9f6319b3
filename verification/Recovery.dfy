/** The server state object of packages/app-service/src/persistence.ts and the restart
    reconciliation of packages/app-service/src/recovery-coordinator.ts under its default policy,
    interrupting what was pending. The runtime's answers are parameters. */
module Recovery {
  import opened Wrappers
  import opened ServerState

  class MemoryServerState {
    var sessions: map<string, Session>
    var runs: map<string, RunRecord>
    var approvals: map<string, Approval>

    function State(): Store
      reads this
    {
      Store(sessions, runs, approvals)
    }

    constructor ()
      ensures State() == EMPTY
    {
      sessions, runs, approvals := map[], map[], map[];
    }

    method Bump(id: string) returns (o: Outcome)
      modifies `sessions
      ensures (State(), o) == Bumped(old(State()), id)
    {
      if id !in sessions {
        return Rejected(SessionMissing);
      }
      sessions := sessions[id := sessions[id].(revision := sessions[id].revision + 1)];
      o := Ok;
    }

    method CreateCreatingSession(id: string) returns (o: Outcome)
      modifies `sessions
      ensures (State(), o) == Step(old(State()), CreateCreating(id))
    {
      if id in sessions {
        return Rejected(SessionExists);
      }
      sessions := sessions[id := Session(false, 0)];
      o := Ok;
    }

    method EnsureActiveSession(id: string) returns (o: Outcome)
      modifies `sessions
      ensures (State(), o) == Step(old(State()), EnsureActive(id))
    {
      if id !in sessions {
        sessions := sessions[id := Session(true, 1)];
      }
      o := Ok;
    }

    method ActivateSession(id: string) returns (o: Outcome)
      modifies `sessions
      ensures (State(), o) == Step(old(State()), Activate(id))
    {
      if id !in sessions {
        return Rejected(SessionMissing);
      }
      if sessions[id].active {
        return Ok;
      }
      sessions := sessions[id := sessions[id].(active := true)];
      o := Bump(id);
    }

    method PatchSession(id: string, expected: Option<nat>) returns (o: Outcome)
      modifies `sessions
      ensures (State(), o) == Step(old(State()), Patch(id, expected))
    {
      if id !in sessions {
        return Rejected(SessionMissing);
      }
      if expected.Some? && expected.value != sessions[id].revision {
        return Rejected(RevisionConflict);
      }
      o := Bump(id);
    }

    method DeleteCreatingSession(id: string) returns (o: Outcome)
      modifies `sessions
      ensures (State(), o) == Step(old(State()), DeleteCreating(id))
    {
      if id in sessions && !sessions[id].active {
        sessions := sessions - {id};
      }
      o := Ok;
    }

    method CreateAcceptedRun(id: string, sessionId: string, laneId: string, now: int) returns (o: Outcome)
      modifies `sessions, `runs
      ensures (State(), o) == Step(old(State()), CreateAccepted(id, sessionId, laneId, now))
    {
      if id in runs {
        return Rejected(RunExists);
      }
      if sessionId !in sessions {
        return Rejected(SessionMissing);
      }
      runs := runs[id := RunRecord(sessionId, laneId, Accepted, 1, None, None, now, "")];
      o := Bump(sessionId);
    }

    method TransitionRun(id: string, target: RunStatus, detail: string, expected: Option<nat>, now: int) returns (o: Outcome)
      modifies `sessions, `runs
      ensures (State(), o) == Step(old(State()), Transition(id, target, detail, expected, now))
    {
      if id !in runs {
        return Rejected(RunNotFound);
      }
      var record := runs[id];
      if record.status == target {
        return Ok;
      }
      if !ActiveStatus(record.status) || !AllowedFrom(record.status, target) {
        return Rejected(RunConflict);
      }
      if expected.Some? && expected.value != record.version {
        return Rejected(RunConflict);
      }
      record := record.(detail := detail, status := target, version := record.version + 1, updatedAt := now);
      if target == Running {
        record := record.(startedAt := Some(now));
      }
      if !ActiveStatus(target) {
        record := record.(completedAt := Some(now));
      }
      runs := runs[id := record];
      o := Bump(record.sessionId);
    }

    method CreatePendingApproval(id: string, sessionId: string, owner: Owner, hash: string) returns (o: Outcome)
      modifies `sessions, `approvals
      ensures (State(), o) == Step(old(State()), CreatePending(id, sessionId, owner, hash))
    {
      if id in approvals {
        var existing := approvals[id];
        if existing.requestHash == hash && existing.sessionId == sessionId && existing.owner == owner {
          return Ok;
        }
        return Rejected(ApprovalConflict);
      }
      if sessionId !in sessions {
        return Rejected(SessionMissing);
      }
      if owner.OwnedByRun? {
        if owner.runId !in runs || runs[owner.runId].sessionId != sessionId || runs[owner.runId].laneId != owner.laneId {
          return Rejected(RunNotFound);
        }
      }
      approvals := approvals[id := Approval(sessionId, owner, hash, Pending, None, None, 1)];
      o := Bump(sessionId);
    }

    method ResolveApproval(id: string, decision: Decision, expected: Option<nat>, now: int) returns (o: Outcome)
      modifies `sessions, `approvals
      ensures (State(), o) == Step(old(State()), Resolve(id, decision, expected, now))
    {
      if id !in approvals {
        return Rejected(ApprovalNotFound);
      }
      var record := approvals[id];
      var target := if decision == Allow then Allowed else Denied;
      if record.status == target && record.decision == Some(decision) {
        return Ok;
      }
      if record.status != Pending {
        return Rejected(ApprovalResolved);
      }
      if expected.Some? && expected.value != record.version {
        return Rejected(ApprovalVersionConflict);
      }
      record := record.(status := target, decision := Some(decision), resolvedAt := Some(now), version := record.version + 1);
      approvals := approvals[id := record];
      o := Bump(record.sessionId);
    }

    method InterruptApproval(id: string, expected: Option<nat>, now: int) returns (o: Outcome)
      modifies `sessions, `approvals
      ensures (State(), o) == Step(old(State()), Interrupt(id, expected, now))
    {
      if id !in approvals {
        return Rejected(ApprovalNotFound);
      }
      var record := approvals[id];
      if record.status != Pending {
        return Ok;
      }
      if expected.Some? && expected.value != record.version {
        return Rejected(ApprovalVersionConflict);
      }
      record := record.(status := ApprovalInterrupted, resolvedAt := Some(now), version := record.version + 1);
      approvals := approvals[id := record];
      o := Bump(record.sessionId);
    }
  }

  // ---------- the runtime's answers ----------

  datatype ResultStatus = ResultCompleted | ResultCancelled | ResultFailed

  /** recovered: the error is runtime_interrupted with a restart reason in its detail. */
  datatype RunResult = RunResult(status: ResultStatus, recovered: bool, detail: string)

  datatype Inspected = Inspected(sessionId: string, laneId: string, result: Option<RunResult>)

  /** What the runtime answers after recovering its interrupted operations. */
  datatype Runtime = Runtime(sessions: set<string>, inspect: map<string, Inspected>, ready: bool, lanesIdle: bool)

  datatype RecoveryError = StoreError(error: Error) | RecoveryConflict | IdentityConflict | NonTerminal | Incomplete

  datatype Recovered = Reconciled | Unreconciled(error: RecoveryError)

  function ResultTarget(r: RunResult): RunStatus {
    if r.recovered then Interrupted
    else match r.status
         case ResultCompleted => Completed
         case ResultCancelled => Cancelled
         case ResultFailed => Failed
  }

  function ResultDetail(r: RunResult): string {
    if r.recovered then "runtime_interrupted" else r.detail
  }

  /** The terminal status the runtime's result dictates for a run. */
  function Dictated(runtime: Runtime, id: string): RunStatus {
    if id !in runtime.inspect || runtime.inspect[id].result.None? then Interrupted
    else ResultTarget(runtime.inspect[id].result.value)
  }

  /** The error code or result stored with it. */
  function DictatedDetail(runtime: Runtime, id: string, status: RunStatus): string {
    if id !in runtime.inspect || runtime.inspect[id].result.None? then
      if status == Accepted then "run_start_not_committed" else "runtime_interrupted"
    else ResultDetail(runtime.inspect[id].result.value)
  }

  /** What becomes of a run: terminal records stay, an accepted run with a result starts first. */
  function SettledRun(runtime: Runtime, id: string, r: RunRecord, now: int): RunRecord {
    if !ActiveStatus(r.status) then r
    else
      var started := if r.status == Accepted && id in runtime.inspect then Advanced(r, Starting, "", now) else r;
      Advanced(started, Dictated(runtime, id), DictatedDetail(runtime, id, r.status), now)
  }

  function SettledApproval(a: Approval, now: int): Approval {
    if a.status != Pending then a
    else a.(status := ApprovalInterrupted, resolvedAt := Some(now), version := a.version + 1)
  }

  /** Creating sessions the runtime knows become active, others go; unknown runtime sessions appear. */
  function SettledSessions(sessions: map<string, Session>, known: set<string>): map<string, Session> {
    map k | k in sessions.Keys + known && (k in known || sessions[k].active) ::
      if k !in sessions then Session(true, 1)
      else if sessions[k].active then sessions[k]
      else Session(true, sessions[k].revision + 1)
  }

  ghost predicate Answerable(runtime: Runtime, id: string, r: RunRecord) {
    id in runtime.inspect ==>
      && runtime.inspect[id].sessionId == r.sessionId && runtime.inspect[id].laneId == r.laneId
      && runtime.inspect[id].result.Some?
  }

  ghost predicate ApprovalsOwned(approvals: map<string, Approval>, sessions: map<string, Session>) {
    forall a | a in approvals && approvals[a].status == Pending :: approvals[a].sessionId in sessions
  }

  ghost predicate RunsAnswered(runs: map<string, RunRecord>, runtime: Runtime, sessions: map<string, Session>) {
    forall r | r in runs && ActiveStatus(runs[r].status) :: runs[r].sessionId in sessions && Answerable(runtime, r, runs[r])
  }

  /** Exactly when reconciliation succeeds on a store nobody else is writing. */
  ghost predicate Reconcilable(s: Store, runtime: Runtime) {
    var sessions := SettledSessions(s.sessions, runtime.sessions);
    runtime.ready && runtime.lanesIdle && ApprovalsOwned(s.approvals, sessions) && RunsAnswered(s.runs, runtime, sessions)
  }

  function SettledRuns(runs: map<string, RunRecord>, runtime: Runtime, now: int): map<string, RunRecord> {
    map r | r in runs :: SettledRun(runtime, r, runs[r], now)
  }

  function SettledApprovals(approvals: map<string, Approval>, now: int): map<string, Approval> {
    map a | a in approvals :: SettledApproval(approvals[a], now)
  }

  /** Sessions after some of their records changed: only revisions grew. */
  ghost predicate OnlyBumped(before: map<string, Session>, after: map<string, Session>) {
    && after.Keys == before.Keys
    && forall k | k in before :: after[k].active == before[k].active && before[k].revision <= after[k].revision
  }

  ghost predicate NoPending(approvals: map<string, Approval>) {
    forall a | a in approvals :: approvals[a].status != Pending
  }

  ghost predicate NoActive(runs: map<string, RunRecord>) {
    forall r | r in runs :: !ActiveStatus(runs[r].status)
  }

  /** Nothing is left to reconcile. */
  ghost predicate Quiet(s: Store, runtime: Runtime) {
    && NoPending(s.approvals) && NoActive(s.runs)
    && (forall k | k in s.sessions :: s.sessions[k].active) && runtime.sessions <= s.sessions.Keys
  }

  // ---------- the coordinator ----------

  /** Creating sessions still to be visited are untouched. */
  function PartlySettled(sessions: map<string, Session>, known: set<string>, todo: set<string>): map<string, Session> {
    map k | k in sessions && (k in todo || k in known || sessions[k].active) ::
      if k in todo || sessions[k].active then sessions[k] else Session(true, sessions[k].revision + 1)
  }

  method SettleSession(store: MemoryServerState, runtime: Runtime, id: string)
    requires id in store.sessions
    modifies store`sessions
    ensures store.sessions ==
            if old(store.sessions)[id].active then old(store.sessions)
            else if id in runtime.sessions then old(store.sessions)[id := Session(true, old(store.sessions)[id].revision + 1)]
            else old(store.sessions) - {id}
  {
    if !store.sessions[id].active {
      if id in runtime.sessions {
        var o := store.ActivateSession(id);
      } else {
        var o := store.DeleteCreatingSession(id);
      }
    }
  }

  lemma SettleOne(before: map<string, Session>, known: set<string>, todo: set<string>, id: string)
    requires todo <= before.Keys && id in todo
    ensures PartlySettled(before, known, todo).Keys >= todo
    ensures var s := PartlySettled(before, known, todo);
            PartlySettled(before, known, todo - {id}) ==
            if s[id].active then s
            else if id in known then s[id := Session(true, s[id].revision + 1)]
            else s - {id}
  {
  }

  /** The sessions found in the store. */
  method SettleCreating(store: MemoryServerState, runtime: Runtime)
    modifies store`sessions
    ensures store.sessions == PartlySettled(old(store.sessions), runtime.sessions, {})
  {
    hide PartlySettled;
    var before := store.sessions;
    var todo := before.Keys;
    NothingSettled(before, runtime.sessions);
    while todo != {}
      invariant todo <= before.Keys
      invariant store.sessions == PartlySettled(before, runtime.sessions, todo)
      decreases |todo|
    {
      var id :| id in todo;
      SettleOne(before, runtime.sessions, todo, id);
      SettleSession(store, runtime, id);
      todo := todo - {id};
    }
  }

  lemma NothingSettled(before: map<string, Session>, known: set<string>)
    ensures PartlySettled(before, known, before.Keys) == before
  {
  }

  /** Sessions of the runtime the store still lacks appear. */
  function WithKnown(sessions: map<string, Session>, known: set<string>): map<string, Session> {
    map k | k in sessions.Keys + known :: if k in sessions then sessions[k] else Session(true, 1)
  }

  ghost predicate AllActive(sessions: map<string, Session>) {
    forall k | k in sessions :: sessions[k].active
  }

  lemma AddOne(sessions: map<string, Session>, known: set<string>, todo: set<string>, id: string)
    requires AllActive(sessions) && todo <= known && id in todo
    ensures AllActive(WithKnown(sessions, known - todo))
    ensures var s := WithKnown(sessions, known - todo);
            WithKnown(sessions, known - (todo - {id})) == if id in s then s else s[id := Session(true, 1)]
  {
    assert known - (todo - {id}) == known - todo + {id};
  }

  lemma NoneAdded(sessions: map<string, Session>, known: set<string>)
    ensures WithKnown(sessions, known - known) == sessions
    ensures WithKnown(sessions, known - {}) == WithKnown(sessions, known)
  {
  }

  lemma SettledInTwoSteps(sessions: map<string, Session>, known: set<string>)
    ensures WithKnown(PartlySettled(sessions, known, {}), known) == SettledSessions(sessions, known)
    ensures AllActive(PartlySettled(sessions, known, {}))
  {
  }

  /** An active session of the store is left alone, a missing one appears. */
  method EnsureKnown(store: MemoryServerState, id: string)
    requires AllActive(store.sessions)
    modifies store`sessions
    ensures store.sessions == if id in old(store.sessions) then old(store.sessions) else old(store.sessions)[id := Session(true, 1)]
  {
    var o := store.EnsureActiveSession(id);
  }

  method ReconcileSessions(store: MemoryServerState, runtime: Runtime)
    modifies store`sessions
    ensures store.sessions == SettledSessions(old(store.sessions), runtime.sessions)
  {
    SettledInTwoSteps(store.sessions, runtime.sessions);
    SettleCreating(store, runtime);
    hide *;
    var before := store.sessions;
    NoneAdded(before, runtime.sessions);
    var todo := runtime.sessions;
    while todo != {}
      invariant todo <= runtime.sessions
      invariant store.sessions == WithKnown(before, runtime.sessions - todo)
      decreases |todo|
    {
      var id :| id in todo;
      AddOne(before, runtime.sessions, todo, id);
      EnsureKnown(store, id);
      todo := todo - {id};
    }
  }

  lemma BumpedOnly(s: Store, id: string)
    ensures var (t, o) := Bumped(s, id);
            && t.runs == s.runs && t.approvals == s.approvals && OnlyBumped(s.sessions, t.sessions)
            && (o == Ok <==> id in s.sessions) && (o == Ok || o == Rejected(SessionMissing))
  {
  }

  /** Interrupting a pending approval at the version just read. */
  lemma InterruptPending(s: Store, id: string, now: int)
    requires id in s.approvals && s.approvals[id].status == Pending
    ensures var (t, o) := Step(s, Interrupt(id, Some(s.approvals[id].version), now));
            && t.runs == s.runs && t.approvals == s.approvals[id := SettledApproval(s.approvals[id], now)]
            && OnlyBumped(s.sessions, t.sessions)
            && (o == Ok <==> s.approvals[id].sessionId in s.sessions)
  {
    hide Bumped;
    BumpedOnly(s.(approvals := s.approvals[id := SettledApproval(s.approvals[id], now)]), s.approvals[id].sessionId);
  }

  /** An allowed transition of an active run at the version just read meets no conflict. */
  lemma TransitionActive(s: Store, id: string, target: RunStatus, detail: string, now: int)
    requires id in s.runs && ActiveStatus(s.runs[id].status) && AllowedFrom(s.runs[id].status, target)
    ensures var (t, o) := Step(s, Transition(id, target, detail, Some(s.runs[id].version), now));
            && t.approvals == s.approvals && t.runs == s.runs[id := Advanced(s.runs[id], target, detail, now)]
            && OnlyBumped(s.sessions, t.sessions)
            && (o == Ok <==> s.runs[id].sessionId in s.sessions) && (o == Ok || o == Rejected(SessionMissing))
  {
    hide Bumped, Advanced;
    BumpedOnly(s.(runs := s.runs[id := Advanced(s.runs[id], target, detail, now)]), s.runs[id].sessionId);
  }

  function PartlyInterrupted(approvals: map<string, Approval>, todo: set<string>, now: int): map<string, Approval> {
    map a | a in approvals :: if a in todo then approvals[a] else SettledApproval(approvals[a], now)
  }

  lemma InterruptOne(approvals: map<string, Approval>, todo: set<string>, id: string, now: int)
    requires id in todo && todo <= approvals.Keys
    ensures PartlyInterrupted(approvals, todo, now)[id := SettledApproval(approvals[id], now)]
            == PartlyInterrupted(approvals, todo - {id}, now)
    ensures id in PartlyInterrupted(approvals, todo, now) && PartlyInterrupted(approvals, todo, now)[id] == approvals[id]
  {
  }

  lemma NothingInterrupted(approvals: map<string, Approval>, now: int)
    ensures PartlyInterrupted(approvals, (set a | a in approvals && approvals[a].status == Pending), now) == approvals
    ensures PartlyInterrupted(approvals, {}, now) == SettledApprovals(approvals, now)
  {
  }

  method ReconcileApprovals(store: MemoryServerState, now: int) returns (ok: bool)
    modifies store`sessions, store`approvals
    ensures ok <==> ApprovalsOwned(old(store.approvals), old(store.sessions))
    ensures ok ==> store.approvals == SettledApprovals(old(store.approvals), now)
    ensures ok ==> OnlyBumped(old(store.sessions), store.sessions)
    ensures NoPending(old(store.approvals)) ==> store.State() == old(store.State())
  {
    hide Step, SettledApproval, PartlyInterrupted;
    var before := store.approvals;
    var todo := set a | a in before && before[a].status == Pending;
    NothingInterrupted(before, now);
    while todo != {}
      invariant todo <= before.Keys && forall a | a in todo :: before[a].status == Pending
      invariant OnlyBumped(old(store.sessions), store.sessions)
      invariant store.approvals == PartlyInterrupted(before, todo, now)
      invariant forall a | a in before && before[a].status == Pending && a !in todo :: before[a].sessionId in store.sessions
      invariant NoPending(before) ==> todo == {} && store.State() == old(store.State())
      decreases |todo|
    {
      var id :| id in todo;
      InterruptOne(before, todo, id, now);
      InterruptPending(store.State(), id, now);
      var o := store.InterruptApproval(id, Some(before[id].version), now);
      if o.Rejected? {
        return false;
      }
      todo := todo - {id};
    }
    ok := true;
  }

  /** reconcileRun, on a run record read from the store. */
  method ReconcileRun(store: MemoryServerState, runtime: Runtime, id: string, now: int) returns (r: Recovered)
    requires id in store.runs && ActiveStatus(store.runs[id].status)
    modifies store`sessions, store`runs
    ensures r.Reconciled? <==> old(store.runs[id].sessionId in store.sessions) && Answerable(runtime, id, old(store.runs[id]))
    ensures r.Reconciled? ==>
              store.runs == old(store.runs)[id := SettledRun(runtime, id, old(store.runs[id]), now)]
    ensures r.Reconciled? ==> OnlyBumped(old(store.sessions), store.sessions)
    ensures r != Unreconciled(StoreError(RunConflict))
  {
    hide Step;
    var run := store.runs[id];
    if id in runtime.inspect && (runtime.inspect[id].sessionId != run.sessionId || runtime.inspect[id].laneId != run.laneId) {
      return Unreconciled(IdentityConflict);
    }
    if id in runtime.inspect && runtime.inspect[id].result.None? {
      return Unreconciled(NonTerminal);
    }
    if id !in runtime.inspect {
      var code := if run.status == Accepted then "run_start_not_committed" else "runtime_interrupted";
      TransitionActive(store.State(), id, Interrupted, code, now);
      var o := store.TransitionRun(id, Interrupted, code, Some(run.version), now);
      return if o == Ok then Reconciled else Unreconciled(StoreError(o.error));
    }
    if run.status == Accepted {
      TransitionActive(store.State(), id, Starting, "", now);
      var o := store.TransitionRun(id, Starting, "", Some(run.version), now);
      if o.Rejected? {
        return Unreconciled(StoreError(o.error));
      }
    }
    r := FinishRun(store, id, runtime.inspect[id].result.value, now);
  }

  /** The last transition of reconcileRun, for a run that has started. */
  method FinishRun(store: MemoryServerState, id: string, result: RunResult, now: int) returns (r: Recovered)
    requires id in store.runs && (store.runs[id].status == Starting || store.runs[id].status == Running)
    modifies store`sessions, store`runs
    ensures r.Reconciled? <==> old(store.runs[id].sessionId in store.sessions)
    ensures r.Reconciled? ==>
              store.runs == old(store.runs)[id := Advanced(old(store.runs[id]), ResultTarget(result), ResultDetail(result), now)]
    ensures r.Reconciled? ==> OnlyBumped(old(store.sessions), store.sessions)
    ensures r != Unreconciled(StoreError(RunConflict))
  {
    hide Step, Advanced;
    var run := store.runs[id];
    TransitionActive(store.State(), id, ResultTarget(result), ResultDetail(result), now);
    var o;
    if result.recovered {
      o := store.TransitionRun(id, Interrupted, "runtime_interrupted", Some(run.version), now);
    } else if result.status == ResultCompleted {
      o := store.TransitionRun(id, Completed, result.detail, Some(run.version), now);
    } else if result.status == ResultCancelled {
      o := store.TransitionRun(id, Cancelled, result.detail, Some(run.version), now);
    } else {
      o := store.TransitionRun(id, Failed, result.detail, Some(run.version), now);
    }
    r := if o == Ok then Reconciled else Unreconciled(StoreError(o.error));
  }

  function PartlySettledRuns(runs: map<string, RunRecord>, runtime: Runtime, todo: set<string>, now: int): map<string, RunRecord> {
    map r | r in runs :: if r in todo then runs[r] else SettledRun(runtime, r, runs[r], now)
  }

  lemma SettleOneRun(runs: map<string, RunRecord>, runtime: Runtime, todo: set<string>, id: string, now: int)
    requires id in todo && todo <= runs.Keys
    ensures PartlySettledRuns(runs, runtime, todo, now)[id := SettledRun(runtime, id, runs[id], now)]
            == PartlySettledRuns(runs, runtime, todo - {id}, now)
    ensures id in PartlySettledRuns(runs, runtime, todo, now) && PartlySettledRuns(runs, runtime, todo, now)[id] == runs[id]
  {
    hide SettledRun;
  }

  lemma NoRunSettled(runs: map<string, RunRecord>, runtime: Runtime, now: int)
    ensures PartlySettledRuns(runs, runtime, (set r | r in runs && ActiveStatus(runs[r].status)), now) == runs
    ensures PartlySettledRuns(runs, runtime, {}, now) == SettledRuns(runs, runtime, now)
  {
  }

  /** reconcileRuns. Its retry after a transition conflict is never taken. */
  method ReconcileRuns(store: MemoryServerState, runtime: Runtime, now: int) returns (r: Recovered)
    modifies store`sessions, store`runs
    ensures r.Reconciled? <==> RunsAnswered(old(store.runs), runtime, old(store.sessions))
    ensures r.Reconciled? ==> store.runs == SettledRuns(old(store.runs), runtime, now)
    ensures r.Reconciled? ==> OnlyBumped(old(store.sessions), store.sessions)
    ensures NoActive(old(store.runs)) ==> store.State() == old(store.State())
  {
    hide SettledRun, Answerable, ActiveStatus, PartlySettledRuns, SettledRuns;
    var before := store.runs;
    var todo := set x | x in before && ActiveStatus(before[x].status);
    NoRunSettled(before, runtime, now);
    while todo != {}
      invariant todo <= before.Keys && forall x | x in todo :: ActiveStatus(before[x].status)
      invariant OnlyBumped(old(store.sessions), store.sessions)
      invariant store.runs == PartlySettledRuns(before, runtime, todo, now)
      invariant forall x | x in before && ActiveStatus(before[x].status) && x !in todo ::
                  before[x].sessionId in store.sessions && Answerable(runtime, x, before[x])
      invariant NoActive(before) ==> todo == {} && store.State() == old(store.State())
      decreases |todo|
    {
      var id :| id in todo;
      SettleOneRun(before, runtime, todo, id, now);
      r := ReconcileRun(store, runtime, id, now);
      if r == Unreconciled(StoreError(RunConflict)) {
        assert false;
      }
      if r.Unreconciled? {
        return;
      }
      todo := todo - {id};
    }
    r := Reconciled;
  }

  /** What reconciliation makes of an active run: interrupted where the runtime does not know it or
      recovered it from a restart, else as its result says; nothing else of the record changes. */
  ghost predicate EndsAs(before: RunRecord, after: RunRecord, runtime: Runtime, id: string, now: int) {
    && after.sessionId == before.sessionId && after.laneId == before.laneId
    && after.startedAt == before.startedAt && after.completedAt == Some(now) && after.updatedAt == now
    && if id !in runtime.inspect then
         && after.status == Interrupted && after.version == before.version + 1
         && after.detail == if before.status == Accepted then "run_start_not_committed" else "runtime_interrupted"
       else
         && runtime.inspect[id].result.Some?
         && after.version == (if before.status == Accepted then before.version + 2 else before.version + 1)
         && var result := runtime.inspect[id].result.value;
            && after.detail == (if result.recovered then "runtime_interrupted" else result.detail)
            && (result.recovered ==> after.status == Interrupted)
            && (!result.recovered && result.status == ResultCompleted ==> after.status == Completed)
            && (!result.recovered && result.status == ResultCancelled ==> after.status == Cancelled)
            && (!result.recovered && result.status == ResultFailed ==> after.status == Failed)
  }

  /** Active runs end as dictated, terminal ones stay; pending approvals are interrupted, decided ones
      stay; the sessions are the active ones and those the runtime knows, all active. */
  ghost predicate SettledAs(before: Store, after: Store, runtime: Runtime, now: int) {
    && after.runs.Keys == before.runs.Keys && after.approvals.Keys == before.approvals.Keys
    && (forall r | r in before.runs ::
          if before.runs[r].status in {Accepted, Starting, Running} then EndsAs(before.runs[r], after.runs[r], runtime, r, now)
          else after.runs[r] == before.runs[r])
    && (forall a | a in before.approvals ::
          if before.approvals[a].status == Pending then
            after.approvals[a] == before.approvals[a].(status := ApprovalInterrupted, resolvedAt := Some(now),
                                                       version := before.approvals[a].version + 1)
          else after.approvals[a] == before.approvals[a])
    && (forall k :: k in after.sessions <==> k in runtime.sessions || (k in before.sessions && before.sessions[k].active))
    && (forall k | k in after.sessions ::
          after.sessions[k].active && (k in before.sessions ==> before.sessions[k].revision <= after.sessions[k].revision))
  }

  lemma SettledAsDictated(before: Store, after: Store, runtime: Runtime, now: int)
    requires Reconcilable(before, runtime)
    requires after.runs == SettledRuns(before.runs, runtime, now) && after.approvals == SettledApprovals(before.approvals, now)
    requires OnlyBumped(SettledSessions(before.sessions, runtime.sessions), after.sessions)
    ensures SettledAs(before, after, runtime, now)
  {
    forall r | r in before.runs && ActiveStatus(before.runs[r].status)
      ensures EndsAs(before.runs[r], after.runs[r], runtime, r, now)
    {
      assert Answerable(runtime, r, before.runs[r]);
    }
  }

  /** The store and the runtime agree: every pending approval's and every active run's session will be
      there, and the runtime tells of each active run it knows, under the same session and lane, how it ended. */
  lemma ReconcilableExactly(s: Store, runtime: Runtime)
    ensures Reconcilable(s, runtime)
            <==> && runtime.ready && runtime.lanesIdle
                 && (forall a | a in s.approvals && s.approvals[a].status == Pending :: Survives(s, runtime, s.approvals[a].sessionId))
                 && (forall r | r in s.runs && s.runs[r].status in {Accepted, Starting, Running} ::
                       Survives(s, runtime, s.runs[r].sessionId)
                       && (r in runtime.inspect ==>
                             && runtime.inspect[r].sessionId == s.runs[r].sessionId && runtime.inspect[r].laneId == s.runs[r].laneId
                             && runtime.inspect[r].result.Some?))
  {
  }

  predicate Survives(s: Store, runtime: Runtime, sessionId: string) {
    sessionId in runtime.sessions || (sessionId in s.sessions && s.sessions[sessionId].active)
  }

  /** reconcile: it succeeds exactly when the store is reconcilable; then every record is settled
      as the runtime dictates and nothing is left to reconcile. On a quiet store it changes nothing. */
  method Reconcile(store: MemoryServerState, runtime: Runtime, now: int) returns (r: Recovered)
    modifies store
    ensures r.Reconciled? <==> Reconcilable(old(store.State()), runtime)
    ensures r.Reconciled? ==>
              && store.runs == SettledRuns(old(store.runs), runtime, now)
              && store.approvals == SettledApprovals(old(store.approvals), now)
              && OnlyBumped(SettledSessions(old(store.sessions), runtime.sessions), store.sessions)
    ensures r.Reconciled? ==> SettledAs(old(store.State()), store.State(), runtime, now)
    ensures r.Reconciled? ==> Quiet(store.State(), runtime)
    ensures Quiet(old(store.State()), runtime) ==> store.State() == old(store.State())
  {
    hide SettledRun, SettledApproval, Answerable;
    ReconcileSessions(store, runtime);
    QuietSessions(old(store.State()), runtime);
    var approvalsOk := ReconcileApprovals(store, now);
    if !approvalsOk {
      return Unreconciled(StoreError(SessionMissing));
    }
    if !runtime.ready {
      return Unreconciled(RecoveryConflict);
    }
    r := ReconcileRuns(store, runtime, now);
    if r.Unreconciled? {
      return;
    }
    SettledIsQuiet(old(store.State()), runtime, now);
    if (exists x | x in store.runs :: ActiveStatus(store.runs[x].status))
       || (exists a | a in store.approvals :: store.approvals[a].status == Pending) {
      assert false;
      return Unreconciled(Incomplete);
    }
    if !runtime.lanesIdle {
      return Unreconciled(Incomplete);
    }
    SettledAsDictated(old(store.State()), store.State(), runtime, now);
    r := Reconciled;
  }

  lemma QuietSessions(s: Store, runtime: Runtime)
    ensures Quiet(s, runtime) ==> SettledSessions(s.sessions, runtime.sessions) == s.sessions
    ensures forall k | k in SettledSessions(s.sessions, runtime.sessions) ::
              SettledSessions(s.sessions, runtime.sessions)[k].active
    ensures runtime.sessions <= SettledSessions(s.sessions, runtime.sessions).Keys
  {
  }

  /** A settled run is terminal with the dictated status and one or two versions on; a terminal
      run is not rewritten. */
  lemma SettledIsQuiet(s: Store, runtime: Runtime, now: int)
    ensures NoActive(SettledRuns(s.runs, runtime, now)) && NoPending(SettledApprovals(s.approvals, now))
    ensures forall r | r in s.runs && ActiveStatus(s.runs[r].status) ::
              var b := SettledRuns(s.runs, runtime, now)[r];
              && b.status == Dictated(runtime, r) && b.completedAt == Some(now)
              && b.sessionId == s.runs[r].sessionId && b.laneId == s.runs[r].laneId
              && s.runs[r].version < b.version <= s.runs[r].version + 2
    ensures forall r | r in s.runs && !ActiveStatus(s.runs[r].status) :: SettledRuns(s.runs, runtime, now)[r] == s.runs[r]
  {
  }
}
