/** The in-memory server state of packages/app-service/src/persistence.ts: session metadata, run
    records and approval records with versions and revisions. Titles, labels and provider choices
    are left out of the records; the clock is a parameter. */
module ServerState {
  import opened Wrappers

  datatype Session = Session(active: bool, revision: nat)

  datatype RunStatus = Accepted | Starting | Running | Completed | Failed | Cancelled | Interrupted

  datatype RunRecord = RunRecord(sessionId: string, laneId: string, status: RunStatus, version: nat,
                                 startedAt: Option<int>, completedAt: Option<int>, updatedAt: int, detail: string)

  datatype Decision = Allow | Deny

  datatype Owner = OwnedByRun(runId: string, laneId: string) | OwnedBySession

  datatype ApprovalStatus = Pending | Allowed | Denied | ApprovalInterrupted

  datatype Approval = Approval(sessionId: string, owner: Owner, requestHash: string, status: ApprovalStatus,
                               decision: Option<Decision>, resolvedAt: Option<int>, version: nat)

  datatype Store = Store(sessions: map<string, Session>, runs: map<string, RunRecord>, approvals: map<string, Approval>)

  const EMPTY := Store(map[], map[], map[])

  datatype Error =
    | SessionExists | SessionMissing | RevisionConflict | RunExists | RunNotFound | RunConflict
    | ApprovalConflict | ApprovalNotFound | ApprovalResolved | ApprovalVersionConflict

  datatype Outcome = Ok | Rejected(error: Error)

  datatype Call =
    | CreateCreating(sessionId: string)
    | EnsureActive(sessionId: string)
    | Activate(sessionId: string)
    | Patch(sessionId: string, expectedRevision: Option<nat>)
    | DeleteCreating(sessionId: string)
    | CreateAccepted(runId: string, sessionId: string, laneId: string, now: int)
    | Transition(runId: string, target: RunStatus, detail: string, expectedVersion: Option<nat>, now: int)
    | CreatePending(approvalId: string, sessionId: string, owner: Owner, requestHash: string)
    | Resolve(approvalId: string, decision: Decision, approvalVersion: Option<nat>, now: int)
    | Interrupt(approvalId: string, approvalVersion: Option<nat>, now: int)

  predicate ActiveStatus(s: RunStatus) { s == Accepted || s == Starting || s == Running }

  /** The statuses from which a transition to the target is allowed. */
  predicate AllowedFrom(from: RunStatus, target: RunStatus) {
    match target
    case Accepted => false
    case Starting => from == Accepted
    case Running => from == Starting
    case Completed => from == Running || from == Starting
    case Cancelled => from == Starting || from == Running
    case Failed => ActiveStatus(from)
    case Interrupted => ActiveStatus(from)
  }

  // ---------- what each call does ----------

  /** bump(requireSession(id)): without the session it throws after the record has changed. */
  function Bumped(s: Store, id: string): (Store, Outcome) {
    if id !in s.sessions then (s, Rejected(SessionMissing))
    else (s.(sessions := s.sessions[id := s.sessions[id].(revision := s.sessions[id].revision + 1)]), Ok)
  }

  function Step(s: Store, c: Call): (Store, Outcome) {
    match c
    case CreateCreating(id) =>
      if id in s.sessions then (s, Rejected(SessionExists))
      else (s.(sessions := s.sessions[id := Session(false, 0)]), Ok)
    case EnsureActive(id) =>
      if id in s.sessions then (s, Ok) else (s.(sessions := s.sessions[id := Session(true, 1)]), Ok)
    case Activate(id) =>
      if id !in s.sessions then (s, Rejected(SessionMissing))
      else if s.sessions[id].active then (s, Ok)
      else Bumped(s.(sessions := s.sessions[id := s.sessions[id].(active := true)]), id)
    case Patch(id, expected) =>
      if id !in s.sessions then (s, Rejected(SessionMissing))
      else if expected.Some? && expected.value != s.sessions[id].revision then (s, Rejected(RevisionConflict))
      else Bumped(s, id)
    case DeleteCreating(id) =>
      if id in s.sessions && !s.sessions[id].active then (s.(sessions := s.sessions - {id}), Ok) else (s, Ok)
    case CreateAccepted(runId, sessionId, laneId, now) =>
      if runId in s.runs then (s, Rejected(RunExists))
      else if sessionId !in s.sessions then (s, Rejected(SessionMissing))
      else Bumped(s.(runs := s.runs[runId := RunRecord(sessionId, laneId, Accepted, 1, None, None, now, "")]), sessionId)
    case Transition(runId, target, detail, expected, now) => Transitioned(s, runId, target, detail, expected, now)
    case CreatePending(id, sessionId, owner, hash) => PendingCreated(s, id, sessionId, owner, hash)
    case Resolve(id, decision, expected, now) => Resolved(s, id, decision, expected, now)
    case Interrupt(id, expected, now) => InterruptedApproval(s, id, expected, now)
  }

  function Transitioned(s: Store, runId: string, target: RunStatus, detail: string, expected: Option<nat>, now: int)
    : (Store, Outcome)
  {
    if runId !in s.runs then (s, Rejected(RunNotFound))
    else
      var r := s.runs[runId];
      if r.status == target then (s, Ok)
      else if !ActiveStatus(r.status) || !AllowedFrom(r.status, target) then (s, Rejected(RunConflict))
      else if expected.Some? && expected.value != r.version then (s, Rejected(RunConflict))
      else Bumped(s.(runs := s.runs[runId := Advanced(r, target, detail, now)]), r.sessionId)
  }

  function Advanced(r: RunRecord, target: RunStatus, detail: string, now: int): RunRecord {
    RunRecord(r.sessionId, r.laneId, target, r.version + 1,
              if target == Running then Some(now) else r.startedAt,
              if ActiveStatus(target) then r.completedAt else Some(now), now, detail)
  }

  function PendingCreated(s: Store, id: string, sessionId: string, owner: Owner, hash: string): (Store, Outcome) {
    if id in s.approvals then
      var a := s.approvals[id];
      if a.requestHash == hash && a.sessionId == sessionId && a.owner == owner then (s, Ok)
      else (s, Rejected(ApprovalConflict))
    else if sessionId !in s.sessions then (s, Rejected(SessionMissing))
    else if owner.OwnedByRun? && (owner.runId !in s.runs || s.runs[owner.runId].sessionId != sessionId
                                  || s.runs[owner.runId].laneId != owner.laneId) then (s, Rejected(RunNotFound))
    else Bumped(s.(approvals := s.approvals[id := Approval(sessionId, owner, hash, Pending, None, None, 1)]), sessionId)
  }

  function Target(d: Decision): ApprovalStatus { if d == Allow then Allowed else Denied }

  function Resolved(s: Store, id: string, decision: Decision, expected: Option<nat>, now: int): (Store, Outcome) {
    if id !in s.approvals then (s, Rejected(ApprovalNotFound))
    else
      var a := s.approvals[id];
      if a.status == Target(decision) && a.decision == Some(decision) then (s, Ok)
      else if a.status != Pending then (s, Rejected(ApprovalResolved))
      else if expected.Some? && expected.value != a.version then (s, Rejected(ApprovalVersionConflict))
      else Bumped(s.(approvals := s.approvals[id := a.(status := Target(decision), decision := Some(decision),
                                                     resolvedAt := Some(now), version := a.version + 1)]), a.sessionId)
  }

  function InterruptedApproval(s: Store, id: string, expected: Option<nat>, now: int): (Store, Outcome) {
    if id !in s.approvals then (s, Rejected(ApprovalNotFound))
    else
      var a := s.approvals[id];
      if a.status != Pending then (s, Ok)
      else if expected.Some? && expected.value != a.version then (s, Rejected(ApprovalVersionConflict))
      else Bumped(s.(approvals := s.approvals[id := a.(status := ApprovalInterrupted, resolvedAt := Some(now),
                                                     version := a.version + 1)]), a.sessionId)
  }

  // ---------- records over all runs ----------

  /** A version counts the statuses a run has been through; it is complete exactly when terminal. */
  ghost predicate RunValid(r: RunRecord) {
    && (r.completedAt.Some? <==> !ActiveStatus(r.status))
    && match r.status
       case Accepted => r.version == 1
       case Starting => r.version == 2
       case Running => r.version == 3 && r.startedAt.Some?
       case _ => 2 <= r.version <= 4
  }

  ghost predicate ApprovalValid(a: Approval) {
    && a.version == (if a.status == Pending then 1 else 2)
    && (a.resolvedAt.Some? <==> a.status != Pending)
    && a.decision == (match a.status case Allowed => Some(Allow) case Denied => Some(Deny) case _ => None)
  }

  ghost predicate RecordsValid(s: Store) {
    (forall r | r in s.runs :: RunValid(s.runs[r])) && (forall a | a in s.approvals :: ApprovalValid(s.approvals[a]))
  }

  lemma StepKeepsRecords(s: Store, c: Call)
    requires RecordsValid(s)
    ensures RecordsValid(Step(s, c).0)
  {
  }

  function Run(s: Store, calls: seq<Call>): Store
    decreases |calls|
  {
    if calls == [] then s else Run(Step(s, calls[0]).0, calls[1..])
  }

  function Progress(s: RunStatus): nat {
    match s case Accepted => 0 case Starting => 1 case Running => 2 case _ => 3
  }

  /** Later, a run record still exists for the same session and lane; it has either not changed or
      moved strictly forward, and a terminal record has not changed at all. */
  ghost predicate RunForward(before: Store, after: Store, id: string)
    requires id in before.runs
  {
    && id in after.runs
    && var a, b := before.runs[id], after.runs[id];
       && a.sessionId == b.sessionId && a.laneId == b.laneId
       && (a == b || (ActiveStatus(a.status) && Progress(a.status) < Progress(b.status) && a.version < b.version))
  }

  lemma StepRunForward(s: Store, c: Call, id: string)
    requires id in s.runs
    ensures RunForward(s, Step(s, c).0, id)
  {
  }

  /** Along any sequence of calls, failed ones included, every run record only moves forward, its
      version stays at most 4, and it is complete exactly when terminal. */
  lemma {:induction false} RunsMoveForward(s: Store, calls: seq<Call>, id: string)
    requires RecordsValid(s) && id in s.runs
    ensures RunForward(s, Run(s, calls), id)
    ensures RunValid(Run(s, calls).runs[id]) && Run(s, calls).runs[id].version <= 4
    decreases |calls|
  {
    if calls != [] {
      StepRunForward(s, calls[0], id);
      StepKeepsRecords(s, calls[0]);
      hide Step;
      RunsMoveForward(Step(s, calls[0]).0, calls[1..], id);
    }
  }

  /** A decided approval never changes again. */
  lemma {:induction false} DecidedIsFrozen(s: Store, calls: seq<Call>, id: string)
    requires RecordsValid(s) && id in s.approvals && s.approvals[id].status != Pending
    ensures id in Run(s, calls).approvals && Run(s, calls).approvals[id] == s.approvals[id]
    decreases |calls|
  {
    if calls != [] {
      StepKeepsRecords(s, calls[0]);
      assert id in Step(s, calls[0]).0.approvals && Step(s, calls[0]).0.approvals[id] == s.approvals[id];
      hide Step;
      DecidedIsFrozen(Step(s, calls[0]).0, calls[1..], id);
    }
  }

  // ---------- sums over records ----------

  ghost function Sum(m: map<string, nat>): nat {
    if m == map[] then 0 else var k :| k in m; m[k] + Sum(m - {k})
  }

  lemma {:induction false} SumWithout(m: map<string, nat>, k: string)
    requires k in m
    ensures Sum(m) == m[k] + Sum(m - {k})
    decreases |m|
  {
    var j :| j in m && Sum(m) == m[j] + Sum(m - {j});
    if j != k {
      SumWithout(m - {j}, k);
      SumWithout(m - {k}, j);
      assert m - {j} - {k} == m - {k} - {j};
    }
  }

  lemma SumUpdate(m: map<string, nat>, k: string, v: nat)
    ensures Sum(m[k := v]) == Sum(m) - (if k in m then m[k] else 0) + v
  {
    SumWithout(m[k := v], k);
    if k in m {
      SumWithout(m, k);
      assert m[k := v] - {k} == m - {k};
    } else {
      assert m[k := v] - {k} == m;
    }
  }

  ghost function RunVersions(s: Store, sessionId: string): map<string, nat> {
    map r | r in s.runs && s.runs[r].sessionId == sessionId :: s.runs[r].version
  }

  ghost function ApprovalVersions(s: Store, sessionId: string): map<string, nat> {
    map a | a in s.approvals && s.approvals[a].sessionId == sessionId :: s.approvals[a].version
  }

  ghost function OwnedVersions(s: Store, sessionId: string): nat {
    Sum(RunVersions(s, sessionId)) + Sum(ApprovalVersions(s, sessionId))
  }

  // ---------- conservation of the session revision ----------

  /** Per session: where its revision started, plus its activation and its patches. */
  type Ledger = map<string, nat>

  function Recorded(s: Store, c: Call, ledger: Ledger): Ledger {
    match c
    case CreateCreating(id) => if id in s.sessions then ledger else ledger[id := 0]
    case EnsureActive(id) => if id in s.sessions then ledger else ledger[id := 1]
    case Activate(id) =>
      if id in s.sessions && !s.sessions[id].active && id in ledger then ledger[id := ledger[id] + 1] else ledger
    case Patch(id, expected) =>
      if id in s.sessions && (expected.Some? ==> expected.value == s.sessions[id].revision) && id in ledger then
        ledger[id := ledger[id] + 1]
      else ledger
    case DeleteCreating(id) => if id in s.sessions && !s.sessions[id].active then ledger - {id} else ledger
    case _ => ledger
  }

  ghost predicate Owned(s: Store) {
    && (forall r | r in s.runs :: s.runs[r].sessionId in s.sessions)
    && (forall a | a in s.approvals :: s.approvals[a].sessionId in s.sessions)
  }

  /** Every revision is accounted for by the ledger and the versions of the owned records. */
  ghost predicate Conserved(s: Store, ledger: Ledger) {
    && Owned(s) && ledger.Keys == s.sessions.Keys
    && forall k | k in s.sessions :: s.sessions[k].revision == ledger[k] + OwnedVersions(s, k)
  }

  ghost predicate OwnsRecords(s: Store, id: string) {
    (exists r :: r in s.runs && s.runs[r].sessionId == id) || (exists a :: a in s.approvals && s.approvals[a].sessionId == id)
  }

  /** The one call that can break the account: deleting a creating session that owns records. */
  ghost predicate Harmless(s: Store, c: Call) {
    c.DeleteCreating? && c.sessionId in s.sessions && !s.sessions[c.sessionId].active ==> !OwnsRecords(s, c.sessionId)
  }

  lemma NothingOwned(s: Store, id: string)
    requires !OwnsRecords(s, id)
    ensures OwnedVersions(s, id) == 0
  {
    assert RunVersions(s, id) == map[] && ApprovalVersions(s, id) == map[];
  }

  lemma RunChanged(s: Store, runs: map<string, RunRecord>, id: string)
    requires id in runs && runs == s.runs[id := runs[id]]
    requires id in s.runs ==> s.runs[id].sessionId == runs[id].sessionId && s.runs[id].version < runs[id].version
    ensures var t := s.(runs := runs);
            forall k :: OwnedVersions(t, k) == OwnedVersions(s, k)
              + if k != runs[id].sessionId then 0
                else runs[id].version - if id in s.runs then s.runs[id].version else 0
  {
    var t := s.(runs := runs);
    forall k
      ensures OwnedVersions(t, k) == OwnedVersions(s, k)
              + if k != runs[id].sessionId then 0
                else runs[id].version - if id in s.runs then s.runs[id].version else 0
    {
      assert ApprovalVersions(t, k) == ApprovalVersions(s, k);
      if k == runs[id].sessionId {
        assert RunVersions(t, k) == RunVersions(s, k)[id := runs[id].version];
        SumUpdate(RunVersions(s, k), id, runs[id].version);
      } else {
        assert RunVersions(t, k) == RunVersions(s, k);
      }
    }
  }

  lemma ApprovalChanged(s: Store, approvals: map<string, Approval>, id: string)
    requires id in approvals && approvals == s.approvals[id := approvals[id]]
    requires id in s.approvals ==>
               s.approvals[id].sessionId == approvals[id].sessionId && s.approvals[id].version < approvals[id].version
    ensures var t := s.(approvals := approvals);
            forall k :: OwnedVersions(t, k) == OwnedVersions(s, k)
              + if k != approvals[id].sessionId then 0
                else approvals[id].version - if id in s.approvals then s.approvals[id].version else 0
  {
    var t := s.(approvals := approvals);
    forall k
      ensures OwnedVersions(t, k) == OwnedVersions(s, k)
              + if k != approvals[id].sessionId then 0
                else approvals[id].version - if id in s.approvals then s.approvals[id].version else 0
    {
      assert RunVersions(t, k) == RunVersions(s, k);
      if k == approvals[id].sessionId {
        assert ApprovalVersions(t, k) == ApprovalVersions(s, k)[id := approvals[id].version];
        SumUpdate(ApprovalVersions(s, k), id, approvals[id].version);
      } else {
        assert ApprovalVersions(t, k) == ApprovalVersions(s, k);
      }
    }
  }

  lemma SessionsChanged(s: Store, sessions: map<string, Session>)
    ensures forall k :: OwnedVersions(s.(sessions := sessions), k) == OwnedVersions(s, k)
  {
    forall k ensures OwnedVersions(s.(sessions := sessions), k) == OwnedVersions(s, k) {
      assert RunVersions(s.(sessions := sessions), k) == RunVersions(s, k);
      assert ApprovalVersions(s.(sessions := sessions), k) == ApprovalVersions(s, k);
    }
  }

  lemma RecordBump(s: Store, t: Store, ledger: Ledger, id: string)
    requires Conserved(s, ledger) && t.sessions == s.sessions && id in s.sessions && Owned(t)
    requires forall k :: OwnedVersions(t, k) == OwnedVersions(s, k) + if k == id then 1 else 0
    ensures Conserved(Bumped(t, id).0, ledger)
  {
    hide OwnedVersions;
    SessionsChanged(t, Bumped(t, id).0.sessions);
    var u := Bumped(t, id).0;
    assert u == t.(sessions := u.sessions);
    forall k | k in u.sessions ensures u.sessions[k].revision == ledger[k] + OwnedVersions(u, k) {
      assert OwnedVersions(u, k) == OwnedVersions(s, k) + if k == id then 1 else 0;
    }
  }

  lemma RunStepConserves(s: Store, c: Call, ledger: Ledger)
    requires Conserved(s, ledger) && (c.CreateAccepted? || c.Transition?)
    ensures Conserved(Step(s, c).0, ledger)
  {
    hide OwnedVersions;
    if Step(s, c).0 != s {
      if c.CreateAccepted? {
        var runs := s.runs[c.runId := RunRecord(c.sessionId, c.laneId, Accepted, 1, None, None, c.now, "")];
        RunChanged(s, runs, c.runId);
        RecordBump(s, s.(runs := runs), ledger, c.sessionId);
      } else {
        var r := s.runs[c.runId];
        var runs := s.runs[c.runId := Advanced(r, c.target, c.detail, c.now)];
        RunChanged(s, runs, c.runId);
        RecordBump(s, s.(runs := runs), ledger, r.sessionId);
      }
    }
  }

  lemma ApprovalStepConserves(s: Store, c: Call, ledger: Ledger)
    requires Conserved(s, ledger) && (c.CreatePending? || c.Resolve? || c.Interrupt?)
    ensures Conserved(Step(s, c).0, ledger)
  {
    hide OwnedVersions;
    var t := Step(s, c).0;
    if t != s {
      ApprovalChanged(s, t.approvals, c.approvalId);
      RecordBump(s, s.(approvals := t.approvals), ledger, t.approvals[c.approvalId].sessionId);
    }
  }

  lemma SessionStepConserves(s: Store, c: Call, ledger: Ledger)
    requires Conserved(s, ledger) && Harmless(s, c)
    requires c.CreateCreating? || c.EnsureActive? || c.Activate? || c.Patch? || c.DeleteCreating?
    ensures Conserved(Step(s, c).0, Recorded(s, c, ledger))
  {
    hide OwnedVersions, OwnsRecords;
    var t, next := Step(s, c).0, Recorded(s, c, ledger);
    SessionsChanged(s, t.sessions);
    assert t == s.(sessions := t.sessions);
    if c.sessionId !in s.sessions {
      UnknownOwnsNothing(s, c.sessionId);
    }
    OwnedAfter(s, c);
    forall k | k in t.sessions ensures t.sessions[k].revision == next[k] + OwnedVersions(t, k) {
      assert OwnedVersions(t, k) == OwnedVersions(s, k);
    }
  }

  lemma UnknownOwnsNothing(s: Store, id: string)
    requires Owned(s) && id !in s.sessions
    ensures !OwnsRecords(s, id) && OwnedVersions(s, id) == 0
  {
    NothingOwned(s, id);
  }

  lemma OwnedAfter(s: Store, c: Call)
    requires Owned(s) && Harmless(s, c)
    requires c.CreateCreating? || c.EnsureActive? || c.Activate? || c.Patch? || c.DeleteCreating?
    ensures Owned(Step(s, c).0)
  {
  }

  function RunLedger(s: Store, calls: seq<Call>, ledger: Ledger): Ledger
    decreases |calls|
  {
    if calls == [] then ledger else RunLedger(Step(s, calls[0]).0, calls[1..], Recorded(s, calls[0], ledger))
  }

  ghost predicate AllHarmless(s: Store, calls: seq<Call>)
    decreases |calls|
  {
    calls == [] || (Harmless(s, calls[0]) && AllHarmless(Step(s, calls[0]).0, calls[1..]))
  }

  /** Over any calls that never delete a creating session owning records, each session's revision
      is its starting value, its activation and patches, and the sum of the versions of its runs
      and approvals. */
  lemma {:induction false} RevisionsConserved(s: Store, calls: seq<Call>, ledger: Ledger)
    requires Conserved(s, ledger) && AllHarmless(s, calls)
    ensures Conserved(Run(s, calls), RunLedger(s, calls, ledger))
    decreases |calls|
  {
    hide Conserved, Harmless;
    if calls != [] {
      var c := calls[0];
      if c.CreateAccepted? || c.Transition? {
        RunStepConserves(s, c, ledger);
      } else if c.CreatePending? || c.Resolve? || c.Interrupt? {
        ApprovalStepConserves(s, c, ledger);
      } else {
        SessionStepConserves(s, c, ledger);
      }
      hide Step;
      RevisionsConserved(Step(s, c).0, calls[1..], Recorded(s, c, ledger));
    }
  }

  lemma EmptyConserved()
    ensures Conserved(EMPTY, map[])
  {
  }

  lemma {:induction false} SumPositive(m: map<string, nat>, k: string)
    requires k in m && m[k] > 0
    ensures Sum(m) > 0
  {
    SumWithout(m, k);
  }

  lemma SomethingOwned(s: Store, id: string)
    requires RecordsValid(s) && OwnsRecords(s, id)
    ensures OwnedVersions(s, id) > 0
  {
    if r :| r in s.runs && s.runs[r].sessionId == id {
      assert RunValid(s.runs[r]);
      SumPositive(RunVersions(s, id), r);
    } else {
      var a :| a in s.approvals && s.approvals[a].sessionId == id;
      assert ApprovalValid(s.approvals[a]);
      SumPositive(ApprovalVersions(s, id), a);
    }
  }

  /** The guard is exact: deleting a creating session and creating it again keeps the account if
      and only if the session owned no records. */
  lemma DeletionGuardExact(s: Store, ledger: Ledger, id: string)
    requires Conserved(s, ledger) && RecordsValid(s) && id in s.sessions && !s.sessions[id].active
    ensures var t := Step(Step(s, DeleteCreating(id)).0, CreateCreating(id)).0;
            Conserved(t, ledger[id := 0]) <==> !OwnsRecords(s, id)
  {
    hide OwnedVersions, OwnsRecords, RecordsValid;
    var t := Step(Step(s, DeleteCreating(id)).0, CreateCreating(id)).0;
    assert t.sessions == s.sessions[id := Session(false, 0)];
    SessionsChanged(s, t.sessions);
    assert t == s.(sessions := t.sessions);
    if OwnsRecords(s, id) {
      SomethingOwned(s, id);
      assert OwnedVersions(t, id) > 0;
    } else {
      NothingOwned(s, id);
      forall k | k in t.sessions ensures t.sessions[k].revision == ledger[id := 0][k] + OwnedVersions(t, k) {
        assert OwnedVersions(t, k) == OwnedVersions(s, k);
      }
    }
  }

  /** A session that got a run while it was being created, then deleted and created again: its
      account was right before and is wrong after. */
  lemma DeletionBreaksAccount()
    ensures exists calls ::
              var s, ledger := Run(EMPTY, calls), RunLedger(EMPTY, calls, map[]);
              && Conserved(s, ledger) && "s" in s.sessions
              && !Conserved(Step(Step(s, DeleteCreating("s")).0, CreateCreating("s")).0, ledger["s" := 0])
  {
    hide OwnedVersions;
    var calls := [CreateCreating("s"), CreateAccepted("r", "s", "l", 0)];
    var s, ledger := Run(EMPTY, calls), RunLedger(EMPTY, calls, map[]);
    TwoCalls(calls);
    EmptyConserved();
    RevisionsConserved(EMPTY, calls, map[]);
    RunsValidFrom(calls);
    DeletionGuardExact(s, ledger, "s");
  }

  lemma TwoCalls(calls: seq<Call>)
    requires calls == [CreateCreating("s"), CreateAccepted("r", "s", "l", 0)]
    ensures var s := Run(EMPTY, calls);
            && AllHarmless(EMPTY, calls) && "s" in s.sessions && !s.sessions["s"].active && OwnsRecords(s, "s")
  {
    var s1 := Step(EMPTY, calls[0]).0;
    var s2 := Step(s1, calls[1]).0;
    assert calls[1..] == [calls[1]] && calls[1..][1..] == [];
    assert Run(EMPTY, calls) == Run(s1, calls[1..]);
    assert Run(s1, calls[1..]) == Run(s2, []);
    assert "r" in s2.runs && s2.runs["r"].sessionId == "s";
  }

  lemma RunsValidFrom(calls: seq<Call>)
    requires calls == [CreateCreating("s"), CreateAccepted("r", "s", "l", 0)]
    ensures RecordsValid(Run(EMPTY, calls))
  {
    hide Step;
    var s1 := Step(EMPTY, calls[0]).0;
    StepKeepsRecords(EMPTY, calls[0]);
    StepKeepsRecords(s1, calls[1]);
    assert Run(EMPTY, calls) == Run(s1, calls[1..]);
    assert Run(s1, calls[1..]) == Run(Step(s1, calls[1]).0, calls[1..][1..]);
  }
}
