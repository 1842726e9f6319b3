/** Versions and revisions as optimistic locks: of several writers that read the same version at most
    one changes the record, and what changes is what the state machine of runs and approvals allows. */
module ServerConcurrency {
  import opened Wrappers
  import opened ServerState

  // ---------- the state machine of a run ----------

  /** The statuses a run may go to next. */
  function NextStatuses(status: RunStatus): set<RunStatus> {
    match status
    case Accepted => {Starting, Failed, Interrupted}
    case Starting => {Running, Completed, Cancelled, Failed, Interrupted}
    case Running => {Completed, Cancelled, Failed, Interrupted}
    case _ => {}
  }

  /** A transition changes a run exactly when the status may come next and the caller read the latest
      version; then the version is one more, a start is timed on reaching running and an end on any
      terminal status, and only this run and its session's revision change. */
  lemma TransitionExactly(s: Store, id: string, target: RunStatus, detail: string, expected: Option<nat>, now: int)
    requires RecordsValid(s) && id in s.runs
    ensures var (t, outcome) := Step(s, Transition(id, target, detail, expected, now));
            var r := s.runs[id];
            && (t.runs != s.runs <==> target in NextStatuses(r.status) && (expected.None? || expected.value == r.version))
            && (t.runs == s.runs ==> t == s && (outcome == Ok <==> r.status == target))
            && (t.runs != s.runs ==>
                  && t.runs == s.runs[id := t.runs[id]] && t.approvals == s.approvals
                  && (outcome == Ok <==> r.sessionId in s.sessions)
                  && t.runs[id].status == target && t.runs[id].version == r.version + 1
                  && t.runs[id].sessionId == r.sessionId && t.runs[id].laneId == r.laneId
                  && t.runs[id].detail == detail && t.runs[id].updatedAt == now
                  && t.runs[id].startedAt == (if target == Running then Some(now) else r.startedAt)
                  && t.runs[id].completedAt
                     == (if target == Completed || target == Failed || target == Cancelled || target == Interrupted then Some(now) else None))
  {
    var t := Step(s, Transition(id, target, detail, expected, now)).0;
    assert RunValid(s.runs[id]);
    if target in NextStatuses(s.runs[id].status) && (expected.None? || expected.value == s.runs[id].version) {
      assert t.runs[id].status == target;
    }
  }

  /** Of two transitions for which the same version was read, at most one changes the run. */
  lemma OneTransitionWins(s: Store, id: string, first: RunStatus, second: RunStatus, a: string, b: string, version: nat, now: int, later: int)
    requires RecordsValid(s) && id in s.runs
    requires Step(s, Transition(id, first, a, Some(version), now)).0.runs != s.runs
    ensures var t := Step(s, Transition(id, first, a, Some(version), now)).0;
            Step(t, Transition(id, second, b, Some(version), later)).0 == t
  {
    hide Step, NextStatuses;
    var t := Step(s, Transition(id, first, a, Some(version), now)).0;
    TransitionExactly(s, id, first, a, Some(version), now);
    StepKeepsRecords(s, Transition(id, first, a, Some(version), now));
    TransitionExactly(t, id, second, b, Some(version), later);
  }

  /** And so it stays, whatever is called in between: a version never comes back. */
  lemma StaleVersionLoses(s: Store, calls: seq<Call>, id: string, first: RunStatus, second: RunStatus, a: string, b: string,
                          version: nat, now: int, later: int)
    requires RecordsValid(s) && id in s.runs
    requires Step(s, Transition(id, first, a, Some(version), now)).0.runs != s.runs
    ensures var t := Run(Step(s, Transition(id, first, a, Some(version), now)).0, calls);
            Step(t, Transition(id, second, b, Some(version), later)).0 == t
  {
    hide Step, NextStatuses;
    var t := Step(s, Transition(id, first, a, Some(version), now)).0;
    TransitionExactly(s, id, first, a, Some(version), now);
    StepKeepsRecords(s, Transition(id, first, a, Some(version), now));
    RunsMoveForward(t, calls, id);
    RunKeepsRecords(t, calls);
    TransitionExactly(Run(t, calls), id, second, b, Some(version), later);
  }

  lemma {:induction false} RunKeepsRecords(s: Store, calls: seq<Call>)
    requires RecordsValid(s)
    ensures RecordsValid(Run(s, calls))
    decreases |calls|
  {
    hide Step, RecordsValid;
    if calls != [] {
      StepKeepsRecords(s, calls[0]);
      RunKeepsRecords(Step(s, calls[0]).0, calls[1..]);
    }
  }

  // ---------- approvals ----------

  /** A decision or interrupt changes an approval exactly while it is pending and the caller read its
      version; the record then says who it was for and what was decided, for good. */
  lemma ApprovalDecidedExactly(s: Store, c: Call, id: string)
    requires RecordsValid(s) && id in s.approvals
    requires (c.Resolve? || c.Interrupt?) && c.approvalId == id
    ensures var (t, outcome) := Step(s, c);
            var a := s.approvals[id];
            && t.runs == s.runs
            && (t.approvals != s.approvals <==> a.status == Pending && (c.approvalVersion.None? || c.approvalVersion.value == a.version))
            && (t.approvals == s.approvals ==> t == s)
            && (t.approvals != s.approvals ==>
                  && (outcome == Ok <==> a.sessionId in s.sessions)
                  && t.approvals == s.approvals[id := t.approvals[id]] && t.approvals[id].version == a.version + 1
                  && t.approvals[id].sessionId == a.sessionId && t.approvals[id].owner == a.owner
                  && t.approvals[id].requestHash == a.requestHash && t.approvals[id].resolvedAt == Some(c.now)
                  && (c.Resolve? ==> t.approvals[id].decision == Some(c.decision)
                                     && t.approvals[id].status == if c.decision == Allow then Allowed else Denied)
                  && (c.Interrupt? ==> t.approvals[id].decision == None && t.approvals[id].status == ApprovalInterrupted))
            && (a.status != Pending && c.Resolve? ==>
                  (outcome == Ok <==> a.status == if c.decision == Allow then Allowed else Denied))
            && (a.status != Pending && c.Interrupt? ==> outcome == Ok)
  {
    assert ApprovalValid(s.approvals[id]);
    var t := Step(s, c).0;
    if s.approvals[id].status == Pending && (c.approvalVersion.None? || c.approvalVersion.value == s.approvals[id].version) {
      assert t.approvals[id].status != Pending;
    }
  }

  /** The session itself, or a run of it in that lane. */
  predicate OwnerExists(s: Store, sessionId: string, owner: Owner) {
    match owner
    case OwnedBySession => true
    case OwnedByRun(runId, laneId) => runId in s.runs && s.runs[runId].sessionId == sessionId && s.runs[runId].laneId == laneId
  }

  /** An approval is opened for an existing session and, unless the session owns it, for a run of that
      session and lane; asking again for the same is answered, asking for another is refused. */
  lemma ApprovalOpenedExactly(s: Store, id: string, sessionId: string, owner: Owner, hash: string)
    ensures var (t, outcome) := Step(s, CreatePending(id, sessionId, owner, hash));
            && t.runs == s.runs
            && (id in s.approvals ==>
                  t == s && (outcome == Ok <==> var a := s.approvals[id]; a.sessionId == sessionId && a.owner == owner && a.requestHash == hash))
            && (id !in s.approvals ==>
                  && (outcome == Ok <==> sessionId in s.sessions && OwnerExists(s, sessionId, owner))
                  && (outcome != Ok ==> t == s)
                  && (outcome == Ok ==> t.approvals == s.approvals[id := Approval(sessionId, owner, hash, Pending, None, None, 1)]))
  {
  }

  // ---------- sessions ----------

  /** A session is created once, and either becomes active, once, or is deleted again. */
  lemma SessionLife(s: Store, id: string)
    ensures var (t, outcome) := Step(s, CreateCreating(id));
            && (outcome == Ok <==> id !in s.sessions) && t.runs == s.runs && t.approvals == s.approvals
            && t.sessions == if id in s.sessions then s.sessions else s.sessions[id := Session(false, 0)]
    ensures var (t, outcome) := Step(s, EnsureActive(id));
            && outcome == Ok && t.runs == s.runs && t.approvals == s.approvals
            && t.sessions == if id in s.sessions then s.sessions else s.sessions[id := Session(true, 1)]
    ensures id in s.sessions ==>
              var (t, outcome) := Step(s, Activate(id));
              && outcome == Ok && t.runs == s.runs && t.approvals == s.approvals
              && t.sessions == if s.sessions[id].active then s.sessions
                               else s.sessions[id := Session(true, s.sessions[id].revision + 1)]
    ensures var (t, outcome) := Step(s, DeleteCreating(id));
            && outcome == Ok && t.runs == s.runs && t.approvals == s.approvals
            && t.sessions == if id in s.sessions && !s.sessions[id].active then s.sessions - {id} else s.sessions
  {
  }

  /** A patch is accepted exactly at the revision the caller read, and counts it up. */
  lemma PatchedExactly(s: Store, id: string, expected: Option<nat>)
    ensures var (t, outcome) := Step(s, Patch(id, expected));
            && (outcome == Ok <==> id in s.sessions && (expected.None? || expected.value == s.sessions[id].revision))
            && (outcome != Ok ==> t == s)
            && (outcome == Ok ==> t.sessions == s.sessions[id := s.sessions[id].(revision := s.sessions[id].revision + 1)]
                                  && t.runs == s.runs && t.approvals == s.approvals)
  {
  }

  /** A run is accepted exactly under a new id in an existing session, and starts its life there. */
  lemma RunAcceptedExactly(s: Store, id: string, sessionId: string, laneId: string, now: int)
    ensures var (t, outcome) := Step(s, CreateAccepted(id, sessionId, laneId, now));
            && (outcome == Ok <==> id !in s.runs && sessionId in s.sessions)
            && (outcome != Ok ==> t == s)
            && (outcome == Ok ==>
                  t.approvals == s.approvals
                  && t.runs == s.runs[id := RunRecord(sessionId, laneId, Accepted, 1, None, None, now, "")])
  {
  }

  /** Of two patches for which the same revision was read, only the first is accepted, whatever else
      is called in between short of deleting the session. */
  lemma OnePatchWins(s: Store, calls: seq<Call>, id: string, revision: nat)
    requires Step(s, Patch(id, Some(revision))).1 == Ok
    requires forall c | c in calls :: c != DeleteCreating(id)
    ensures var t := Run(Step(s, Patch(id, Some(revision))).0, calls);
            Step(t, Patch(id, Some(revision))) == (t, Rejected(RevisionConflict))
  {
    hide Run;
    RevisionsGrow(Step(s, Patch(id, Some(revision))).0, calls, id);
  }

  lemma StepGrows(s: Store, c: Call, id: string)
    requires id in s.sessions && c != DeleteCreating(id)
    ensures id in Step(s, c).0.sessions && s.sessions[id].revision <= Step(s, c).0.sessions[id].revision
    ensures s.sessions[id].active ==> Step(s, c).0.sessions[id].active
  {
  }

  /** A session's revision never falls, and an active session stays active. */
  lemma {:induction false} RevisionsGrow(s: Store, calls: seq<Call>, id: string)
    requires id in s.sessions && forall c | c in calls :: c != DeleteCreating(id)
    ensures var t := Run(s, calls);
            id in t.sessions && s.sessions[id].revision <= t.sessions[id].revision && (s.sessions[id].active ==> t.sessions[id].active)
    decreases |calls|
  {
    hide Step;
    if calls != [] {
      assert calls[0] in calls && forall c | c in calls[1..] :: c in calls;
      StepGrows(s, calls[0], id);
      RevisionsGrow(Step(s, calls[0]).0, calls[1..], id);
    }
  }

  /** Every change of a run or an approval bumps the revision of its session by one, and nothing else does
      but activating and patching it. */
  ghost predicate BumpedOnce(s: Store, c: Call, k: string)
    requires k in s.sessions && k in Step(s, c).0.sessions
  {
    var t := Step(s, c).0;
    var changed :=
      || (exists r | r in t.runs :: t.runs[r].sessionId == k && (r !in s.runs || t.runs[r] != s.runs[r]))
      || (exists a | a in t.approvals :: t.approvals[a].sessionId == k && (a !in s.approvals || t.approvals[a] != s.approvals[a]));
    t.sessions[k].revision == s.sessions[k].revision
      + if changed || t.sessions[k].active != s.sessions[k].active || (c.Patch? && c.sessionId == k && Step(s, c).1 == Ok) then 1 else 0
  }

  lemma ChangesBump(s: Store, c: Call, k: string)
    requires k in s.sessions && k in Step(s, c).0.sessions
    ensures BumpedOnce(s, c, k)
  {
    hide Step, BumpedOnce;
    if c.CreateAccepted? || c.Transition? {
      RunChangesBump(s, c, k);
    } else if c.CreatePending? || c.Resolve? || c.Interrupt? {
      ApprovalChangesBump(s, c, k);
    } else {
      SessionChangesBump(s, c, k);
    }
  }

  lemma RunChangesBump(s: Store, c: Call, k: string)
    requires k in s.sessions && k in Step(s, c).0.sessions && (c.CreateAccepted? || c.Transition?)
    ensures BumpedOnce(s, c, k)
  {
    var t := Step(s, c).0;
    assert t != s ==> c.runId in t.runs && (c.runId !in s.runs || t.runs[c.runId] != s.runs[c.runId]);
  }

  lemma ApprovalChangesBump(s: Store, c: Call, k: string)
    requires k in s.sessions && k in Step(s, c).0.sessions && (c.CreatePending? || c.Resolve? || c.Interrupt?)
    ensures BumpedOnce(s, c, k)
  {
    var t := Step(s, c).0;
    assert t != s ==> c.approvalId in t.approvals && (c.approvalId !in s.approvals || t.approvals[c.approvalId] != s.approvals[c.approvalId]);
  }

  lemma SessionChangesBump(s: Store, c: Call, k: string)
    requires k in s.sessions && k in Step(s, c).0.sessions
    requires !c.CreateAccepted? && !c.Transition? && !c.CreatePending? && !c.Resolve? && !c.Interrupt?
    ensures BumpedOnce(s, c, k)
  {
  }
}
