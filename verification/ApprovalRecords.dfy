/** The approval records of the server state are the store that the approval broker works on: every
    call of the in-memory store moves the statuses of its records as one of the broker's steps does. */
module ApprovalRecords {
  import opened Wrappers
  import Store = ServerState
  import Broker = ApprovalBroker

  function StatusOf(status: Store.ApprovalStatus): Broker.Status {
    match status
    case Pending => Broker.Pending
    case Allowed => Broker.Allowed
    case Denied => Broker.Denied
    case ApprovalInterrupted => Broker.Interrupted
  }

  function DecisionOf(d: Store.Decision): Broker.Decision {
    match d
    case Allow => Broker.Allow
    case Deny => Broker.Deny
  }

  /** What the broker sees of the stored approvals. */
  function Statuses(s: Store.Store): map<string, Broker.Status> {
    map id | id in s.approvals :: StatusOf(s.approvals[id].status)
  }

  /** The one way the store throws after it wrote: the session of the record it changed is missing. */
  predicate Orphaned(s: Store.Store, id: string) {
    id in s.approvals && s.approvals[id].status.Pending? && s.approvals[id].sessionId !in s.sessions
  }

  /** Without an expected version, resolve is the broker's store call; its decision on a record that
      lost its session is written and then thrown away. */
  lemma ResolveProjects(s: Store.Store, id: string, d: Store.Decision, now: int)
    requires Store.RecordsValid(s)
    ensures var (after, outcome) := Store.Step(s, Store.Resolve(id, d, None, now));
            var (records, accepted) := Broker.Resolving(Statuses(s), id, DecisionOf(d),
                                                        if Orphaned(s, id) then Broker.Fails(true) else Broker.Fine);
            Statuses(after) == records && (outcome.Ok? <==> accepted)
  {
  }

  /** So is interrupt, which answers the record as it is afterwards. */
  lemma InterruptProjects(s: Store.Store, id: string, now: int)
    ensures var (after, outcome) := Store.Step(s, Store.Interrupt(id, None, now));
            var (records, status) := Broker.Interrupting(Statuses(s), id,
                                                         if Orphaned(s, id) then Broker.Fails(true) else Broker.Fine);
            Statuses(after) == records && (outcome.Ok? <==> status.Some?)
            && (status.Some? ==> status.value == Statuses(after)[id])
  {
  }

  /** createPending writes nothing when it is refused. */
  lemma CreateProjects(b: Broker.State, r: nat, s: Store.Store, owner: Store.Owner, hash: string)
    requires b.records == Statuses(s) && r < |b.requests| && b.requests[r].phase == Broker.Creating
    ensures var q := b.requests[r];
            var (after, outcome) := Store.Step(s, Store.CreatePending(q.id, q.sessionId, owner, hash));
            var t := Broker.PersistStep(b, r, if outcome.Ok? then Broker.Fine else Broker.Fails(false));
            t.records == Statuses(after)
            && t.requests[r].phase == if outcome.Ok? then Broker.Created(Statuses(after)[q.id]) else Broker.Threw
  {
  }

  // ---------- other clients of the store ----------

  /** A call of another client as the broker sees it: nothing, or a pending record decided elsewhere. */
  function Seen(s: Store.Store, c: Store.Call): seq<Broker.Action> {
    if Statuses(Store.Step(s, c).0) == Statuses(s) then []
    else
      match c
      case Resolve(id, d, _, _) => [Broker.Elsewhere(id, Broker.Target(DecisionOf(d)))]
      case Interrupt(id, _, _) => [Broker.Elsewhere(id, Broker.Interrupted)]
      case _ => []
  }

  function AllSeen(s: Store.Store, calls: seq<Store.Call>): seq<Broker.Action>
    decreases |calls|
  {
    if calls == [] then [] else Seen(s, calls[0]) + AllSeen(Store.Step(s, calls[0]).0, calls[1..])
  }

  predicate OpensApproval(s: Store.Store, c: Store.Call) {
    c.CreatePending? && c.approvalId !in s.approvals
  }

  lemma UntouchedApprovals(s: Store.Store, c: Store.Call)
    requires !OpensApproval(s, c) && !c.Resolve? && !c.Interrupt?
    ensures Store.Step(s, c).0.approvals == s.approvals
  {
  }

  lemma DecidedElsewhere(b: Broker.State, id: string, status: Broker.Status)
    ensures Broker.Run(b, [Broker.Elsewhere(id, status)]) == Broker.ElsewhereStep(b, id, status)
  {
    var a := Broker.Elsewhere(id, status);
    assert [a][1..] == [];
    assert Broker.Run(Broker.Step(b, a), []) == Broker.Step(b, a);
  }

  /** The record a call of another client leaves behind, where it changes one. */
  lemma ChangedRecord(s: Store.Store, c: Store.Call)
    requires (c.Resolve? || c.Interrupt?) && Statuses(Store.Step(s, c).0) != Statuses(s)
    ensures var id := c.approvalId;
            id in s.approvals && s.approvals[id].status.Pending?
            && Statuses(Store.Step(s, c).0) == Statuses(s)[id := if c.Resolve? then Broker.Target(DecisionOf(c.decision))
                                                                  else Broker.Interrupted]
  {
  }

  lemma CallSeen(b: Broker.State, s: Store.Store, c: Store.Call)
    requires b.records == Statuses(s) && !OpensApproval(s, c)
    ensures Broker.Run(b, Seen(s, c)).records == Statuses(Store.Step(s, c).0)
  {
    hide Store.Step, Broker.Step;
    if c.Resolve? || c.Interrupt? {
      if Statuses(Store.Step(s, c).0) != Statuses(s) {
        ChangedRecord(s, c);
        DecidedElsewhere(b, c.approvalId, if c.Resolve? then Broker.Target(DecisionOf(c.decision)) else Broker.Interrupted);
      }
    } else {
      UntouchedApprovals(s, c);
    }
  }

  lemma ApprovalsStay(s: Store.Store, c: Store.Call)
    ensures forall id | id in s.approvals :: id in Store.Step(s, c).0.approvals
  {
  }

  /** Every run of other clients' calls, failed ones included, is a run of the protocol's own steps, as long
      as they open no approval; so what holds of every run of the broker holds beside them. */
  lemma {:induction false} OthersAreElsewhere(b: Broker.State, s: Store.Store, calls: seq<Store.Call>)
    requires b.records == Statuses(s)
    requires forall i | 0 <= i < |calls| :: calls[i].CreatePending? ==> calls[i].approvalId in s.approvals
    ensures Broker.Run(b, AllSeen(s, calls)).records == Statuses(Store.Run(s, calls))
    ensures forall i | 0 <= i < |AllSeen(s, calls)| :: AllSeen(s, calls)[i].Elsewhere?
    decreases |calls|
  {
    if calls != [] {
      var t := Store.Step(s, calls[0]).0;
      var first, rest := Seen(s, calls[0]), AllSeen(t, calls[1..]);
      CallSeen(b, s, calls[0]);
      ApprovalsStay(s, calls[0]);
      OthersAreElsewhere(Broker.Run(b, first), t, calls[1..]);
      Broker.RunJoins(b, first, rest);
    }
  }
}
