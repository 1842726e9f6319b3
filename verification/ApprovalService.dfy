/** The broker and its waiters as the program writes them: fields updated in place, one method for
    each stretch of code between two awaits. Every method is one step of the protocol. */
module ApprovalService {
  import opened Wrappers
  import opened ApprovalBroker

  class ServerApprovalBroker {
    var records: map<string, Status>       // the store's
    var requesting: set<string>
    var entries: map<string, nat>
    var requests: seq<Request>             // the calls under way and over
    var resolves: seq<Resolve>
    var sweeps: seq<Sweep>
    var events: seq<Event>
    ghost var deciders: map<string, Decider>
    ghost var troubled: set<string>

    ghost function Now(): State
      reads this
    {
      State(records, requesting, entries, requests, resolves, sweeps, events, deciders, troubled)
    }

    constructor (stored: map<string, Status>)
      ensures Now() == Fresh(stored)
    {
      records, requesting, entries := stored, {}, map[];
      requests, resolves, sweeps, events := [], [], [], [];
      deciders, troubled := map[], {};
    }

    // ---------- the store ----------

    method StoreInterrupt(id: string, reply: Reply, ghost who: Decider) returns (status: Option<Status>)
      modifies `records, `deciders
      ensures (records, status) == Interrupting(old(records), id, reply)
      ensures deciders == Noted(old(Now()), id, records, who)
    {
      deciders := Noted(Now(), id, Interrupting(records, id, reply).0, who);
      if id !in records {
        return None;
      }
      if reply == Fine || reply.written {
        if records[id] == Pending {
          records := records[id := Interrupted];
        }
      }
      status := if reply == Fine then Some(records[id]) else None;
    }

    method StoreResolve(id: string, d: Decision, reply: Reply, ghost who: Decider) returns (ok: bool)
      modifies `records, `deciders
      ensures (records, ok) == Resolving(old(records), id, d, reply)
      ensures deciders == Noted(old(Now()), id, records, who)
    {
      deciders := Noted(Now(), id, Resolving(records, id, d, reply).0, who);
      if id !in records {
        return false;
      }
      if records[id] == Target(d) {
        return reply == Fine;
      }
      if records[id] != Pending {
        return false;
      }
      if reply == Fine || reply.written {
        records := records[id := Target(d)];
      }
      ok := reply == Fine;
    }

    // ---------- waiters ----------

    /** settle and fail: the first one wins. */
    method Settle(r: nat, o: Settlement)
      requires r < |requests|
      modifies `requests, `entries
      ensures Now() == ApprovalBroker.Settle(old(Now()), r, o)
    {
      if requests[r].settlement != Unsettled {
        return;
      }
      entries := entries - {requests[r].id};
      requests := requests[r := requests[r].(settlement := o)];
    }

    method Finish(r: nat, allowed: bool)
      requires r < |requests|
      modifies `requests, `entries, `events
      ensures Now() == ApprovalBroker.Finish(old(Now()), r, allowed)
    {
      var id := requests[r].id;
      if id !in entries || entries[id] != r {
        return;
      }
      Settle(r, Answer(allowed));
      events := events + [ResolvedEvent(r, allowed)];
    }

    // ---------- a request ----------

    /** requestScoped, up to the call of createPending. */
    method Ask(id: string, sessionId: string) returns (accepted: bool)
      modifies `requesting, `requests
      ensures Now() == Step(old(Now()), Action.Ask(id, sessionId))
      ensures accepted <==> old(id !in requesting && id !in entries)
    {
      if id in requesting {
        return false;
      }
      requesting := requesting + {id};
      if id in entries {
        requesting := requesting - {id};
        return false;
      }
      requests := requests + [Request(id, sessionId, false, Creating, Unsettled, NoAbort, false)];
      accepted := true;
    }

    method Persist(r: nat, reply: Reply)
      requires r < |requests| && requests[r].phase == Creating
      modifies `records, `requests
      ensures Now() == Step(old(Now()), Action.Persist(r, reply))
    {
      var q := requests[r];
      if reply == Fine || reply.written {
        if q.id !in records {
          records := records[q.id := Pending];
        }
      }
      if reply == Fine {
        requests := requests[r := q.(phase := Created(records[q.id]))];
      } else {
        requests := requests[r := q.(phase := Threw)];
      }
    }

    /** persistAndWait after createPending, with the synchronous part of wait. */
    method Proceed(r: nat)
      requires r < |requests| && requests[r].phase.Created?
      modifies `requests, `entries, `events
      ensures Now() == Step(old(Now()), Action.Proceed(r))
    {
      var q := requests[r];
      if q.phase.status != Pending {
        requests := requests[r := q.(phase := Threw)];
        return;
      }
      if q.aborted {
        requests := requests[r := q.(phase := Withdrawing)];
        return;
      }
      if q.id in entries {
        requests := requests[r := q.(phase := Threw)];
        return;
      }
      entries := entries[q.id := r];
      requests := requests[r := q.(phase := Registered)];
      events := events + [RequiredEvent(r)];
    }

    method Withdraw(r: nat, reply: Reply)
      requires r < |requests| && requests[r].phase == Withdrawing
      modifies `records, `requests, `deciders
      ensures Now() == Step(old(Now()), Action.Withdraw(r, reply))
    {
      var status := StoreInterrupt(requests[r].id, reply, Withdrawal(r));
      requests := requests[r := requests[r].(phase := if status.Some? then Withdrawn else Threw)];
    }

    /** The finally of requestScoped. */
    method Return(r: nat)
      requires r < |requests| && CanReturn(requests[r]) && !requests[r].returned
      modifies `requesting, `requests
      ensures Now() == Step(old(Now()), Action.Return(r))
    {
      requesting := requesting - {requests[r].id};
      requests := requests[r := requests[r].(returned := true)];
    }

    // ---------- an abort ----------

    method OnAbort(r: nat)
      requires r < |requests|
      modifies `requests
      ensures Now() == Step(old(Now()), Signal(r))
    {
      var q := requests[r];
      if !q.aborted && q.phase == Registered && q.settlement == Unsettled {
        q := q.(abort := Scheduled);
      }
      requests := requests[r := q.(aborted := true)];
    }

    method AbortInterrupt(r: nat, reply: Reply)
      requires r < |requests| && requests[r].abort == Scheduled
      modifies `records, `requests, `deciders, `troubled
      ensures Now() == Step(old(Now()), AbortWrite(r, reply))
    {
      troubled := if reply == Fine then troubled else troubled + {requests[r].id};
      var status := StoreInterrupt(requests[r].id, reply, Acting(r, reply));
      requests := requests[r := requests[r].(abort := if status.Some? then Wrote(status.value) else Broken)];
    }

    method AbortEnds(r: nat)
      requires r < |requests| && requests[r].abort.Wrote? && Core(Now())
      modifies `requests, `entries, `events
      ensures Now() == Step(old(Now()), AbortFinish(r))
    {
      hide Exclusive, RequestsSound, LaterRefused, ResolvesSound, SweepsSound;
      var id := requests[r].id;
      var allowed := requests[r].abort.status == Allowed;
      if id in entries {
        var active := entries[id];
        Finish(active, allowed);
      }
      requests := requests[r := requests[r].(abort := Concluded(allowed))];
    }

    /** The settle or fail chained to the abort callback. */
    method AbortSettles(r: nat)
      requires r < |requests| && (requests[r].abort.Concluded? || requests[r].abort.Broken?)
      modifies `requests, `entries
      ensures Now() == Step(old(Now()), AbortSettle(r))
    {
      var threw, late := requests[r].abort.Broken?, requests[r].settlement != Unsettled;
      if requests[r].abort.Concluded? {
        Settle(r, Answer(requests[r].abort.allowed));
      } else {
        Settle(r, Rejection);
      }
      requests := requests[r := requests[r].(abort := AbortOver(threw, late))];
    }

    // ---------- a decision ----------

    method ResolveStarts(id: string, decision: Decision)
      modifies `resolves
      ensures Now() == Step(old(Now()), CallResolve(id, decision))
    {
      var stage := Looking;
      if id in entries {
        stage := Holding(entries[id]);
      }
      resolves := resolves + [Resolve(id, decision, stage)];
    }

    method ResolveStores(v: nat, reply: Reply)
      requires v < |resolves| && (resolves[v].stage == Looking || resolves[v].stage.Holding?)
      modifies `records, `resolves, `deciders, `troubled
      ensures Now() == Step(old(Now()), ResolveWrite(v, reply))
    {
      var c := resolves[v];
      if c.stage == Looking {
        var same := false;
        if reply == Fine && c.id in records {
          same := records[c.id] == Target(c.decision);
        }
        resolves := resolves[v := c.(stage := if same then Resolved else Refused)];
      } else {
        troubled := Trouble(Now(), c.id, Resolving(records, c.id, c.decision, reply).0, reply);
        var ok := StoreResolve(c.id, c.decision, reply, Acting(c.stage.waiter, reply));
        resolves := resolves[v := c.(stage := if ok then Decided(c.stage.waiter) else Refused)];
      }
    }

    method ResolveEnds(v: nat)
      requires v < |resolves| && resolves[v].stage.Decided? && resolves[v].stage.waiter < |requests|
      modifies `requests, `entries, `events, `resolves
      ensures Now() == Step(old(Now()), ResolveFinish(v))
    {
      var c := resolves[v];
      Finish(c.stage.waiter, c.decision == Allow);
      resolves := resolves[v := c.(stage := Resolved)];
    }

    // ---------- interruptAll and interruptSession ----------

    /** The spread of the entries into a list. */
    method SweepStarts(session: Option<string>) returns (listing: seq<nat>)
      modifies `sweeps
      ensures Lists(listing, entries)
      ensures Now() == Step(old(Now()), CallSweep(listing, session))
    {
      listing := [];
      var todo := entries.Keys;
      while todo != {}
        invariant todo <= entries.Keys
        invariant forall i | 0 <= i < |listing| :: listing[i] in entries.Values
        invariant forall id | id in entries && id !in todo :: entries[id] in listing
        invariant sweeps == old(sweeps)
        decreases |todo|
      {
        var id :| id in todo;
        listing := listing + [entries[id]];
        todo := todo - {id};
      }
      sweeps := sweeps + [Sweep(listing, session, 0, Between)];
    }

    method SweepInterrupts(k: nat, reply: Reply)
      requires k < |sweeps| && sweeps[k].stage == Between && sweeps[k].next < |sweeps[k].listed|
      requires sweeps[k].listed[sweeps[k].next] < |requests|
      modifies `records, `sweeps, `deciders, `troubled
      ensures Now() == Step(old(Now()), SweepWrite(k, reply))
    {
      var w := sweeps[k];
      var q := requests[w.listed[w.next]];
      if w.session.Some? && q.sessionId != w.session.value {
        sweeps := sweeps[k := w.(next := w.next + 1)];
        return;
      }
      troubled := Trouble(Now(), q.id, Interrupting(records, q.id, reply).0, reply);
      var status := StoreInterrupt(q.id, reply, Acting(w.listed[w.next], reply));
      sweeps := sweeps[k := w.(stage := if status.Some? then Holds(status.value) else Failed)];
    }

    method SweepFinishes(k: nat)
      requires k < |sweeps| && sweeps[k].stage.Holds? && sweeps[k].next < |sweeps[k].listed|
      requires sweeps[k].listed[sweeps[k].next] < |requests|
      modifies `requests, `entries, `events, `sweeps
      ensures Now() == Step(old(Now()), SweepFinish(k))
    {
      var w := sweeps[k];
      Finish(w.listed[w.next], w.stage.status == Allowed);
      sweeps := sweeps[k := w.(next := w.next + 1, stage := Between)];
    }
  }
}
