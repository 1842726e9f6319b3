/** What the approval broker achieves when nothing interferes: from every state that a run can reach, a
    request comes to wait, a decision and an abort answer their waiter, and a bulk interrupt settles
    the waiters it is for and no others. */
module ApprovalProgress {
  import opened Wrappers
  import opened ApprovalBroker

  /** The broker after some run. */
  ghost predicate Reached(s: State) {
    exists records, actions :: s == Run(Fresh(records), actions)
  }

  lemma ReachedIsSound(s: State)
    requires Reached(s)
    ensures Inv(s)
  {
    var records, actions :| s == Run(Fresh(records), actions);
    FreshIsSound(records);
    RunKeepsInv(Fresh(records), actions);
  }

  lemma RunTwo(s: State, a: Action, b: Action)
    ensures Run(s, [a, b]) == Step(Step(s, a), b)
  {
    assert [a, b][1..] == [b] && [b][1..] == [];
    assert Run(Step(Step(s, a), b), []) == Step(Step(s, a), b);
  }

  lemma RunThree(s: State, a: Action, b: Action, c: Action)
    ensures Run(s, [a, b, c]) == Step(Step(Step(s, a), b), c)
  {
    hide Step;
    assert [a, b, c][1..] == [b, c];
    RunTwo(Step(s, a), b, c);
  }

  lemma RunFour(s: State, a: Action, b: Action, c: Action, d: Action)
    ensures Run(s, [a, b, c, d]) == Step(Step(Step(Step(s, a), b), c), d)
  {
    hide Step;
    assert [a, b, c, d][1..] == [b, c, d];
    RunThree(Step(s, a), b, c, d);
  }

  /** A request under a free id comes to wait on its pending record, announced once; under a decided
      record it throws. */
  lemma RequestWaits(s: State, id: string, sessionId: string)
    requires Reached(s) && id !in s.requesting && id !in s.entries
    ensures var r := |s.requests|;
            var t := Run(s, [Ask(id, sessionId), Persist(r, Fine), Proceed(r)]);
            && |t.requests| == r + 1 && t.requests[..r] == s.requests
            && t.requests[r].id == id && t.requests[r].sessionId == sessionId && id in t.records && id in t.requesting
            && if id in s.records && s.records[id] != Pending then
                 t.requests[r].phase == Threw && t.records == s.records && t.events == s.events && t.entries == s.entries
               else
                 Waits(t.requests[r]) && t.records == s.records[id := Pending]
                 && t.entries == s.entries[id := r] && t.events == s.events + [RequiredEvent(r)]
  {
    var r := |s.requests|;
    RunThree(s, Ask(id, sessionId), Persist(r, Fine), Proceed(r));
    var asked := Step(s, Ask(id, sessionId));
    var persisted := Step(asked, Persist(r, Fine));
    assert asked.requests == s.requests + [Request(id, sessionId, false, Creating, Unsettled, NoAbort, false)];
    assert persisted.requests[..r] == s.requests;
  }

  /** A request whose record cannot be created throws; the record exists if it was written all the same. */
  lemma FailedCreation(s: State, id: string, sessionId: string, written: bool)
    requires Reached(s) && id !in s.requesting && id !in s.entries
    ensures var r := |s.requests|;
            var t := Run(s, [Ask(id, sessionId), Persist(r, Fails(written)), Return(r)]);
            && |t.requests| == r + 1 && t.requests[r].phase == Threw && t.requests[r].returned && id !in t.requesting
            && t.entries == s.entries && t.events == s.events
            && t.records == if written && id !in s.records then s.records[id := Pending] else s.records
  {
    var r := |s.requests|;
    RunThree(s, Ask(id, sessionId), Persist(r, Fails(written)), Return(r));
    var asked := Step(s, Ask(id, sessionId));
    assert asked.requests[r] == Request(id, sessionId, false, Creating, Unsettled, NoAbort, false);
    var threw := Step(asked, Persist(r, Fails(written)));
    assert threw.requests[r] == asked.requests[r].(phase := Threw);
  }

  /** A second request under an id whose first has not returned, or still waits, changes nothing. */
  lemma BusyIdRefused(s: State, id: string, sessionId: string)
    requires id in s.requesting || id in s.entries
    ensures Step(s, Ask(id, sessionId)) == s
  {
  }

  /** A request aborted before it is registered interrupts its record, tells nobody and gives the id back. */
  lemma WithdrawnRequest(s: State, r: nat)
    requires r < |s.requests| && s.requests[r].phase == Created(Pending) && s.requests[r].aborted && !s.requests[r].returned
    requires s.requests[r].id in s.records && s.records[s.requests[r].id] == Pending
    ensures var t := Run(s, [Proceed(r), Withdraw(r, Fine), Return(r)]);
            var id := s.requests[r].id;
            && t.requests == s.requests[r := s.requests[r].(phase := Withdrawn, returned := true)]
            && t.records == s.records[id := Interrupted] && t.entries == s.entries && t.events == s.events
            && t.requesting == s.requesting - {id}
  {
    RunThree(s, Proceed(r), Withdraw(r, Fine), Return(r));
    var proceeded := Step(s, Proceed(r));
    assert proceeded == SetRequest(s, r, s.requests[r].(phase := Withdrawing));
    var withdrawn := Step(proceeded, Withdraw(r, Fine));
    assert withdrawn.requests == s.requests[r := s.requests[r].(phase := Withdrawn)];
  }

  /** The waiter of an entry. */
  lemma EntryWaits(s: State, id: string)
    requires Inv(s) && id in s.entries
    ensures var w := s.entries[id];
            w < |s.requests| && s.requests[w].id == id && Waits(s.requests[w]) && id in s.records
  {
    assert Sound(s.requests[s.entries[id]], s.records);
  }

  /** A decision on a pending record is recorded, answers the waiter and is announced, and the call returns. */
  lemma ResolveAnswers(s: State, id: string, d: Decision)
    requires Reached(s) && id in s.entries && id in s.records && s.records[id] == Pending
    ensures var w, v := s.entries[id], |s.resolves|;
            var t := Run(s, [CallResolve(id, d), ResolveWrite(v, Fine), ResolveFinish(v)]);
            && w < |s.requests| && t.requests == s.requests[w := s.requests[w].(settlement := Answer(d == Allow))]
            && t.records == s.records[id := if d == Allow then Allowed else Denied]
            && t.entries == s.entries - {id} && t.events == s.events + [ResolvedEvent(w, d == Allow)]
            && |t.resolves| == v + 1 && t.resolves[v].stage == Resolved
  {
    hide Inv;
    var w, v := s.entries[id], |s.resolves|;
    ReachedIsSound(s);
    EntryWaits(s, id);
    RunThree(s, CallResolve(id, d), ResolveWrite(v, Fine), ResolveFinish(v));
    var called := Step(s, CallResolve(id, d));
    assert called.resolves[v] == Resolve(id, d, Holding(w));
    var written := Step(called, ResolveWrite(v, Fine));
    assert written.resolves[v] == Resolve(id, d, Decided(w));
    assert written.requests == s.requests && written.entries == s.entries && written.events == s.events;
  }

  /** Repeating a decision after the waiter is gone returns, the opposite one is refused; neither changes a record. */
  lemma ResolveAgain(s: State, id: string, d: Decision)
    requires id !in s.entries && id in s.records && s.records[id] != Pending
    ensures var v := |s.resolves|;
            var t := Run(s, [CallResolve(id, d), ResolveWrite(v, Fine)]);
            && t == s.(resolves := t.resolves) && |t.resolves| == v + 1
            && t.resolves[v].stage == if s.records[id] == (if d == Allow then Allowed else Denied) then Resolved else Refused
  {
    RunTwo(s, CallResolve(id, d), ResolveWrite(|s.resolves|, Fine));
  }

  /** A decision whose store call throws is refused, whether or not it was written, and leaves the waiter as it is. */
  lemma FailedDecision(s: State, id: string, d: Decision, written: bool)
    requires Reached(s) && id in s.entries && id in s.records && s.records[id] == Pending
    ensures var v := |s.resolves|;
            var t := Run(s, [CallResolve(id, d), ResolveWrite(v, Fails(written))]);
            && t.requests == s.requests && t.entries == s.entries && t.events == s.events
            && t.records == (if written then s.records[id := if d == Allow then Allowed else Denied] else s.records)
            && |t.resolves| == v + 1 && t.resolves[v].stage == Refused
  {
    hide Inv;
    var w, v := s.entries[id], |s.resolves|;
    RunTwo(s, CallResolve(id, d), ResolveWrite(v, Fails(written)));
    var called := Step(s, CallResolve(id, d));
    assert called.resolves[v] == Resolve(id, d, Holding(w));
  }

  /** An abort interrupts a pending record and answers its waiter no; a record allowed by then answers yes. */
  lemma AbortAnswers(s: State, r: nat)
    requires Reached(s) && r < |s.requests| && Waits(s.requests[r]) && !s.requests[r].aborted
    ensures var t := Run(s, [Signal(r), AbortWrite(r, Fine), AbortFinish(r), AbortSettle(r)]);
            var id := s.requests[r].id;
            && id in s.records && |t.requests| == |s.requests|
            && t.records == s.records[id := if s.records[id] == Pending then Interrupted else s.records[id]]
            && t.requests[r].settlement == Answer(s.records[id] == Allowed)
            && t.entries == s.entries - {id} && t.events == s.events + [ResolvedEvent(r, s.records[id] == Allowed)]
  {
    hide Inv;
    var id := s.requests[r].id;
    ReachedIsSound(s);
    WaiterEntry(s, r);
    EntryWaits(s, id);
    RunFour(s, Signal(r), AbortWrite(r, Fine), AbortFinish(r), AbortSettle(r));
    AbortSignals(s, r);
    var written := Step(Step(s, Signal(r)), AbortWrite(r, Fine));
    AbortFinishes(written, r);
  }

  lemma WaiterEntry(s: State, r: nat)
    requires Inv(s) && r < |s.requests| && Waits(s.requests[r])
    ensures s.requests[r].id in s.entries && s.entries[s.requests[r].id] == r
  {
  }

  lemma AbortSignals(s: State, r: nat)
    requires r < |s.requests| && Waits(s.requests[r]) && !s.requests[r].aborted && s.requests[r].id in s.records
    ensures var t := Step(Step(s, Signal(r)), AbortWrite(r, Fine));
            var id := s.requests[r].id;
            var status := if s.records[id] == Pending then Interrupted else s.records[id];
            && t.records == s.records[id := status] && t.entries == s.entries && t.events == s.events
            && t.requests == s.requests[r := s.requests[r].(aborted := true, abort := Wrote(status))]
  {
    var signalled := Step(s, Signal(r));
    assert signalled.requests == s.requests[r := s.requests[r].(aborted := true, abort := Scheduled)];
  }

  lemma AbortFinishes(s: State, r: nat)
    requires r < |s.requests| && Waits(s.requests[r]) && s.requests[r].abort.Wrote?
    requires s.requests[r].id in s.entries && s.entries[s.requests[r].id] == r
    ensures var t := Step(Step(s, AbortFinish(r)), AbortSettle(r));
            var allowed := s.requests[r].abort.status == Allowed;
            && |t.requests| == |s.requests| && t.records == s.records
            && t.requests[r].settlement == Answer(allowed)
            && t.entries == s.entries - {s.requests[r].id} && t.events == s.events + [ResolvedEvent(r, allowed)]
  {
    var finished := Step(s, AbortFinish(r));
    assert finished.requests[r].abort.Concluded? && finished.requests[r].settlement != Unsettled;
    assert finished.records == s.records;
  }

  /** Trouble comes to an id only by another client's decision, by an abort that failed, or by a call that
      wrote a record and then threw; and it is never forgotten. */
  lemma TroubleNeedsCause(s: State, a: Action, id: string)
    ensures s.troubled <= Step(s, a).troubled
    ensures id in Step(s, a).troubled && id !in s.troubled ==>
              || (a.Elsewhere? && a.id == id && Step(s, a).records != s.records)
              || (a.AbortWrite? && a.reply != Fine && a.r < |s.requests| && s.requests[a.r].id == id && s.requests[a.r].abort == Scheduled)
              || ((a.ResolveWrite? || a.SweepWrite?) && a.reply != Fine && Step(s, a).records != s.records)
  {
  }

  // ---------- a bulk interrupt ----------

  /** The steps of sweep k over its next n waiters, when the store answers. */
  function SweepOn(k: nat, n: nat): seq<Action> {
    if n == 0 then [] else [SweepWrite(k, Fine), SweepFinish(k)] + SweepOn(k, n - 1)
  }

  /** What a sweep of a session may not touch: other waiters, and who is being aborted. */
  ghost predicate Spared(s: State, t: State, session: Option<string>) {
    && |t.requests| == |s.requests|
    && (forall r | 0 <= r < |s.requests| ::
          t.requests[r].abort == s.requests[r].abort && t.requests[r].sessionId == s.requests[r].sessionId)
    && (forall r | 0 <= r < |s.requests| && session.Some? && s.requests[r].sessionId != session.value ::
          t.requests[r] == s.requests[r])
  }

  lemma SparedWrite(s: State, k: nat)
    requires Inv(s) && k < |s.sweeps| && s.sweeps[k].stage == Between && s.sweeps[k].next < |s.sweeps[k].listed|
    ensures var t, w := Step(s, SweepWrite(k, Fine)), s.sweeps[k];
            && t.requests == s.requests && |t.sweeps| == |s.sweeps|
            && w.listed[w.next] < |s.requests|
            && if w.session.None? || w.session.value == s.requests[w.listed[w.next]].sessionId then
                 t.sweeps[k].stage.Holds? && t.sweeps[k] == w.(stage := t.sweeps[k].stage)
               else t.sweeps[k] == w.(next := w.next + 1)
  {
    var w := s.sweeps[k];
    assert SweepSound(w, s.requests, s.records);
    assert Sound(s.requests[w.listed[w.next]], s.records);
  }

  lemma SparedFinish(s: State, k: nat)
    requires Inv(s) && k < |s.sweeps| && s.sweeps[k].stage.Holds?
    ensures var t, w := Step(s, SweepFinish(k)), s.sweeps[k];
            && Spared(s, t, w.session) && |t.sweeps| == |s.sweeps|
            && t.sweeps[k] == w.(next := w.next + 1, stage := Between)
  {
    var w := s.sweeps[k];
    assert SweepSound(w, s.requests, s.records);
  }

  lemma SweepPair(s: State, k: nat)
    requires Inv(s) && k < |s.sweeps| && s.sweeps[k].stage == Between && s.sweeps[k].next < |s.sweeps[k].listed|
    ensures var t, w := Step(Step(s, SweepWrite(k, Fine)), SweepFinish(k)), s.sweeps[k];
            && Inv(t) && Spared(s, t, w.session) && |t.sweeps| == |s.sweeps| && t.sweeps[k] == w.(next := w.next + 1)
  {
    hide Inv, Step;
    var written := Step(s, SweepWrite(k, Fine));
    SparedWrite(s, k);
    StepKeepsInv(s, SweepWrite(k, Fine));
    StepKeepsInv(written, SweepFinish(k));
    if written.sweeps[k].stage.Holds? {
      SparedFinish(written, k);
    } else {
      FinishesNothing(written, k);
    }
  }

  lemma FinishesNothing(s: State, k: nat)
    requires k < |s.sweeps| && !s.sweeps[k].stage.Holds?
    ensures Step(s, SweepFinish(k)) == s
  {
  }

  lemma StepKeepsInv(s: State, a: Action)
    requires Inv(s)
    ensures Inv(Step(s, a))
  {
    hide Core, EventsSound, DecidedSound, CalmSound, Step;
    StepKeepsCore(s, a);
    StepKeepsEvents(s, a);
    StepKeepsDecided(s, a);
    StepKeepsCalm(s, a);
  }

  lemma {:induction false} SweepAdvances(s: State, k: nat, n: nat)
    requires Inv(s) && k < |s.sweeps| && s.sweeps[k].stage == Between && n == |s.sweeps[k].listed| - s.sweeps[k].next
    ensures var t := Run(s, SweepOn(k, n));
            && Inv(t) && Spared(s, t, s.sweeps[k].session) && |t.sweeps| == |s.sweeps|
            && t.sweeps[k] == s.sweeps[k].(next := |s.sweeps[k].listed|)
    decreases n
  {
    hide Inv, Step;
    if n > 0 {
      var first := [SweepWrite(k, Fine), SweepFinish(k)];
      var t := Step(Step(s, SweepWrite(k, Fine)), SweepFinish(k));
      SweepPair(s, k);
      RunTwo(s, SweepWrite(k, Fine), SweepFinish(k));
      SweepAdvances(t, k, n - 1);
      RunJoins(s, first, SweepOn(k, n - 1));
      SparedOn(s, t, Run(t, SweepOn(k, n - 1)), s.sweeps[k].session);
    }
  }

  lemma SparedOn(s: State, t: State, u: State, session: Option<string>)
    requires Spared(s, t, session) && Spared(t, u, session)
    ensures Spared(s, u, session)
  {
  }

  lemma SweptAnswer(s: State, t: State, r: nat)
    requires Inv(s) && Inv(t) && r < |s.requests| && r < |t.requests| && Waits(s.requests[r])
    requires t.requests[r].abort == s.requests[r].abort && t.requests[r].settlement != Unsettled
    ensures var id := t.requests[r].id;
            && id in t.records && t.records[id] != Pending && t.requests[r].settlement == Answer(t.records[id] == Allowed)
  {
    assert Sound(s.requests[r], s.records) && Sound(t.requests[r], t.records);
  }

  /** interruptAll and interruptSession: when the store answers, every waiter of the session, or of all,
      is answered as its record says by then, and the requests of other sessions are as they were. */
  lemma SweepSettles(s: State, listing: seq<nat>, session: Option<string>, r: nat)
    requires Reached(s) && Lists(listing, s.entries) && r < |s.requests|
    ensures var t := Run(CallSweepStep(s, listing, session), SweepOn(|s.sweeps|, |listing|));
            && |t.requests| == |s.requests|
            && (Waits(s.requests[r]) && (session.None? || session.value == s.requests[r].sessionId) ==>
                  var id := s.requests[r].id;
                  && t.requests[r].id == id && id in t.records && t.records[id] != Pending
                  && t.requests[r].settlement == Answer(t.records[id] == Allowed))
            && (session.Some? && s.requests[r].sessionId != session.value ==> t.requests[r] == s.requests[r])
  {
    hide Inv, Step, Run;
    ReachedIsSound(s);
    CallSweepKeepsInv(s, listing, session);
    var called, k := CallSweepStep(s, listing, session), |s.sweeps|;
    assert called.sweeps[k] == Sweep(listing, session, 0, Between);
    SweepAdvances(called, k, |listing|);
    RunKeepsInv(called, SweepOn(k, |listing|));
    var t := Run(called, SweepOn(k, |listing|));
    assert RequestKept(called.requests[r], t.requests[r]);
    if Waits(s.requests[r]) && (session.None? || session.value == s.requests[r].sessionId) {
      WaiterEntry(s, r);
      ListedSettled(t, k, r);
      SweptAnswer(called, t, r);
    }
  }

  lemma ListedSettled(t: State, k: nat, r: nat)
    requires Inv(t) && k < |t.sweeps| && r < |t.requests| && r in t.sweeps[k].listed
    requires t.sweeps[k].next == |t.sweeps[k].listed|
    requires t.sweeps[k].session.None? || t.sweeps[k].session.value == t.requests[r].sessionId
    ensures t.requests[r].settlement != Unsettled
  {
    SweptWaiter(t.sweeps[k], t.requests, t.records, r);
  }
}
