/** The approval broker as a protocol. Requests, decisions, aborts and bulk interrupts run
    interleaved; every await is a step boundary and every call of the store is one step. The store
    may fail at any call, before or after it wrote, and another client may decide a record. */
module ApprovalBroker {
  import opened Wrappers

  // ---------- the protocol's state ----------

  datatype Status = Pending | Allowed | Denied | Interrupted

  datatype Decision = Allow | Deny

  function Target(d: Decision): Status {
    if d == Allow then Allowed else Denied
  }

  /** How far a request has come: persistAndWait up to the registration of its waiter. */
  datatype Phase =
    | Creating                   // createPending is called
    | Created(status: Status)    // and has answered
    | Withdrawing                // aborted before it was registered; interrupt is called
    | Withdrawn                  // false was returned
    | Threw
    | Registered                 // the waiter is listening

  /** The promise of a registered waiter. */
  datatype Settlement = Unsettled | Answer(allowed: bool) | Rejection

  /** The abort callback of a registered waiter. */
  datatype Abort =
    | NoAbort
    | Scheduled                  // the signal fired
    | Wrote(status: Status)      // interrupt has answered
    | Concluded(allowed: bool)   // finish has been called; the chained settle is still to come
    | Broken                     // interrupt threw; the chained fail is still to come
    | AbortOver(threw: bool, late: bool)   // the chained call came late when the waiter was settled before

  datatype Request = Request(
    id: string, sessionId: string, aborted: bool, phase: Phase, settlement: Settlement, abort: Abort, returned: bool)

  /** A call of resolve, with the waiter it found. */
  datatype Resolve = Resolve(id: string, decision: Decision, stage: ResolveStage)

  datatype ResolveStage =
    | Looking                    // no waiter; the record is read
    | Holding(waiter: nat)       // store.resolve is called
    | Decided(waiter: nat)       // and has answered
    | Resolved
    | Refused

  /** A call of interruptAll or interruptSession, over the waiters it listed at the start. */
  datatype Sweep = Sweep(listed: seq<nat>, session: Option<string>, next: nat, stage: SweepStage)

  datatype SweepStage = Between | Holds(status: Status) | Failed

  datatype Event = RequiredEvent(waiter: nat) | ResolvedEvent(waiter: nat, allowed: bool)

  /** Who decided a record: an abort, decision or bulk interrupt whose call of the store for the waiter
      succeeded, a withdrawn request, a call that wrote and then threw, or another client. */
  datatype Decider = ForWaiter(waiter: nat) | Withdrawal(request: nat) | ThrownWrite | OtherClient

  /** Requests are numbered in the order they come; a waiter has its request's number. */
  datatype State = State(
    records: map<string, Status>, requesting: set<string>, entries: map<string, nat>, requests: seq<Request>,
    resolves: seq<Resolve>, sweeps: seq<Sweep>, events: seq<Event>,
    deciders: map<string, Decider>,   // who took a record out of pending during the run
    troubled: set<string>)            // ids another client decided, or whose waiter a failed call left alone

  function Fresh(records: map<string, Status>): State {
    State(records, {}, map[], [], [], [], [], map[], {})
  }

  // ---------- the store ----------

  datatype Reply = Fine | Fails(written: bool)

  /** store.interrupt: the records after it, and the status it answers with unless it throws. */
  function Interrupting(records: map<string, Status>, id: string, reply: Reply): (map<string, Status>, Option<Status>) {
    if id !in records then (records, None)
    else
      var after := if records[id] == Pending then records[id := Interrupted] else records;
      match reply
      case Fine => (after, Some(after[id]))
      case Fails(written) => (if written then after else records, None)
  }

  /** store.resolve, which accepts a decision already made and refuses a different one. */
  function Resolving(records: map<string, Status>, id: string, d: Decision, reply: Reply): (map<string, Status>, bool) {
    if id !in records then (records, false)
    else if records[id] == Pending then
      match reply
      case Fine => (records[id := Target(d)], true)
      case Fails(written) => (if written then records[id := Target(d)] else records, false)
    else (records, reply == Fine && records[id] == Target(d))
  }

  /** The deciders after a record became what it is in after. */
  function Noted(s: State, id: string, after: map<string, Status>, who: Decider): map<string, Decider> {
    if id in s.records && s.records[id] == Pending && id in after && after[id] != Pending then s.deciders[id := who]
    else s.deciders
  }

  /** A call on behalf of a waiter that threw decided for nobody. */
  function Acting(waiter: nat, reply: Reply): Decider {
    if reply == Fine then ForWaiter(waiter) else ThrownWrite
  }

  /** A call that decided the record and then threw leaves its waiter alone. */
  function Trouble(s: State, id: string, after: map<string, Status>, reply: Reply): set<string> {
    if reply != Fine && after != s.records then s.troubled + {id} else s.troubled
  }

  // ---------- settling a waiter ----------

  function SetRequest(s: State, r: nat, q: Request): State
    requires r < |s.requests|
  {
    s.(requests := s.requests[r := q])
  }

  /** settle and fail of one waiter: once only, and the entry goes with it. */
  function Settle(s: State, r: nat, o: Settlement): State
    requires r < |s.requests|
  {
    if s.requests[r].settlement != Unsettled then s
    else SetRequest(s, r, s.requests[r].(settlement := o)).(entries := s.entries - {s.requests[r].id})
  }

  /** finish: only the waiter still registered under its id is settled and announced. */
  function Finish(s: State, r: nat, allowed: bool): State
    requires r < |s.requests|
  {
    var id := s.requests[r].id;
    if id !in s.entries || s.entries[id] != r then s
    else
      var t := Settle(s, r, Answer(allowed));
      t.(events := t.events + [ResolvedEvent(r, allowed)])
  }

  // ---------- steps ----------

  datatype Action =
    | Ask(id: string, sessionId: string)
    | Persist(r: nat, reply: Reply)
    | Proceed(r: nat)
    | Withdraw(r: nat, reply: Reply)
    | Return(r: nat)
    | Signal(r: nat)
    | AbortWrite(r: nat, reply: Reply)
    | AbortFinish(r: nat)
    | AbortSettle(r: nat)
    | CallResolve(id: string, decision: Decision)
    | ResolveWrite(v: nat, reply: Reply)
    | ResolveFinish(v: nat)
    | CallSweep(listing: seq<nat>, session: Option<string>)
    | SweepWrite(k: nat, reply: Reply)
    | SweepFinish(k: nat)
    | Elsewhere(id: string, status: Status)

  /** requestScoped up to its first await; a signal that has already fired never gets here. */
  function AskStep(s: State, id: string, sessionId: string): State {
    if id in s.requesting || id in s.entries then s
    else s.(requesting := s.requesting + {id},
            requests := s.requests + [Request(id, sessionId, false, Creating, Unsettled, NoAbort, false)])
  }

  /** store.createPending: an equal record is answered as it is. */
  function PersistStep(s: State, r: nat, reply: Reply): State
    requires r < |s.requests|
  {
    var q := s.requests[r];
    var after := if q.id in s.records then s.records else s.records[q.id := Pending];
    if q.phase != Creating then s
    else
      match reply
      case Fine => SetRequest(s, r, q.(phase := Created(after[q.id]))).(records := after)
      case Fails(written) =>
        SetRequest(s, r, q.(phase := Threw)).(records := if written then after else s.records)
  }

  /** After createPending: a decided record throws, an aborted request is withdrawn, else the waiter is registered. */
  function ProceedStep(s: State, r: nat): State
    requires r < |s.requests|
  {
    var q := s.requests[r];
    if !q.phase.Created? then s
    else if q.phase.status != Pending then SetRequest(s, r, q.(phase := Threw))
    else if q.aborted then SetRequest(s, r, q.(phase := Withdrawing))
    else if q.id in s.entries then SetRequest(s, r, q.(phase := Threw))
    else
      SetRequest(s, r, q.(phase := Registered)).(entries := s.entries[q.id := r], events := s.events + [RequiredEvent(r)])
  }

  function WithdrawStep(s: State, r: nat, reply: Reply): State
    requires r < |s.requests|
  {
    var q := s.requests[r];
    if q.phase != Withdrawing then s
    else
      var (after, status) := Interrupting(s.records, q.id, reply);
      SetRequest(s, r, q.(phase := if status.Some? then Withdrawn else Threw))
        .(records := after, deciders := Noted(s, q.id, after, Withdrawal(r)))
  }

  /** The finally of requestScoped, once its promise is settled. */
  predicate CanReturn(q: Request) {
    q.phase == Withdrawn || q.phase == Threw || (q.phase == Registered && q.settlement != Unsettled)
  }

  function ReturnStep(s: State, r: nat): State
    requires r < |s.requests|
  {
    var q := s.requests[r];
    if q.returned || !CanReturn(q) then s
    else SetRequest(s, r, q.(returned := true)).(requesting := s.requesting - {q.id})
  }

  /** The request's signal fires; a waiter still listening hears it once. */
  function SignalStep(s: State, r: nat): State
    requires r < |s.requests|
  {
    var q := s.requests[r];
    var heard := !q.aborted && q.phase == Registered && q.settlement == Unsettled;
    SetRequest(s, r, q.(aborted := true, abort := if heard then Scheduled else q.abort))
  }

  function AbortWriteStep(s: State, r: nat, reply: Reply): State
    requires r < |s.requests|
  {
    var q := s.requests[r];
    if q.abort != Scheduled then s
    else
      var (after, status) := Interrupting(s.records, q.id, reply);
      SetRequest(s, r, q.(abort := if status.Some? then Wrote(status.value) else Broken))
        .(records := after, deciders := Noted(s, q.id, after, Acting(r, reply)),
          troubled := if reply == Fine then s.troubled else s.troubled + {q.id})
  }

  /** Whoever is registered under the id by now is finished. */
  function AbortFinishStep(s: State, r: nat): State
    requires r < |s.requests|
  {
    var q := s.requests[r];
    if !q.abort.Wrote? then s
    else
      var allowed := q.abort.status == Allowed;
      var t := if q.id in s.entries && s.entries[q.id] < |s.requests| then Finish(s, s.entries[q.id], allowed) else s;
      SetRequest(t, r, t.requests[r].(abort := Concluded(allowed)))
  }

  function AbortSettleStep(s: State, r: nat): State
    requires r < |s.requests|
  {
    var q := s.requests[r];
    var t := match q.abort
             case Concluded(allowed) => Settle(s, r, Answer(allowed))
             case Broken => Settle(s, r, Rejection)
             case _ => s;
    if q.abort.Concluded? || q.abort.Broken? then
      SetRequest(t, r, t.requests[r].(abort := AbortOver(q.abort.Broken?, q.settlement != Unsettled)))
    else s
  }

  function CallResolveStep(s: State, id: string, d: Decision): State {
    s.(resolves := s.resolves + [Resolve(id, d, if id in s.entries then Holding(s.entries[id]) else Looking)])
  }

  function ResolveWriteStep(s: State, v: nat, reply: Reply): State
    requires v < |s.resolves|
  {
    var c := s.resolves[v];
    match c.stage
    case Looking =>
      // store.get; a failure of it only rejects the call
      var same := reply == Fine && c.id in s.records && s.records[c.id] == Target(c.decision);
      s.(resolves := s.resolves[v := c.(stage := if same then Resolved else Refused)])
    case Holding(w) =>
      var (after, ok) := Resolving(s.records, c.id, c.decision, reply);
      s.(records := after, deciders := Noted(s, c.id, after, Acting(w, reply)), troubled := Trouble(s, c.id, after, reply),
         resolves := s.resolves[v := c.(stage := if ok then Decided(w) else Refused)])
    case _ => s
  }

  function ResolveFinishStep(s: State, v: nat): State
    requires v < |s.resolves|
  {
    var c := s.resolves[v];
    if !c.stage.Decided? || c.stage.waiter >= |s.requests| then s
    else Finish(s, c.stage.waiter, c.decision == Allow).(resolves := s.resolves[v := c.(stage := Resolved)])
  }

  /** The waiters of a state, in any order. */
  ghost predicate Lists(listing: seq<nat>, entries: map<string, nat>) {
    && (forall i | 0 <= i < |listing| :: listing[i] in entries.Values)
    && (forall id | id in entries :: entries[id] in listing)
  }

  ghost function CallSweepStep(s: State, listing: seq<nat>, session: Option<string>): State {
    if Lists(listing, s.entries) then s.(sweeps := s.sweeps + [Sweep(listing, session, 0, Between)]) else s
  }

  function SweepWriteStep(s: State, k: nat, reply: Reply): State
    requires k < |s.sweeps|
  {
    var w := s.sweeps[k];
    if w.stage != Between || w.next >= |w.listed| || w.listed[w.next] >= |s.requests| then s
    else
      var q := s.requests[w.listed[w.next]];
      if w.session.Some? && q.sessionId != w.session.value then s.(sweeps := s.sweeps[k := w.(next := w.next + 1)])
      else
        var (after, status) := Interrupting(s.records, q.id, reply);
        s.(records := after, deciders := Noted(s, q.id, after, Acting(w.listed[w.next], reply)),
           troubled := Trouble(s, q.id, after, reply),
           sweeps := s.sweeps[k := w.(stage := if status.Some? then Holds(status.value) else Failed)])
  }

  function SweepFinishStep(s: State, k: nat): State
    requires k < |s.sweeps|
  {
    var w := s.sweeps[k];
    if !w.stage.Holds? || w.next >= |w.listed| || w.listed[w.next] >= |s.requests| then s
    else
      Finish(s, w.listed[w.next], w.stage.status == Allowed)
        .(sweeps := s.sweeps[k := w.(next := w.next + 1, stage := Between)])
  }

  /** Another client of the store decides a pending record. */
  function ElsewhereStep(s: State, id: string, status: Status): State {
    if id in s.records && s.records[id] == Pending && status != Pending then
      s.(records := s.records[id := status], deciders := s.deciders[id := OtherClient], troubled := s.troubled + {id})
    else s
  }

  ghost function Step(s: State, a: Action): State {
    match a
    case Ask(id, sessionId) => AskStep(s, id, sessionId)
    case Persist(r, reply) => if r < |s.requests| then PersistStep(s, r, reply) else s
    case Proceed(r) => if r < |s.requests| then ProceedStep(s, r) else s
    case Withdraw(r, reply) => if r < |s.requests| then WithdrawStep(s, r, reply) else s
    case Return(r) => if r < |s.requests| then ReturnStep(s, r) else s
    case Signal(r) => if r < |s.requests| then SignalStep(s, r) else s
    case AbortWrite(r, reply) => if r < |s.requests| then AbortWriteStep(s, r, reply) else s
    case AbortFinish(r) => if r < |s.requests| then AbortFinishStep(s, r) else s
    case AbortSettle(r) => if r < |s.requests| then AbortSettleStep(s, r) else s
    case CallResolve(id, d) => CallResolveStep(s, id, d)
    case ResolveWrite(v, reply) => if v < |s.resolves| then ResolveWriteStep(s, v, reply) else s
    case ResolveFinish(v) => if v < |s.resolves| then ResolveFinishStep(s, v) else s
    case CallSweep(listing, session) => CallSweepStep(s, listing, session)
    case SweepWrite(k, reply) => if k < |s.sweeps| then SweepWriteStep(s, k, reply) else s
    case SweepFinish(k) => if k < |s.sweeps| then SweepFinishStep(s, k) else s
    case Elsewhere(id, status) => ElsewhereStep(s, id, status)
  }

  ghost function Run(s: State, actions: seq<Action>): State
    decreases |actions|
  {
    if actions == [] then s else Run(Step(s, actions[0]), actions[1..])
  }

  // ---------- the invariant ----------

  /** One request at a time per id, and the requesting set holds exactly those not yet returned. */
  ghost predicate Exclusive(s: State) {
    && (forall r | 0 <= r < |s.requests| && !s.requests[r].returned :: s.requests[r].id in s.requesting)
    && (forall p, r | 0 <= p < r < |s.requests| && s.requests[p].id == s.requests[r].id :: s.requests[p].returned)
  }

  /** The entries are exactly the registered waiters not yet settled. */
  ghost predicate EntriesAreWaiters(s: State) {
    && (forall id | id in s.entries ::
          s.entries[id] < |s.requests| && s.requests[s.entries[id]].id == id && Waits(s.requests[s.entries[id]]))
    && (forall r | 0 <= r < |s.requests| && Waits(s.requests[r]) ::
          s.requests[r].id in s.entries && s.entries[s.requests[r].id] == r)
  }

  predicate Waits(q: Request) {
    q.phase == Registered && q.settlement == Unsettled
  }

  /** What one request's fields say about each other and about its record. */
  predicate Sound(q: Request, records: map<string, Status>) {
    && (q.phase != Registered ==> q.settlement == Unsettled && q.abort == NoAbort)
    && (q.returned ==> CanReturn(q))
    && (q.phase.Created? ==> q.id in records && (q.phase.status != Pending ==> records[q.id] == q.phase.status))
    && (q.phase == Withdrawing || q.phase == Registered ==> q.id in records)
    && (q.settlement.Answer? ==> records[q.id] != Pending && (q.settlement.allowed <==> records[q.id] == Allowed))
    && (q.settlement == Rejection <==> q.abort == AbortOver(true, false))
    && (q.abort.AbortOver? ==> q.settlement != Unsettled && (q.abort.late || q.abort.threw))
    && (q.abort.AbortOver? && q.abort.late ==> q.settlement.Answer?)
    && (q.abort.Wrote? ==> records[q.id] == q.abort.status && q.abort.status != Pending)
    && (q.abort.Concluded? ==> q.settlement.Answer?)
    && (q.abort != NoAbort ==> q.aborted)
    && (Waits(q) && q.aborted ==> q.abort == Scheduled || q.abort.Wrote? || q.abort == Broken)
  }

  ghost predicate RequestsSound(s: State) {
    forall r | 0 <= r < |s.requests| :: Sound(s.requests[r], s.records)
  }

  /** After an answered request no other of its id gets as far as waiting. */
  ghost predicate LaterRefused(s: State) {
    forall p, r | 0 <= p < r < |s.requests| && s.requests[p].id == s.requests[r].id && s.requests[p].settlement.Answer? ::
      NeverWaits(s.requests[r].phase)
  }

  predicate NeverWaits(p: Phase) {
    p == Creating || p == Threw || (p.Created? && p.status != Pending)
  }

  predicate ResolveSound(c: Resolve, requests: seq<Request>, records: map<string, Status>) {
    && (c.stage.Holding? || c.stage.Decided? ==>
          && c.stage.waiter < |requests|
          && requests[c.stage.waiter].id == c.id && requests[c.stage.waiter].phase == Registered)
    && (c.stage.Decided? || c.stage == Resolved ==> c.id in records && records[c.id] == Target(c.decision))
  }

  ghost predicate ResolvesSound(s: State) {
    forall v | 0 <= v < |s.resolves| :: ResolveSound(s.resolves[v], s.requests, s.records)
  }

  predicate SweepSound(w: Sweep, requests: seq<Request>, records: map<string, Status>) {
    && w.next <= |w.listed|
    && (forall i | 0 <= i < |w.listed| :: w.listed[i] < |requests| && requests[w.listed[i]].phase == Registered)
    && (forall i | 0 <= i < w.next && (w.session.None? || w.session.value == requests[w.listed[i]].sessionId) ::
          requests[w.listed[i]].settlement != Unsettled)
    && (w.stage.Holds? ==>
          && w.next < |w.listed| && w.stage.status != Pending
          && (w.session.Some? ==> w.session.value == requests[w.listed[w.next]].sessionId)
          && requests[w.listed[w.next]].id in records && records[requests[w.listed[w.next]].id] == w.stage.status)
  }

  ghost predicate SweepsSound(s: State) {
    forall k | 0 <= k < |s.sweeps| :: SweepSound(s.sweeps[k], s.requests, s.records)
  }

  // ---------- the events of a waiter ----------

  function Count(events: seq<Event>, e: Event): nat {
    if events == [] then 0 else Count(events[..|events| - 1], e) + if events[|events| - 1] == e then 1 else 0
  }

  function Flag(b: bool): nat {
    if b then 1 else 0
  }

  /** One required event for a registered waiter; one resolved event, with its answer, for an answered one. */
  ghost predicate EventsOf(s: State, r: nat)
    requires r < |s.requests|
  {
    && Count(s.events, RequiredEvent(r)) == Flag(s.requests[r].phase == Registered)
    && forall b :: Count(s.events, ResolvedEvent(r, b)) == Flag(s.requests[r].settlement == Answer(b))
  }

  /** Every event is of a request that came before it. */
  ghost predicate EventsKnown(s: State) {
    forall i | 0 <= i < |s.events| :: s.events[i].waiter < |s.requests|
  }

  ghost predicate EventsSound(s: State) {
    EventsKnown(s) && forall r | 0 <= r < |s.requests| :: EventsOf(s, r)
  }

  // ---------- decided records and their waiters ----------

  /** Somebody is about to finish the waiter. */
  ghost predicate Attended(s: State, r: nat)
    requires r < |s.requests|
  {
    || s.requests[r].abort.Wrote?
    || (exists v :: 0 <= v < |s.resolves| && s.resolves[v].stage == Decided(r))
    || (exists k :: 0 <= k < |s.sweeps| && HoldsWaiter(s.sweeps[k], r))
  }

  predicate HoldsWaiter(w: Sweep, r: nat) {
    w.stage.Holds? && w.next < |w.listed| && w.listed[w.next] == r
  }

  /** A waiter for whom somebody decided its record is about to be finished by that one. */
  ghost predicate DecidedRequest(s: State, r: nat)
    requires r < |s.requests|
  {
    var q := s.requests[r];
    && (Awaits(q) && q.id in s.records && s.records[q.id] != Pending ==> q.id in s.deciders)
    && (Waits(q) && q.id in s.deciders && s.deciders[q.id] == ForWaiter(r) ==> Attended(s, r))
  }

  /** The request has seen its record pending and may still come to wait on it. */
  predicate Awaits(q: Request) {
    Waits(q) || q.phase == Created(Pending) || q.phase == Withdrawing
  }

  predicate DeciderKnown(d: Decider, id: string, requests: seq<Request>) {
    d.ForWaiter? ==> d.waiter < |requests| && requests[d.waiter].phase == Registered && requests[d.waiter].id == id
  }

  ghost predicate DecidedSound(s: State) {
    && (forall id | id in s.deciders ::
          id in s.records && s.records[id] != Pending && DeciderKnown(s.deciders[id], id, s.requests))
    && (forall r | 0 <= r < |s.requests| :: DecidedRequest(s, r))
  }

  ghost predicate CalmRequest(s: State, r: nat)
    requires r < |s.requests|
  {
    var q := s.requests[r];
    && q.settlement != Rejection && q.abort != Broken
    && (q.phase == Created(Pending) || q.phase == Withdrawing ==> q.id in s.records && s.records[q.id] == Pending)
    && (Waits(q) ==>
          q.id in s.records
          && (s.records[q.id] == Pending || (q.id in s.deciders && s.deciders[q.id] == ForWaiter(r))))
  }

  ghost predicate CalmSound(s: State) {
    forall r | 0 <= r < |s.requests| && s.requests[r].id !in s.troubled :: CalmRequest(s, r)
  }

  ghost predicate RequestsInv(s: State) {
    Exclusive(s) && EntriesAreWaiters(s) && RequestsSound(s) && LaterRefused(s)
  }

  ghost predicate Core(s: State) {
    RequestsInv(s) && ResolvesSound(s) && SweepsSound(s)
  }

  ghost predicate Inv(s: State) {
    Core(s) && EventsSound(s) && DecidedSound(s) && CalmSound(s)
  }

  // ---------- what no step undoes ----------

  /** A decided record keeps its status. */
  ghost predicate RecordsKept(before: map<string, Status>, after: map<string, Status>) {
    forall id | id in before :: id in after && (before[id] != Pending ==> after[id] == before[id])
  }

  predicate RequestKept(p: Request, q: Request) {
    && p.id == q.id && p.sessionId == q.sessionId
    && (p.phase == Registered ==> q.phase == Registered)
    && (p.settlement != Unsettled ==> q.settlement == p.settlement)
    && (p.returned ==> q.returned)
  }

  predicate SweepKept(p: Sweep, q: Sweep) {
    p.listed == q.listed && p.session == q.session && p.next <= q.next
  }

  ghost predicate Kept(s: State, t: State) {
    && RecordsKept(s.records, t.records)
    && |s.requests| <= |t.requests| && (forall r | 0 <= r < |s.requests| :: RequestKept(s.requests[r], t.requests[r]))
  }

  ghost predicate Later(s: State, t: State) {
    && Kept(s, t)
    && |s.sweeps| <= |t.sweeps| && (forall k | 0 <= k < |s.sweeps| :: SweepKept(s.sweeps[k], t.sweeps[k]))
    && |s.resolves| <= |t.resolves|
    && s.events <= t.events && s.troubled <= t.troubled
  }

  lemma LaterTransitive(s: State, t: State, u: State)
    requires Later(s, t) && Later(t, u)
    ensures Later(s, u)
  {
    forall r | 0 <= r < |s.requests| ensures RequestKept(s.requests[r], u.requests[r]) {
      assert RequestKept(s.requests[r], t.requests[r]) && RequestKept(t.requests[r], u.requests[r]);
    }
    forall k | 0 <= k < |s.sweeps| ensures SweepKept(s.sweeps[k], u.sweeps[k]) {
      assert SweepKept(s.sweeps[k], t.sweeps[k]) && SweepKept(t.sweeps[k], u.sweeps[k]);
    }
  }

  // ---------- every step keeps the requests in order ----------

  /** A change of one request that neither starts nor ends its wait. */
  ghost predicate Local(s: State, t: State, r: nat)
    requires r < |s.requests|
  {
    && |t.requests| == |s.requests| && t.requests == s.requests[r := t.requests[r]]
    && t.entries == s.entries && t.requesting == s.requesting && RecordsKept(s.records, t.records)
    && RequestKept(s.requests[r], t.requests[r]) && s.requests[r].returned == t.requests[r].returned
    && s.requests[r].settlement == t.requests[r].settlement && Waits(s.requests[r]) == Waits(t.requests[r])
    && Sound(t.requests[r], t.records)
    && (forall p | 0 <= p < r && s.requests[p].id == s.requests[r].id && s.requests[p].settlement.Answer? ::
          NeverWaits(t.requests[r].phase))
  }

  lemma LocalKeeps(s: State, t: State, r: nat)
    requires r < |s.requests| && RequestsInv(s) && Local(s, t, r)
    ensures RequestsInv(t) && Kept(s, t)
  {
  }

  lemma RecordsKeep(s: State, t: State)
    requires RequestsInv(s) && RecordsKept(s.records, t.records)
    requires t.requests == s.requests && t.entries == s.entries && t.requesting == s.requesting
    ensures RequestsInv(t) && Kept(s, t)
  {
  }

  lemma NewIsSound(id: string, sessionId: string, records: map<string, Status>)
    ensures Sound(Request(id, sessionId, false, Creating, Unsettled, NoAbort, false), records)
  {
  }

  lemma AskKeeps(s: State, id: string, sessionId: string)
    requires RequestsInv(s)
    ensures RequestsInv(AskStep(s, id, sessionId)) && Kept(s, AskStep(s, id, sessionId))
  {
    hide Sound;
    NewIsSound(id, sessionId, s.records);
  }

  lemma PersistKeeps(s: State, r: nat, reply: Reply)
    requires r < |s.requests| && RequestsInv(s)
    ensures RequestsInv(PersistStep(s, r, reply)) && Kept(s, PersistStep(s, r, reply))
  {
    assert Sound(s.requests[r], s.records);
    if s.requests[r].phase == Creating {
      assert forall p | 0 <= p < r && s.requests[p].id == s.requests[r].id && s.requests[p].settlement.Answer? ::
          Sound(s.requests[p], s.records);
      LocalKeeps(s, PersistStep(s, r, reply), r);
    }
  }

  lemma ProceedKeeps(s: State, r: nat)
    requires r < |s.requests| && RequestsInv(s)
    ensures RequestsInv(ProceedStep(s, r)) && Kept(s, ProceedStep(s, r))
  {
    var q := s.requests[r];
    assert Sound(q, s.records);
    if q.phase == Created(Pending) && !q.aborted && q.id !in s.entries {
      Registering(s, r);
    } else if q.phase.Created? {
      LocalKeeps(s, ProceedStep(s, r), r);
    }
  }

  lemma Registering(s: State, r: nat)
    requires r < |s.requests| && RequestsInv(s)
    requires s.requests[r].phase == Created(Pending) && !s.requests[r].aborted && s.requests[r].id !in s.entries
    ensures var t := SetRequest(s, r, s.requests[r].(phase := Registered)).(entries := s.entries[s.requests[r].id := r]);
            RequestsInv(t) && Kept(s, t)
  {
    var q := s.requests[r];
    assert Sound(q, s.records) && Sound(q.(phase := Registered), s.records);
    hide Sound;
  }

  lemma WithdrawKeeps(s: State, r: nat, reply: Reply)
    requires r < |s.requests| && RequestsInv(s)
    ensures RequestsInv(WithdrawStep(s, r, reply)) && Kept(s, WithdrawStep(s, r, reply))
  {
    assert Sound(s.requests[r], s.records);
    if s.requests[r].phase == Withdrawing {
      LocalKeeps(s, WithdrawStep(s, r, reply), r);
    }
  }

  lemma ReturnKeeps(s: State, r: nat)
    requires r < |s.requests| && RequestsInv(s)
    ensures RequestsInv(ReturnStep(s, r)) && Kept(s, ReturnStep(s, r))
  {
    var q := s.requests[r];
    assert Sound(q, s.records) && (CanReturn(q) ==> Sound(q.(returned := true), s.records));
    hide Sound, CanReturn;
  }

  lemma SignalKeeps(s: State, r: nat)
    requires r < |s.requests| && RequestsInv(s)
    ensures RequestsInv(SignalStep(s, r)) && Kept(s, SignalStep(s, r))
  {
    assert Sound(s.requests[r], s.records);
    LocalKeeps(s, SignalStep(s, r), r);
  }

  lemma AbortWriteKeeps(s: State, r: nat, reply: Reply)
    requires r < |s.requests| && RequestsInv(s)
    ensures RequestsInv(AbortWriteStep(s, r, reply)) && Kept(s, AbortWriteStep(s, r, reply))
  {
    assert Sound(s.requests[r], s.records);
    if s.requests[r].abort == Scheduled {
      LocalKeeps(s, AbortWriteStep(s, r, reply), r);
    }
  }

  lemma SettleKeeps(s: State, r: nat, o: Settlement)
    requires r < |s.requests| && RequestsInv(s) && Waits(s.requests[r])
    requires o == Rejection || (o.Answer? && s.records[s.requests[r].id] != Pending)
    requires o.Answer? ==> (o.allowed <==> s.records[s.requests[r].id] == Allowed)
    ensures var t := Settle(s, r, o);
            && Exclusive(t) && EntriesAreWaiters(t) && LaterRefused(t) && Kept(s, t)
            && (forall p | 0 <= p < |s.requests| && p != r :: Sound(t.requests[p], t.records))
  {
  }

  /** Finishing a waiter whose record is decided settles it, if it still waits. */
  lemma FinishKeeps(s: State, w: nat, allowed: bool)
    requires w < |s.requests| && RequestsInv(s) && s.requests[w].phase == Registered
    requires s.records[s.requests[w].id] != Pending && (allowed <==> s.records[s.requests[w].id] == Allowed)
    ensures var t := Finish(s, w, allowed);
            && RequestsInv(t) && Kept(s, t) && t.requests[w].settlement != Unsettled && t.records == s.records
            && t.requests == (if Waits(s.requests[w]) then s.requests[w := s.requests[w].(settlement := Answer(allowed))] else s.requests)
            && t.events == (if Waits(s.requests[w]) then s.events + [ResolvedEvent(w, allowed)] else s.events)
  {
    assert Sound(s.requests[w], s.records);
    if Waits(s.requests[w]) {
      SettleKeeps(s, w, Answer(allowed));
    }
  }

  /** The waiter an abort callback finds under its id is its own. */
  lemma AbortOfEntry(s: State, r: nat)
    requires r < |s.requests| && RequestsInv(s) && s.requests[r].abort.Wrote?
    ensures s.requests[r].id in s.entries ==> s.entries[s.requests[r].id] == r
    ensures Waits(s.requests[r]) <==> s.requests[r].id in s.entries
  {
    var q := s.requests[r];
    assert Sound(q, s.records);
  }

  lemma AbortFinishKeeps(s: State, r: nat)
    requires r < |s.requests| && RequestsInv(s)
    ensures var t := AbortFinishStep(s, r);
            && RequestsInv(t) && Kept(s, t)
            && (s.requests[r].abort.Wrote? && Waits(s.requests[r]) ==>
                  t.events == s.events + [ResolvedEvent(r, s.requests[r].abort.status == Allowed)])
            && (!(s.requests[r].abort.Wrote? && Waits(s.requests[r])) ==> t.events == s.events)
  {
    hide Exclusive, EntriesAreWaiters;
    var q := s.requests[r];
    assert Sound(q, s.records);
    if q.abort.Wrote? {
      AbortOfEntry(s, r);
      var t := Finish(s, r, q.abort.status == Allowed);
      FinishKeeps(s, r, q.abort.status == Allowed);
      assert Sound(t.requests[r], t.records);
      LocalKeeps(t, AbortFinishStep(s, r), r);
    }
  }

  /** The settle chained to an abort that went well finds its waiter settled. */
  lemma AbortSettleKeeps(s: State, r: nat)
    requires r < |s.requests| && RequestsInv(s)
    ensures RequestsInv(AbortSettleStep(s, r)) && Kept(s, AbortSettleStep(s, r))
    ensures s.requests[r].abort.Concluded? ==> AbortSettleStep(s, r) == SetRequest(s, r, s.requests[r].(abort := AbortOver(false, true)))
  {
    var q := s.requests[r];
    assert Sound(q, s.records);
    if q.abort == Broken && Waits(q) {
      var t := Settle(s, r, Rejection);
      var u := AbortSettleStep(s, r);
      SettleKeeps(s, r, Rejection);
      Rejected(s, t, u, r);
    } else if q.abort == Broken || q.abort.Concluded? {
      LocalKeeps(s, AbortSettleStep(s, r), r);
    }
  }

  lemma Rejected(s: State, t: State, u: State, r: nat)
    requires r < |t.requests| && |s.requests| == |t.requests|
    requires Exclusive(t) && EntriesAreWaiters(t) && LaterRefused(t) && Kept(s, t)
    requires forall p | 0 <= p < |t.requests| && p != r :: Sound(t.requests[p], t.records)
    requires u == SetRequest(t, r, t.requests[r].(abort := AbortOver(true, false))) && Sound(u.requests[r], t.records)
    ensures RequestsInv(u) && Kept(s, u)
  {
  }

  // ---------- and every thread's view of them ----------

  lemma ThreadsKept(s: State, t: State)
    requires ResolvesSound(s) && SweepsSound(s) && Kept(s, t)
    ensures forall v | 0 <= v < |s.resolves| :: ResolveSound(s.resolves[v], t.requests, t.records)
    ensures forall k | 0 <= k < |s.sweeps| :: SweepSound(s.sweeps[k], t.requests, t.records)
  {
    forall k | 0 <= k < |s.sweeps| ensures SweepSound(s.sweeps[k], t.requests, t.records) {
      assert SweepSound(s.sweeps[k], s.requests, s.records);
      SweepStays(s, t, s.sweeps[k]);
    }
  }

  lemma SweepStays(s: State, t: State, w: Sweep)
    requires SweepSound(w, s.requests, s.records) && Kept(s, t)
    ensures SweepSound(w, t.requests, t.records)
  {
  }

  lemma ResolveFinishKeeps(s: State, v: nat)
    requires v < |s.resolves| && Core(s)
    ensures Core(ResolveFinishStep(s, v)) && Later(s, ResolveFinishStep(s, v))
  {
    hide Exclusive, EntriesAreWaiters, LaterRefused, RequestsSound;
    var c := s.resolves[v];
    assert ResolveSound(c, s.requests, s.records);
    if c.stage.Decided? {
      FinishKeeps(s, c.stage.waiter, c.decision == Allow);
      var t := Finish(s, c.stage.waiter, c.decision == Allow);
      ThreadsKept(s, t);
      RecordsKeep(t, ResolveFinishStep(s, v));
    }
  }

  /** A sweep whose current waiter is settled moves on. */
  lemma SweepMovesOn(w: Sweep, requests: seq<Request>, records: map<string, Status>)
    requires SweepSound(w, requests, records) && w.stage.Holds?
    requires requests[w.listed[w.next]].settlement != Unsettled
    ensures SweepSound(w.(next := w.next + 1, stage := Between), requests, records)
  {
  }

  lemma SweepHolds(s: State, w: Sweep)
    requires SweepSound(w, s.requests, s.records) && w.stage.Holds?
    ensures w.next < |w.listed| && w.listed[w.next] < |s.requests|
    ensures var q := s.requests[w.listed[w.next]];
            q.phase == Registered && q.id in s.records && s.records[q.id] == w.stage.status && w.stage.status != Pending
  {
  }

  lemma SweepFinishKeeps(s: State, k: nat)
    requires k < |s.sweeps| && Core(s)
    ensures Core(SweepFinishStep(s, k)) && Later(s, SweepFinishStep(s, k))
  {
    hide Exclusive, EntriesAreWaiters, LaterRefused, RequestsSound, SweepSound, ResolveSound;
    var w := s.sweeps[k];
    if w.stage.Holds? {
      SweepHolds(s, w);
      var t := Finish(s, w.listed[w.next], w.stage.status == Allowed);
      FinishKeeps(s, w.listed[w.next], w.stage.status == Allowed);
      ThreadsKept(s, t);
      SweepMovesOn(w, t.requests, t.records);
      RecordsKeep(t, SweepFinishStep(s, k));
    }
  }

  lemma ResolveWriteKeeps(s: State, v: nat, reply: Reply)
    requires v < |s.resolves| && Core(s)
    ensures Core(ResolveWriteStep(s, v, reply)) && Later(s, ResolveWriteStep(s, v, reply))
  {
    hide Exclusive, EntriesAreWaiters, LaterRefused, RequestsSound;
    assert ResolveSound(s.resolves[v], s.requests, s.records);
    var t := ResolveWriteStep(s, v, reply);
    RecordsKeep(s, t);
    ThreadsKept(s, t);
  }

  /** A sweep takes the answer of its interrupt, or skips a waiter of another session. */
  lemma SweepTakes(s: State, k: nat, reply: Reply)
    requires k < |s.sweeps| && SweepSound(s.sweeps[k], s.requests, s.records) && RequestsSound(s)
    ensures var t := SweepWriteStep(s, k, reply);
            && SweepSound(t.sweeps[k], s.requests, t.records) && RecordsKept(s.records, t.records)
            && SweepKept(s.sweeps[k], t.sweeps[k])
  {
    var w := s.sweeps[k];
    if w.stage == Between && w.next < |w.listed| {
      assert Sound(s.requests[w.listed[w.next]], s.records);
    }
  }

  lemma SweepWriteKeeps(s: State, k: nat, reply: Reply)
    requires k < |s.sweeps| && Core(s)
    ensures Core(SweepWriteStep(s, k, reply)) && Later(s, SweepWriteStep(s, k, reply))
  {
    hide Exclusive, EntriesAreWaiters, LaterRefused, RequestsSound, SweepSound, ResolveSound, RecordsKept, Interrupting;
    var t := SweepWriteStep(s, k, reply);
    SweepTakes(s, k, reply);
    RecordsKeep(s, t);
    ThreadsKept(s, t);
  }

  lemma CallResolveKeeps(s: State, id: string, d: Decision)
    requires Core(s)
    ensures Core(CallResolveStep(s, id, d)) && Later(s, CallResolveStep(s, id, d))
  {
    hide Sound, SweepSound;
  }

  lemma CallSweepKeeps(s: State, listing: seq<nat>, session: Option<string>)
    requires Core(s)
    ensures Core(CallSweepStep(s, listing, session)) && Later(s, CallSweepStep(s, listing, session))
  {
    hide Sound, ResolveSound;
  }

  lemma RequestStepKeeps(s: State, a: Action)
    requires Core(s) && (a.Ask? || a.Persist? || a.Proceed? || a.Withdraw? || a.Return? || a.Signal?)
    ensures RequestsInv(Step(s, a)) && Kept(s, Step(s, a))
  {
    hide Exclusive, EntriesAreWaiters, LaterRefused, RequestsSound, SweepsSound, ResolvesSound;
    match a
    case Ask(id, sessionId) => AskKeeps(s, id, sessionId);
    case Persist(r, reply) => if r < |s.requests| { PersistKeeps(s, r, reply); }
    case Proceed(r) => if r < |s.requests| { ProceedKeeps(s, r); }
    case Withdraw(r, reply) => if r < |s.requests| { WithdrawKeeps(s, r, reply); }
    case Return(r) => if r < |s.requests| { ReturnKeeps(s, r); }
    case Signal(r) => if r < |s.requests| { SignalKeeps(s, r); }
  }

  lemma AbortStepKeeps(s: State, a: Action)
    requires Core(s) && (a.AbortWrite? || a.AbortFinish? || a.AbortSettle? || a.Elsewhere?)
    ensures RequestsInv(Step(s, a)) && Kept(s, Step(s, a))
  {
    hide Exclusive, EntriesAreWaiters, LaterRefused, RequestsSound, SweepsSound, ResolvesSound;
    match a
    case AbortWrite(r, reply) => if r < |s.requests| { AbortWriteKeeps(s, r, reply); }
    case AbortFinish(r) => if r < |s.requests| { AbortFinishKeeps(s, r); }
    case AbortSettle(r) => if r < |s.requests| { AbortSettleKeeps(s, r); }
    case Elsewhere(id, status) => RecordsKeep(s, Step(s, a));
  }

  lemma ThreadStepKeeps(s: State, a: Action)
    requires Core(s)
    requires a.CallResolve? || a.ResolveWrite? || a.ResolveFinish? || a.CallSweep? || a.SweepWrite? || a.SweepFinish?
    ensures Core(Step(s, a)) && Later(s, Step(s, a))
  {
    hide Exclusive, EntriesAreWaiters, LaterRefused, RequestsSound, SweepsSound, ResolvesSound;
    match a
    case CallResolve(id, d) => CallResolveKeeps(s, id, d);
    case ResolveWrite(v, reply) => if v < |s.resolves| { ResolveWriteKeeps(s, v, reply); }
    case ResolveFinish(v) => if v < |s.resolves| { ResolveFinishKeeps(s, v); }
    case CallSweep(listing, session) => CallSweepKeeps(s, listing, session);
    case SweepWrite(k, reply) => if k < |s.sweeps| { SweepWriteKeeps(s, k, reply); }
    case SweepFinish(k) => if k < |s.sweeps| { SweepFinishKeeps(s, k); }
  }

  /** Every step keeps the core, and undoes nothing. */
  lemma StepKeepsCore(s: State, a: Action)
    requires Core(s)
    ensures Core(Step(s, a)) && Later(s, Step(s, a))
  {
    hide Exclusive, EntriesAreWaiters, LaterRefused, RequestsSound, Step;
    if a.CallResolve? || a.ResolveWrite? || a.ResolveFinish? || a.CallSweep? || a.SweepWrite? || a.SweepFinish? {
      ThreadStepKeeps(s, a);
    } else {
      if a.AbortWrite? || a.AbortFinish? || a.AbortSettle? || a.Elsewhere? {
        AbortStepKeeps(s, a);
        AbortsBeside(s, a);
      } else {
        RequestStepKeeps(s, a);
        RequestsBeside(s, a);
      }
      ThreadsKept(s, Step(s, a));
    }
  }

  /** Resolve calls and sweeps untouched, events only added. */
  ghost predicate Beside(s: State, t: State) {
    t.resolves == s.resolves && t.sweeps == s.sweeps && s.events <= t.events && s.troubled <= t.troubled
  }

  lemma RequestsBeside(s: State, a: Action)
    requires a.Ask? || a.Persist? || a.Proceed? || a.Withdraw? || a.Return? || a.Signal?
    ensures Beside(s, Step(s, a))
  {
  }

  lemma AbortsBeside(s: State, a: Action)
    requires a.AbortWrite? || a.AbortFinish? || a.AbortSettle? || a.Elsewhere?
    ensures Beside(s, Step(s, a))
  {
  }

  // ---------- events ----------

  lemma CountAppend(events: seq<Event>, e: Event, f: Event)
    ensures Count(events + [e], f) == Count(events, f) + Flag(e == f)
  {
    assert (events + [e])[..|events|] == events;
  }

  lemma {:induction false} CountUnknown(events: seq<Event>, e: Event)
    requires forall i | 0 <= i < |events| :: events[i].waiter < e.waiter
    ensures Count(events, e) == 0
  {
    if events != [] {
      CountUnknown(events[..|events| - 1], e);
    }
  }

  /** The flags the events of a waiter count. */
  ghost predicate SameFlags(p: Request, q: Request) {
    (p.phase == Registered <==> q.phase == Registered) && forall b :: p.settlement == Answer(b) <==> q.settlement == Answer(b)
  }

  lemma EventsCarry(s: State, t: State)
    requires EventsSound(s) && t.events == s.events && |s.requests| <= |t.requests|
    requires forall r | 0 <= r < |s.requests| :: SameFlags(s.requests[r], t.requests[r])
    requires forall r | |s.requests| <= r < |t.requests| :: t.requests[r].phase == Creating && t.requests[r].settlement == Unsettled
    ensures EventsSound(t)
  {
    forall r | 0 <= r < |t.requests| ensures EventsOf(t, r) {
      if r < |s.requests| {
        assert EventsOf(s, r) && SameFlags(s.requests[r], t.requests[r]);
      } else {
        CountUnknown(s.events, RequiredEvent(r));
        CountUnknown(s.events, ResolvedEvent(r, true));
        CountUnknown(s.events, ResolvedEvent(r, false));
      }
    }
  }

  /** One more event, for the one flag that was raised. */
  lemma EventsAppend(s: State, t: State, w: nat, e: Event)
    requires EventsSound(s) && t.events == s.events + [e] && |s.requests| == |t.requests|
    requires w < |s.requests| && e.waiter == w
    requires forall r | 0 <= r < |s.requests| && r != w :: SameFlags(s.requests[r], t.requests[r])
    requires var p, q := s.requests[w], t.requests[w];
             match e
             case RequiredEvent(_) => p.phase != Registered && q.phase == Registered && p.settlement == q.settlement
             case ResolvedEvent(_, b) => p.phase == q.phase && p.settlement == Unsettled && q.settlement == Answer(b)
    ensures EventsSound(t)
  {
    forall r | 0 <= r < |t.requests| ensures EventsOf(t, r) {
      assert EventsOf(s, r);
      CountAppend(s.events, e, RequiredEvent(r));
      CountAppend(s.events, e, ResolvedEvent(r, true));
      CountAppend(s.events, e, ResolvedEvent(r, false));
      if r != w {
        assert SameFlags(s.requests[r], t.requests[r]);
      }
    }
  }

  lemma FinishEvents(s: State, w: nat, allowed: bool)
    requires Core(s) && EventsSound(s) && w < |s.requests| && s.requests[w].phase == Registered
    requires s.records[s.requests[w].id] != Pending && (allowed <==> s.records[s.requests[w].id] == Allowed)
    ensures EventsSound(Finish(s, w, allowed))
  {
    hide EventsSound;
    FinishKeeps(s, w, allowed);
    if Waits(s.requests[w]) {
      EventsAppend(s, Finish(s, w, allowed), w, ResolvedEvent(w, allowed));
    } else {
      EventsCarry(s, Finish(s, w, allowed));
    }
  }

  lemma ProceedEvents(s: State, r: nat)
    requires r < |s.requests| && Core(s) && EventsSound(s)
    ensures EventsSound(ProceedStep(s, r))
  {
    hide EventsSound, EntriesAreWaiters, Exclusive, LaterRefused;
    var t := ProceedStep(s, r);
    assert Sound(s.requests[r], s.records);
    if s.requests[r].phase.Created? && t.requests[r].phase == Registered {
      EventsAppend(s, t, r, RequiredEvent(r));
    } else {
      EventsCarry(s, t);
    }
  }

  lemma AbortFinishEvents(s: State, r: nat)
    requires r < |s.requests| && Core(s) && EventsSound(s)
    ensures EventsSound(AbortFinishStep(s, r))
  {
    hide EventsSound, EntriesAreWaiters, Exclusive, LaterRefused;
    if s.requests[r].abort.Wrote? {
      assert Sound(s.requests[r], s.records);
      AbortOfEntry(s, r);
      FinishEvents(s, r, s.requests[r].abort.status == Allowed);
      EventsCarry(Finish(s, r, s.requests[r].abort.status == Allowed), AbortFinishStep(s, r));
    }
  }

  lemma ResolveFinishEvents(s: State, v: nat)
    requires v < |s.resolves| && Core(s) && EventsSound(s)
    ensures EventsSound(ResolveFinishStep(s, v))
  {
    hide EventsSound, EntriesAreWaiters, Exclusive, LaterRefused;
    var c := s.resolves[v];
    if c.stage.Decided? {
      assert ResolveSound(c, s.requests, s.records);
      FinishEvents(s, c.stage.waiter, c.decision == Allow);
      EventsCarry(Finish(s, c.stage.waiter, c.decision == Allow), ResolveFinishStep(s, v));
    }
  }

  lemma SweepFinishEvents(s: State, k: nat)
    requires k < |s.sweeps| && Core(s) && EventsSound(s)
    ensures EventsSound(SweepFinishStep(s, k))
  {
    hide EventsSound, EntriesAreWaiters, Exclusive, LaterRefused;
    var w := s.sweeps[k];
    if w.stage.Holds? {
      assert SweepSound(w, s.requests, s.records);
      FinishEvents(s, w.listed[w.next], w.stage.status == Allowed);
      EventsCarry(Finish(s, w.listed[w.next], w.stage.status == Allowed), SweepFinishStep(s, k));
    }
  }

  lemma RequestStepEvents(s: State, a: Action)
    requires EventsSound(s)
    requires a.Ask? || a.Persist? || a.Withdraw?
    ensures EventsSound(Step(s, a))
  {
    hide EventsSound, Interrupting;
    EventsCarry(s, Step(s, a));
  }

  lemma QuietStepEvents(s: State, a: Action)
    requires EventsSound(s)
    requires a.Return? || a.Signal?
    ensures EventsSound(Step(s, a))
  {
    hide EventsSound, CanReturn;
    EventsCarry(s, Step(s, a));
  }

  lemma AbortStepEvents(s: State, a: Action)
    requires EventsSound(s) && RequestsSound(s) && (a.AbortWrite? || a.AbortSettle?)
    ensures EventsSound(Step(s, a))
  {
    hide EventsSound;
    if a.r < |s.requests| {
      assert Sound(s.requests[a.r], s.records);
    }
    EventsCarry(s, Step(s, a));
  }

  lemma ThreadStepEvents(s: State, a: Action)
    requires EventsSound(s)
    requires a.CallResolve? || a.ResolveWrite? || a.CallSweep? || a.SweepWrite? || a.Elsewhere?
    ensures EventsSound(Step(s, a))
  {
    hide EventsSound;
    EventsCarry(s, Step(s, a));
  }

  lemma StepKeepsEvents(s: State, a: Action)
    requires Core(s) && EventsSound(s)
    ensures EventsSound(Step(s, a))
  {
    hide EventsSound, Exclusive, EntriesAreWaiters, LaterRefused, RequestsSound, ResolvesSound, SweepsSound;
    match a
    case Proceed(r) => if r < |s.requests| { ProceedEvents(s, r); }
    case AbortFinish(r) => if r < |s.requests| { AbortFinishEvents(s, r); }
    case ResolveFinish(v) => if v < |s.resolves| { ResolveFinishEvents(s, v); }
    case SweepFinish(k) => if k < |s.sweeps| { SweepFinishEvents(s, k); }
    case AbortWrite(r, reply) => AbortStepEvents(s, a);
    case AbortSettle(r) => AbortStepEvents(s, a);
    case Ask(id, sessionId) => RequestStepEvents(s, a);
    case Persist(r, reply) => RequestStepEvents(s, a);
    case Withdraw(r, reply) => RequestStepEvents(s, a);
    case Return(r) => QuietStepEvents(s, a);
    case Signal(r) => QuietStepEvents(s, a);
    case _ => ThreadStepEvents(s, a);
  }

  // ---------- undisturbed runs ----------

  lemma AttendedStays(s: State, t: State, r: nat)
    requires r < |s.requests| && r < |t.requests| && Attended(s, r)
    requires s.requests[r].abort.Wrote? ==> t.requests[r].abort.Wrote?
    requires |s.resolves| <= |t.resolves|
    requires forall v | 0 <= v < |s.resolves| && s.resolves[v].stage == Decided(r) :: t.resolves[v].stage == Decided(r)
    requires |s.sweeps| <= |t.sweeps|
    requires forall k | 0 <= k < |s.sweeps| && HoldsWaiter(s.sweeps[k], r) :: HoldsWaiter(t.sweeps[k], r)
    ensures Attended(t, r)
  {
    if v :| 0 <= v < |s.resolves| && s.resolves[v].stage == Decided(r) {
      assert t.resolves[v].stage == Decided(r);
    } else if k :| 0 <= k < |s.sweeps| && HoldsWaiter(s.sweeps[k], r) {
      assert HoldsWaiter(t.sweeps[k], r);
    }
  }

  /** Only its own writer can have taken an untroubled waiter's record out of pending. */
  lemma WriterIsOwn(s: State, w: nat, r: nat)
    requires Core(s) && CalmSound(s) && w < |s.requests| && r < |s.requests| && s.requests[r].id !in s.troubled
    requires s.requests[w].phase == Registered && s.requests[w].id == s.requests[r].id && s.records[s.requests[w].id] == Pending
    requires Awaits(s.requests[r])
    ensures w == r
  {
    assert Sound(s.requests[w], s.records) && Sound(s.requests[r], s.records);
    assert CalmRequest(s, w) && CalmRequest(s, r);
  }

  lemma AskStepCalm(s: State, a: Action)
    requires Core(s) && CalmSound(s)
    requires a.Ask?
    ensures CalmSound(Step(s, a))
  {
    hide Exclusive, EntriesAreWaiters, RequestsSound, LaterRefused, ResolvesSound, SweepsSound;
    var t := Step(s, a);
    forall x | 0 <= x < |t.requests| && t.requests[x].id !in t.troubled ensures CalmRequest(t, x) {
      if x < |s.requests| {
        assert CalmRequest(s, x);
      }
    }
  }

  lemma PersistStepCalm(s: State, a: Action)
    requires Core(s) && CalmSound(s)
    requires a.Persist?
    ensures CalmSound(Step(s, a))
  {
    hide Exclusive, EntriesAreWaiters, RequestsSound, LaterRefused, ResolvesSound, SweepsSound;
    var t := Step(s, a);
    forall x | 0 <= x < |t.requests| && t.requests[x].id !in t.troubled ensures CalmRequest(t, x) {
      if x < |s.requests| {
        assert CalmRequest(s, x);
      }
    }
  }

  lemma ProceedStepCalm(s: State, a: Action)
    requires Core(s) && CalmSound(s)
    requires a.Proceed?
    ensures CalmSound(Step(s, a))
  {
    hide Exclusive, EntriesAreWaiters, RequestsSound, LaterRefused, ResolvesSound, SweepsSound;
    var t := Step(s, a);
    forall x | 0 <= x < |t.requests| && t.requests[x].id !in t.troubled ensures CalmRequest(t, x) {
      if x < |s.requests| {
        assert CalmRequest(s, x);
      }
    }
  }

  lemma QuietStepCalm(s: State, a: Action)
    requires Core(s) && CalmSound(s)
    requires a.Return? || a.Signal? || a.CallResolve? || a.CallSweep? || a.Elsewhere?
    ensures CalmSound(Step(s, a))
  {
    hide Exclusive, EntriesAreWaiters, RequestsSound, LaterRefused, ResolvesSound, SweepsSound;
    var t := Step(s, a);
    forall x | 0 <= x < |t.requests| && t.requests[x].id !in t.troubled ensures CalmRequest(t, x) {
      if x < |s.requests| {
        assert CalmRequest(s, x);
      }
    }
  }


  lemma WithdrawCalm(s: State, r: nat, reply: Reply)
    requires r < |s.requests| && Core(s) && CalmSound(s)
    ensures CalmSound(WithdrawStep(s, r, reply))
  {
    hide ResolvesSound, SweepsSound;
    var t := WithdrawStep(s, r, reply);
    forall x | 0 <= x < |t.requests| && t.requests[x].id !in t.troubled ensures CalmRequest(t, x) {
      assert CalmRequest(s, x) && Sound(s.requests[x], s.records);
    }
  }

  /** After a call of the store on behalf of waiter w: a request awaiting the same record is w. */
  lemma WrittenCalm(s: State, t: State, w: nat, reply: Reply, x: nat)
    requires Core(s) && CalmSound(s) && w < |s.requests| && s.requests[w].phase == Registered
    requires |s.requests| == |t.requests| && x < |t.requests| && s.requests[x].id !in s.troubled && t.requests[x].id !in t.troubled
    requires RequestKept(s.requests[x], t.requests[x])
    requires t.requests[x].phase == s.requests[x].phase && t.requests[x].settlement == s.requests[x].settlement
    requires t.requests[x].abort != Broken
    requires t.deciders == Noted(s, s.requests[w].id, t.records, Acting(w, reply))
    requires t.records == s.records
             || (s.records[s.requests[w].id] == Pending && s.requests[w].id in t.records && t.records[s.requests[w].id] != Pending
                 && (reply == Fine || s.requests[w].id in t.troubled)
                 && t.records == s.records[s.requests[w].id := t.records[s.requests[w].id]])
    ensures CalmRequest(t, x)
  {
    assert CalmRequest(s, x);
    if t.records != s.records && s.requests[x].id == s.requests[w].id && Awaits(s.requests[x]) {
      WriterIsOwn(s, w, x);
    }
  }

  lemma AbortWriteCalm(s: State, r: nat, reply: Reply)
    requires r < |s.requests| && Core(s) && CalmSound(s)
    ensures CalmSound(AbortWriteStep(s, r, reply))
  {
    var t := AbortWriteStep(s, r, reply);
    if s.requests[r].abort == Scheduled {
      assert Sound(s.requests[r], s.records);
      forall x | 0 <= x < |t.requests| && t.requests[x].id !in t.troubled ensures CalmRequest(t, x) {
        assert CalmRequest(s, x);
        WrittenCalm(s, t, r, reply, x);
      }
    }
  }

  lemma ResolveWriteCalm(s: State, v: nat, reply: Reply)
    requires v < |s.resolves| && Core(s) && CalmSound(s)
    ensures CalmSound(ResolveWriteStep(s, v, reply))
  {
    hide Exclusive, EntriesAreWaiters, LaterRefused, SweepsSound;
    var t := ResolveWriteStep(s, v, reply);
    assert ResolveSound(s.resolves[v], s.requests, s.records);
    forall x | 0 <= x < |t.requests| && t.requests[x].id !in t.troubled ensures CalmRequest(t, x) {
      assert CalmRequest(s, x);
      if s.resolves[v].stage.Holding? {
        WrittenCalm(s, t, s.resolves[v].stage.waiter, reply, x);
      }
    }
  }

  lemma SweepWriteCalm(s: State, k: nat, reply: Reply)
    requires k < |s.sweeps| && Core(s) && CalmSound(s)
    ensures CalmSound(SweepWriteStep(s, k, reply))
  {
    hide Exclusive, EntriesAreWaiters, LaterRefused, ResolvesSound;
    var t := SweepWriteStep(s, k, reply);
    var w := s.sweeps[k];
    assert SweepSound(w, s.requests, s.records);
    forall x | 0 <= x < |t.requests| && t.requests[x].id !in t.troubled ensures CalmRequest(t, x) {
      assert CalmRequest(s, x);
      if w.stage == Between && w.next < |w.listed| {
        WrittenCalm(s, t, w.listed[w.next], reply, x);
      }
    }
  }

  /** The same request further on: perhaps answered, its abort not newly failed. */
  predicate Settles(p: Request, q: Request) {
    && p.id == q.id && p.phase == q.phase && (q.settlement == p.settlement || (p.settlement == Unsettled && q.settlement.Answer?))
    && (q.abort == Broken ==> p.abort == Broken)
  }

  lemma CalmCarry(s: State, t: State)
    requires CalmSound(s) && t.records == s.records && t.deciders == s.deciders && s.troubled == t.troubled
    requires |s.requests| == |t.requests| && forall x | 0 <= x < |s.requests| :: Settles(s.requests[x], t.requests[x])
    ensures CalmSound(t)
  {
    forall x | 0 <= x < |t.requests| && t.requests[x].id !in t.troubled ensures CalmRequest(t, x) {
      assert Settles(s.requests[x], t.requests[x]) && CalmRequest(s, x);
    }
  }

  lemma FinishSettles(s: State, w: nat, allowed: bool)
    requires w < |s.requests|
    ensures var t := Finish(s, w, allowed);
            && t.records == s.records && t.deciders == s.deciders && t.troubled == s.troubled
            && t.resolves == s.resolves && t.sweeps == s.sweeps
            && |t.requests| == |s.requests| && forall x | 0 <= x < |s.requests| :: Settles(s.requests[x], t.requests[x])
  {
  }

  lemma AbortFinishCalm(s: State, r: nat)
    requires r < |s.requests| && CalmSound(s)
    ensures CalmSound(AbortFinishStep(s, r))
  {
    hide CalmSound, Finish;
    var q, t := s.requests[r], AbortFinishStep(s, r);
    if q.abort.Wrote? {
      if q.id in s.entries && s.entries[q.id] < |s.requests| {
        FinishSettles(s, s.entries[q.id], q.abort.status == Allowed);
      }
      CalmCarry(s, t);
    }
  }

  lemma AbortSettleCalm(s: State, r: nat)
    requires r < |s.requests| && CalmSound(s)
    ensures CalmSound(AbortSettleStep(s, r))
  {
    var t := AbortSettleStep(s, r);
    forall x | 0 <= x < |t.requests| && t.requests[x].id !in t.troubled ensures CalmRequest(t, x) {
      assert CalmRequest(s, x);
    }
  }

  lemma ThreadFinishCalm(s: State, a: Action)
    requires CalmSound(s) && (a.ResolveFinish? || a.SweepFinish?)
    ensures CalmSound(Step(s, a))
  {
    hide CalmSound, Finish;
    var t := Step(s, a);
    if t != s {
      var w := if a.ResolveFinish? then s.resolves[a.v].stage.waiter else s.sweeps[a.k].listed[s.sweeps[a.k].next];
      FinishSettles(s, w, if a.ResolveFinish? then s.resolves[a.v].decision == Allow else s.sweeps[a.k].stage.status == Allowed);
      CalmCarry(s, t);
    }
  }

  lemma StepKeepsCalm(s: State, a: Action)
    requires Core(s) && CalmSound(s)
    ensures CalmSound(Step(s, a))
  {
    hide Core, CalmSound;
    match a
    case Withdraw(r, reply) => if r < |s.requests| { WithdrawCalm(s, r, reply); }
    case AbortWrite(r, reply) => if r < |s.requests| { AbortWriteCalm(s, r, reply); }
    case ResolveWrite(v, reply) => if v < |s.resolves| { ResolveWriteCalm(s, v, reply); }
    case SweepWrite(k, reply) => if k < |s.sweeps| { SweepWriteCalm(s, k, reply); }
    case AbortFinish(r) => if r < |s.requests| { AbortFinishCalm(s, r); }
    case AbortSettle(r) => if r < |s.requests| { AbortSettleCalm(s, r); }
    case ResolveFinish(v) => ThreadFinishCalm(s, a);
    case SweepFinish(k) => ThreadFinishCalm(s, a);
    case Ask(id, sessionId) => AskStepCalm(s, a);
    case Persist(r, reply) => PersistStepCalm(s, a);
    case Proceed(r) => ProceedStepCalm(s, a);
    case _ => QuietStepCalm(s, a);
  }

  // ---------- a decided record's waiter is attended by the one who decided for it ----------

  /** A step that writes no record. */
  lemma DecidedCarry(s: State, t: State)
    requires DecidedSound(s) && Kept(s, t) && t.records == s.records && t.deciders == s.deciders
    requires forall x | 0 <= x < |s.requests| && Awaits(t.requests[x]) :: Awaits(s.requests[x])
    requires forall x | |s.requests| <= x < |t.requests| :: t.requests[x].phase == Creating
    requires forall x | 0 <= x < |s.requests| && Waits(s.requests[x]) && Waits(t.requests[x]) && Attended(s, x) :: Attended(t, x)
    ensures DecidedSound(t)
  {
    hide Attended;
    forall id | id in t.deciders ensures DeciderKnown(t.deciders[id], id, t.requests) {
      assert DeciderKnown(s.deciders[id], id, s.requests);
    }
    forall x | 0 <= x < |t.requests| ensures DecidedRequest(t, x) {
      if x < |s.requests| {
        assert DecidedRequest(s, x);
        if t.requests[x].id in s.deciders {
          assert DeciderKnown(s.deciders[t.requests[x].id], t.requests[x].id, s.requests);
        }
      }
    }
  }

  lemma StepKept(s: State, a: Action)
    requires Core(s)
    ensures Kept(s, Step(s, a))
  {
    hide Core, Kept, Step;
    StepKeepsCore(s, a);
  }

  lemma AskStepDecided(s: State, a: Action)
    requires Core(s) && DecidedSound(s) && (a.Ask? || a.Return?)
    ensures DecidedSound(Step(s, a))
  {
    hide Core, Kept, DecidedSound, Attended;
    var t := Step(s, a);
    StepKept(s, a);
    forall x | 0 <= x < |s.requests| && Waits(s.requests[x]) && Waits(t.requests[x]) && Attended(s, x) ensures Attended(t, x) {
      AttendedStays(s, t, x);
    }
    DecidedCarry(s, t);
  }

  lemma ProceedDecided(s: State, r: nat)
    requires r < |s.requests| && Core(s) && DecidedSound(s)
    ensures DecidedSound(ProceedStep(s, r))
  {
    hide Exclusive, EntriesAreWaiters, LaterRefused, ResolvesSound, SweepsSound, Kept, DecidedSound, Attended;
    var t := ProceedStep(s, r);
    StepKept(s, Proceed(r));
    forall x | 0 <= x < |s.requests| && Waits(s.requests[x]) && Waits(t.requests[x]) && Attended(s, x) ensures Attended(t, x) {
      AttendedStays(s, t, x);
    }
    DecidedCarry(s, t);
  }

  lemma SignalDecided(s: State, r: nat)
    requires r < |s.requests| && Core(s) && DecidedSound(s)
    ensures DecidedSound(SignalStep(s, r))
  {
    hide Exclusive, EntriesAreWaiters, LaterRefused, ResolvesSound, SweepsSound, Kept, DecidedSound, Attended;
    var t := SignalStep(s, r);
    StepKept(s, Signal(r));
    assert Sound(s.requests[r], s.records);
    forall x | 0 <= x < |s.requests| && Waits(s.requests[x]) && Waits(t.requests[x]) && Attended(s, x) ensures Attended(t, x) {
      AttendedStays(s, t, x);
    }
    DecidedCarry(s, t);
  }

  lemma CallStepDecided(s: State, a: Action)
    requires Core(s) && DecidedSound(s) && (a.CallResolve? || a.CallSweep?)
    ensures DecidedSound(Step(s, a))
  {
    hide Core, Kept, DecidedSound, Attended;
    var t := Step(s, a);
    StepKept(s, a);
    forall x | 0 <= x < |s.requests| && Waits(s.requests[x]) && Attended(s, x) ensures Attended(t, x) {
      AttendedStays(s, t, x);
    }
    DecidedCarry(s, t);
  }

  /** A finished waiter needs nobody any more, the others keep theirs. */
  lemma FinishedDecided(s: State, w: nat, t: State)
    requires DecidedSound(s) && Kept(s, t) && t.records == s.records && t.deciders == s.deciders
    requires |t.requests| == |s.requests| && w < |s.requests| && !Waits(t.requests[w])
    requires forall x | 0 <= x < |s.requests| && x != w ::
               Awaits(t.requests[x]) == Awaits(s.requests[x]) && s.requests[x].abort == t.requests[x].abort
    requires !Awaits(t.requests[w])
    requires |t.resolves| == |s.resolves| && |t.sweeps| == |s.sweeps|
    requires forall v | 0 <= v < |s.resolves| && s.resolves[v] != t.resolves[v] :: s.resolves[v].stage == Decided(w)
    requires forall k | 0 <= k < |s.sweeps| && s.sweeps[k] != t.sweeps[k] :: HoldsWaiter(s.sweeps[k], w)
    ensures DecidedSound(t)
  {
    hide DecidedSound, Attended;
    forall x | 0 <= x < |s.requests| && Waits(s.requests[x]) && Waits(t.requests[x]) && Attended(s, x) ensures Attended(t, x) {
      AttendedStays(s, t, x);
    }
    DecidedCarry(s, t);
  }

  lemma AbortFinishDecided(s: State, r: nat)
    requires r < |s.requests| && Core(s) && DecidedSound(s)
    ensures DecidedSound(AbortFinishStep(s, r))
  {
    hide Exclusive, EntriesAreWaiters, LaterRefused, ResolvesSound, SweepsSound, DecidedSound, Finish;
    var q := s.requests[r];
    if q.abort.Wrote? {
      assert Sound(q, s.records);
      AbortOfEntry(s, r);
      AbortFinishKeeps(s, r);
      FinishKeeps(s, r, q.abort.status == Allowed);
      FinishSettles(s, r, q.abort.status == Allowed);
      FinishedDecided(s, r, AbortFinishStep(s, r));
    }
  }

  lemma AbortSettleDecided(s: State, r: nat)
    requires r < |s.requests| && Core(s) && DecidedSound(s)
    ensures DecidedSound(AbortSettleStep(s, r))
  {
    hide Exclusive, EntriesAreWaiters, LaterRefused, ResolvesSound, SweepsSound, DecidedSound;
    var q := s.requests[r];
    assert Sound(q, s.records);
    if q.abort.Concluded? || q.abort.Broken? {
      AbortSettleKeeps(s, r);
      FinishedDecided(s, r, AbortSettleStep(s, r));
    }
  }

  lemma ResolveFinishDecided(s: State, v: nat)
    requires v < |s.resolves| && Core(s) && DecidedSound(s)
    ensures DecidedSound(ResolveFinishStep(s, v))
  {
    hide Exclusive, EntriesAreWaiters, LaterRefused, RequestsSound, SweepsSound, DecidedSound, Finish;
    var c := s.resolves[v];
    if c.stage.Decided? {
      assert ResolveSound(c, s.requests, s.records);
      FinishKeeps(s, c.stage.waiter, c.decision == Allow);
      FinishSettles(s, c.stage.waiter, c.decision == Allow);
      FinishedDecided(s, c.stage.waiter, ResolveFinishStep(s, v));
    }
  }

  lemma SweepFinishDecided(s: State, k: nat)
    requires k < |s.sweeps| && Core(s) && DecidedSound(s)
    ensures DecidedSound(SweepFinishStep(s, k))
  {
    hide Exclusive, EntriesAreWaiters, LaterRefused, RequestsSound, ResolvesSound, DecidedSound, Finish, SweepSound;
    var w := s.sweeps[k];
    if w.stage.Holds? {
      SweepHolds(s, w);
      FinishKeeps(s, w.listed[w.next], w.stage.status == Allowed);
      FinishSettles(s, w.listed[w.next], w.stage.status == Allowed);
      FinishedDecided(s, w.listed[w.next], SweepFinishStep(s, k));
    }
  }

  /** Creating a pending record decides nothing. */
  lemma PersistDecided(s: State, r: nat, reply: Reply)
    requires r < |s.requests| && Core(s) && DecidedSound(s)
    ensures DecidedSound(PersistStep(s, r, reply))
  {
    hide Exclusive, EntriesAreWaiters, LaterRefused, ResolvesSound, SweepsSound, Attended;
    var t := PersistStep(s, r, reply);
    assert Sound(s.requests[r], s.records);
    forall x | 0 <= x < |t.requests| ensures DecidedRequest(t, x) {
      assert DecidedRequest(s, x);
      if Attended(s, x) {
        AttendedStays(s, t, x);
      }
    }
  }

  /** A record left pending, by whomever: its decider is noted, and a waiter decided for is attended. */
  lemma WrittenDecided(s: State, t: State, id: string, who: Decider)
    requires DecidedSound(s) && |t.requests| == |s.requests| && RecordsKept(s.records, t.records)
    requires forall k | k in t.records && k != id :: k in s.records && t.records[k] == s.records[k]
    requires id in t.records ==> id in s.records
    requires t.deciders == Noted(s, id, t.records, who) && DeciderKnown(who, id, t.requests)
    requires forall x | 0 <= x < |s.requests| ::
               RequestKept(s.requests[x], t.requests[x]) && (Awaits(t.requests[x]) ==> Awaits(s.requests[x]))
    requires forall x | 0 <= x < |s.requests| && Waits(s.requests[x]) && Waits(t.requests[x]) && Attended(s, x) :: Attended(t, x)
    requires who.ForWaiter? && t.records != s.records ==> Attended(t, who.waiter)
    ensures DecidedSound(t)
  {
    hide Attended;
    forall k | k in t.deciders ensures k in t.records && t.records[k] != Pending && DeciderKnown(t.deciders[k], k, t.requests) {
      if k in s.deciders {
        assert DeciderKnown(s.deciders[k], k, s.requests);
      }
    }
    forall x | 0 <= x < |t.requests| ensures DecidedRequest(t, x) {
      assert DecidedRequest(s, x) && RequestKept(s.requests[x], t.requests[x]);
      var k := t.requests[x].id;
      if k in s.deciders {
        assert DeciderKnown(s.deciders[k], k, s.requests);
      }
    }
  }

  lemma WithdrawDecided(s: State, r: nat, reply: Reply)
    requires r < |s.requests| && Core(s) && DecidedSound(s)
    ensures DecidedSound(WithdrawStep(s, r, reply))
  {
    hide Exclusive, EntriesAreWaiters, LaterRefused, ResolvesSound, SweepsSound, DecidedSound, Attended;
    var t := WithdrawStep(s, r, reply);
    if s.requests[r].phase == Withdrawing {
      assert Sound(s.requests[r], s.records);
      forall x | 0 <= x < |s.requests| && Attended(s, x) ensures Attended(t, x) {
        AttendedStays(s, t, x);
      }
      WrittenDecided(s, t, s.requests[r].id, Withdrawal(r));
    }
  }

  lemma AbortWriteDecided(s: State, r: nat, reply: Reply)
    requires r < |s.requests| && Core(s) && DecidedSound(s)
    ensures DecidedSound(AbortWriteStep(s, r, reply))
  {
    hide Exclusive, EntriesAreWaiters, LaterRefused, ResolvesSound, SweepsSound, DecidedSound;
    var t := AbortWriteStep(s, r, reply);
    if s.requests[r].abort == Scheduled {
      assert Sound(s.requests[r], s.records);
      forall x | 0 <= x < |s.requests| && Attended(s, x) ensures Attended(t, x) {
        AttendedStays(s, t, x);
      }
      WrittenDecided(s, t, s.requests[r].id, Acting(r, reply));
    }
  }

  lemma ResolveWriteDecided(s: State, v: nat, reply: Reply)
    requires v < |s.resolves| && Core(s) && DecidedSound(s)
    ensures DecidedSound(ResolveWriteStep(s, v, reply))
  {
    hide Exclusive, EntriesAreWaiters, LaterRefused, RequestsSound, SweepsSound, DecidedSound;
    var t := ResolveWriteStep(s, v, reply);
    var c := s.resolves[v];
    assert ResolveSound(c, s.requests, s.records);
    forall x | 0 <= x < |s.requests| && Attended(s, x) ensures Attended(t, x) {
      AttendedStays(s, t, x);
    }
    if c.stage.Holding? {
      assert t.records != s.records && reply == Fine ==> t.resolves[v].stage == Decided(c.stage.waiter);
      WrittenDecided(s, t, c.id, Acting(c.stage.waiter, reply));
    } else {
      DecidedCarry(s, t);
    }
  }

  lemma SweepWriteDecided(s: State, k: nat, reply: Reply)
    requires k < |s.sweeps| && Core(s) && DecidedSound(s)
    ensures DecidedSound(SweepWriteStep(s, k, reply))
  {
    hide Exclusive, EntriesAreWaiters, LaterRefused, RequestsSound, ResolvesSound, DecidedSound;
    var t := SweepWriteStep(s, k, reply);
    var w := s.sweeps[k];
    assert SweepSound(w, s.requests, s.records);
    forall x | 0 <= x < |s.requests| && Attended(s, x) ensures Attended(t, x) {
      AttendedStays(s, t, x);
    }
    if w.stage == Between && w.next < |w.listed|
       && (w.session.None? || w.session.value == s.requests[w.listed[w.next]].sessionId) {
      assert t.records != s.records && reply == Fine ==> HoldsWaiter(t.sweeps[k], w.listed[w.next]);
      WrittenDecided(s, t, s.requests[w.listed[w.next]].id, Acting(w.listed[w.next], reply));
    } else {
      DecidedCarry(s, t);
    }
  }

  lemma ElsewhereDecided(s: State, id: string, status: Status)
    requires Core(s) && DecidedSound(s)
    ensures DecidedSound(ElsewhereStep(s, id, status))
  {
    hide Exclusive, EntriesAreWaiters, LaterRefused, RequestsSound, ResolvesSound, SweepsSound, DecidedSound, Attended;
    var t := ElsewhereStep(s, id, status);
    if t != s {
      forall x | 0 <= x < |s.requests| && Attended(s, x) ensures Attended(t, x) {
        AttendedStays(s, t, x);
      }
      WrittenDecided(s, t, id, OtherClient);
    }
  }

  lemma StepKeepsDecided(s: State, a: Action)
    requires Core(s) && DecidedSound(s)
    ensures DecidedSound(Step(s, a))
  {
    hide Core, DecidedSound;
    match a
    case Persist(r, reply) => if r < |s.requests| { PersistDecided(s, r, reply); }
    case Withdraw(r, reply) => if r < |s.requests| { WithdrawDecided(s, r, reply); }
    case AbortWrite(r, reply) => if r < |s.requests| { AbortWriteDecided(s, r, reply); }
    case ResolveWrite(v, reply) => if v < |s.resolves| { ResolveWriteDecided(s, v, reply); }
    case SweepWrite(k, reply) => if k < |s.sweeps| { SweepWriteDecided(s, k, reply); }
    case Elsewhere(id, status) => ElsewhereDecided(s, id, status);
    case AbortFinish(r) => if r < |s.requests| { AbortFinishDecided(s, r); }
    case AbortSettle(r) => if r < |s.requests| { AbortSettleDecided(s, r); }
    case ResolveFinish(v) => if v < |s.resolves| { ResolveFinishDecided(s, v); }
    case SweepFinish(k) => if k < |s.sweeps| { SweepFinishDecided(s, k); }
    case CallResolve(id, d) => CallStepDecided(s, a);
    case CallSweep(listing, session) => CallStepDecided(s, a);
    case Proceed(r) => if r < |s.requests| { ProceedDecided(s, r); }
    case Signal(r) => if r < |s.requests| { SignalDecided(s, r); }
    case _ => AskStepDecided(s, a);
  }

  // ---------- whole runs ----------

  lemma FreshIsSound(records: map<string, Status>)
    ensures Inv(Fresh(records))
  {
  }

  /** In every reachable state the invariant holds, and nothing a run has settled is undone by its rest. */
  lemma {:induction false} RunKeepsInv(s: State, actions: seq<Action>)
    requires Inv(s)
    ensures Inv(Run(s, actions)) && Later(s, Run(s, actions))
    decreases |actions|
  {
    hide Core, EventsSound, DecidedSound, CalmSound, Step, Later;
    if actions == [] {
      LaterReflexive(s);
    } else {
      var t := Step(s, actions[0]);
      StepKeepsCore(s, actions[0]);
      StepKeepsEvents(s, actions[0]);
      StepKeepsDecided(s, actions[0]);
      StepKeepsCalm(s, actions[0]);
      RunKeepsInv(t, actions[1..]);
      LaterTransitive(s, t, Run(s, actions));
    }
  }

  lemma LaterReflexive(s: State)
    ensures Later(s, s)
  {
  }

  /** A waiter is settled at most once: what a run has settled stays settled the same way. */
  lemma SettledOnce(records: map<string, Status>, before: seq<Action>, after: seq<Action>, r: nat)
    requires r < |Run(Fresh(records), before).requests|
    requires Run(Fresh(records), before).requests[r].settlement != Unsettled
    ensures var t := Run(Run(Fresh(records), before), after);
            r < |t.requests| && t.requests[r].settlement == Run(Fresh(records), before).requests[r].settlement
  {
    FreshIsSound(records);
    RunKeepsInv(Fresh(records), before);
    RunKeepsInv(Run(Fresh(records), before), after);
  }

  /** An answer is true exactly when the record is allowed, and the record stays as it was decided. */
  lemma AnswerIsTheRecord(records: map<string, Status>, before: seq<Action>, after: seq<Action>, r: nat)
    requires r < |Run(Fresh(records), before).requests|
    requires Run(Fresh(records), before).requests[r].settlement.Answer?
    ensures var q := Run(Fresh(records), before).requests[r];
            var final := Run(Run(Fresh(records), before), after).records;
            q.id in final && final[q.id] != Pending && (q.settlement.allowed <==> final[q.id] == Allowed)
  {
    FreshIsSound(records);
    var s := Run(Fresh(records), before);
    RunKeepsInv(Fresh(records), before);
    RunKeepsInv(s, after);
    assert Sound(s.requests[r], s.records);
  }

  /** Exactly one required event per registered waiter, exactly one resolved event per answered one,
      with the answer it got, and none for a rejected or waiting one. */
  lemma OneEventEach(records: map<string, Status>, actions: seq<Action>, r: nat)
    requires r < |Run(Fresh(records), actions).requests|
    ensures var s := Run(Fresh(records), actions);
            && Count(s.events, RequiredEvent(r)) == Flag(s.requests[r].phase == Registered)
            && forall b :: Count(s.events, ResolvedEvent(r, b)) == Flag(s.requests[r].settlement == Answer(b))
  {
    FreshIsSound(records);
    RunKeepsInv(Fresh(records), actions);
    assert EventsOf(Run(Fresh(records), actions), r);
  }

  lemma SweptWaiter(w: Sweep, requests: seq<Request>, records: map<string, Status>, r: nat)
    requires SweepSound(w, requests, records) && w.next == |w.listed| && r in w.listed
    ensures r < |requests| && (w.session.None? || w.session.value == requests[r].sessionId ==> requests[r].settlement != Unsettled)
  {
  }

  /** A sweep that ran to its end has settled every waiter that listened when it was called. */
  lemma SweepClears(records: map<string, Status>, before: seq<Action>, listing: seq<nat>, session: Option<string>, after: seq<Action>, r: nat)
    requires var s := Run(Fresh(records), before);
             Lists(listing, s.entries) && r < |s.requests| && Waits(s.requests[r])
             && (session.None? || session.value == s.requests[r].sessionId)
    requires var s := Run(Fresh(records), before);
             var u := Run(CallSweepStep(s, listing, session), after);
             |s.sweeps| < |u.sweeps| && u.sweeps[|s.sweeps|].next == |u.sweeps[|s.sweeps|].listed|
    ensures var s := Run(Fresh(records), before);
            var u := Run(CallSweepStep(s, listing, session), after);
            r < |u.requests| && u.requests[r].settlement != Unsettled
  {
    hide EventsSound, DecidedSound, CalmSound, SweepSound, ResolveSound, RequestsSound, Exclusive, LaterRefused, Run, Step;
    FreshIsSound(records);
    var s := Run(Fresh(records), before);
    RunKeepsInv(Fresh(records), before);
    var t := CallSweepStep(s, listing, session);
    CallSweepKeepsInv(s, listing, session);
    var u := Run(t, after);
    RunKeepsInv(t, after);
    var k := |s.sweeps|;
    assert t.sweeps[k] == Sweep(listing, session, 0, Between);
    assert SweepKept(t.sweeps[k], u.sweeps[k]);
    assert RequestKept(t.requests[r], u.requests[r]);
    assert r in listing;
    SweptWaiter(u.sweeps[k], u.requests, u.records, r);
  }

  /** A sweep of one session writes no record but that of a waiter it listed of this session, and
      changes no request of another. */
  lemma SweepSpares(records: map<string, Status>, actions: seq<Action>, k: nat, a: Action, id: string, r: nat)
    requires var s := Run(Fresh(records), actions);
             k < |s.sweeps| && s.sweeps[k].session.Some? && (a == SweepFinish(k) || (a.SweepWrite? && a.k == k))
    ensures var s := Run(Fresh(records), actions);
            var t, session := Step(s, a), s.sweeps[k].session.value;
            && |t.requests| == |s.requests| && t.records.Keys == s.records.Keys
            && (id in s.records && t.records[id] != s.records[id] ==>
                  exists w :: w in s.sweeps[k].listed && w < |s.requests|
                              && s.requests[w].id == id && s.requests[w].sessionId == session)
            && (r < |s.requests| && s.requests[r].sessionId != session ==> t.requests[r] == s.requests[r])
  {
    FreshIsSound(records);
    var s := Run(Fresh(records), actions);
    RunKeepsInv(Fresh(records), actions);
    SweepStepSpares(s, k, a, id, r);
  }

  lemma SweepStepSpares(s: State, k: nat, a: Action, id: string, r: nat)
    requires SweepsSound(s)
    requires k < |s.sweeps| && s.sweeps[k].session.Some? && (a == SweepFinish(k) || (a.SweepWrite? && a.k == k))
    ensures var t, session := Step(s, a), s.sweeps[k].session.value;
            && |t.requests| == |s.requests| && t.records.Keys == s.records.Keys
            && (id in s.records && t.records[id] != s.records[id] ==>
                  exists w :: w in s.sweeps[k].listed && w < |s.requests|
                              && s.requests[w].id == id && s.requests[w].sessionId == session)
            && (r < |s.requests| && s.requests[r].sessionId != session ==> t.requests[r] == s.requests[r])
  {
    var w := s.sweeps[k];
    assert SweepSound(w, s.requests, s.records);
    if w.next < |w.listed| {
      assert w.listed[w.next] in w.listed;
    }
  }

  lemma CallSweepKeepsInv(s: State, listing: seq<nat>, session: Option<string>)
    requires Inv(s)
    ensures Inv(CallSweepStep(s, listing, session))
  {
    hide Core, EventsSound, DecidedSound, CalmSound, CallSweepStep;
    var a := CallSweep(listing, session);
    assert Step(s, a) == CallSweepStep(s, listing, session);
    StepKeepsCore(s, a);
    StepKeepsEvents(s, a);
    StepKeepsDecided(s, a);
    StepKeepsCalm(s, a);
  }

  /** Nobody is between writing a record and finishing its waiter. */
  ghost predicate Idle(s: State) {
    && (forall r | 0 <= r < |s.requests| :: !s.requests[r].abort.Wrote?)
    && (forall v | 0 <= v < |s.resolves| :: !s.resolves[v].stage.Decided?)
    && (forall k | 0 <= k < |s.sweeps| :: !s.sweeps[k].stage.Holds?)
  }

  /** A waiter whose record is decided, with nobody about to finish it. */
  ghost predicate LeftBehind(s: State, r: nat) {
    Idle(s) && r < |s.requests| && Waits(s.requests[r]) && s.requests[r].id in s.records && s.records[s.requests[r].id] != Pending
  }

  /** When nobody is busy, a waiter is left behind exactly when its record was decided, but not by a
      call of the store on its behalf that succeeded: by another client, by a call that wrote and
      threw, or on behalf of an earlier waiter of the same id. */
  lemma LeftBehindExactly(records: map<string, Status>, actions: seq<Action>, r: nat)
    requires var s := Run(Fresh(records), actions); Idle(s) && r < |s.requests|
    ensures var s := Run(Fresh(records), actions);
            LeftBehind(s, r) <==>
              && Waits(s.requests[r]) && s.requests[r].id in s.deciders
              && s.deciders[s.requests[r].id] != ForWaiter(r)
  {
    FreshIsSound(records);
    RunKeepsInv(Fresh(records), actions);
    assert DecidedRequest(Run(Fresh(records), actions), r);
  }

  /** Where the decision was made for another waiter, that one was registered earlier and rejected. */
  lemma DecidedForRejected(records: map<string, Status>, actions: seq<Action>, r: nat)
    requires var s := Run(Fresh(records), actions);
             LeftBehind(s, r) && s.requests[r].id in s.deciders && s.deciders[s.requests[r].id].ForWaiter?
    ensures var s := Run(Fresh(records), actions);
            var w := s.deciders[s.requests[r].id].waiter;
            w < r && s.requests[w].id == s.requests[r].id && s.requests[w].settlement == Rejection
  {
    FreshIsSound(records);
    var s := Run(Fresh(records), actions);
    RunKeepsInv(Fresh(records), actions);
    LeftBehindExactly(records, actions, r);
    RejectedBefore(s, s.deciders[s.requests[r].id].waiter, r);
  }

  lemma RejectedBefore(s: State, w: nat, r: nat)
    requires Core(s) && r < |s.requests| && Waits(s.requests[r])
    requires w != r && w < |s.requests| && s.requests[w].phase == Registered && s.requests[w].id == s.requests[r].id
    ensures w < r && s.requests[w].settlement == Rejection
  {
    hide ResolvesSound, SweepsSound;
    assert Sound(s.requests[r], s.records);
  }

  /** No waiter is left behind under an id that no other client decided and no failed call troubled. */
  lemma NobodyLeftBehind(records: map<string, Status>, actions: seq<Action>, r: nat)
    requires var s := Run(Fresh(records), actions);
             Idle(s) && r < |s.requests| && Waits(s.requests[r]) && s.requests[r].id !in s.troubled
    ensures var s := Run(Fresh(records), actions);
            s.requests[r].id in s.records && s.records[s.requests[r].id] == Pending
  {
    FreshIsSound(records);
    RunKeepsInv(Fresh(records), actions);
    assert CalmRequest(Run(Fresh(records), actions), r) && DecidedRequest(Run(Fresh(records), actions), r);
  }

  // ---------- runs that go wrong ----------

  ghost predicate Reachable(s: State) {
    exists actions :: s == Run(Fresh(map[]), actions)
  }

  lemma ReachStep(s: State, a: Action)
    requires Reachable(s)
    ensures Reachable(Step(s, a))
  {
    hide Step;
    var actions :| s == Run(Fresh(map[]), actions);
    RunJoins(Fresh(map[]), actions, [a]);
    assert Run(s, [a]) == Run(Step(s, a), [a][1..]);
    assert Reachable(Run(Fresh(map[]), actions + [a]));
  }

  lemma {:induction false} RunJoins(s: State, first: seq<Action>, second: seq<Action>)
    ensures Run(s, first + second) == Run(Run(s, first), second)
    decreases |first|
  {
    hide Step;
    if first == [] {
      assert first + second == second;
    } else {
      RunJoins(Step(s, first[0]), first[1..], second);
      assert (first + second)[1..] == first[1..] + second;
    }
  }

  function Waiter(): Request {
    Request("a", "s", false, Registered, Unsettled, NoAbort, false)
  }

  function Listening(): State {
    State(map["a" := Pending], {"a"}, map["a" := 0], [Waiter()], [], [], [RequiredEvent(0)], map[], {})
  }

  lemma ListeningReached()
    ensures Reachable(Listening())
  {
    var s0 := Fresh(map[]);
    assert s0 == Run(s0, []);
    var s1 := AskStep(s0, "a", "s");
    ReachStep(s0, Ask("a", "s"));
    var s2 := PersistStep(s1, 0, Fine);
    ReachStep(s1, Persist(0, Fine));
    ReachStep(s2, Proceed(0));
    assert ProceedStep(s2, 0) == Listening();
  }

  /** One more step of a run. */
  lemma Reach(s: State, a: Action, t: State)
    requires Reachable(s) && Step(s, a) == t
    ensures Reachable(t)
  {
    hide Step, Reachable;
    ReachStep(s, a);
  }

  function DecidedElsewhere(resolves: seq<Resolve>): State {
    Listening().(records := map["a" := Allowed], deciders := map["a" := OtherClient], troubled := {"a"}, resolves := resolves)
  }

  lemma DecideElsewhere()
    ensures Step(Listening(), Elsewhere("a", Allowed)) == DecidedElsewhere([])
    ensures Step(DecidedElsewhere([]), CallResolve("a", Deny)) == DecidedElsewhere([Resolve("a", Deny, Holding(0))])
  {
  }

  lemma RefuseOther()
    ensures Step(DecidedElsewhere([Resolve("a", Deny, Holding(0))]), ResolveWrite(0, Fine)) == DecidedElsewhere([Resolve("a", Deny, Refused)])
    ensures LeftBehind(DecidedElsewhere([Resolve("a", Deny, Refused)]), 0)
  {
  }

  /** Another client decides, and the resolve that comes after is refused. */
  lemma OthersLeaveWaiters()
    ensures exists s :: Reachable(s) && LeftBehind(s, 0) && s.deciders == map["a" := OtherClient]
                        && s.resolves == [Resolve("a", Deny, Refused)]
  {
    hide Step, Reachable, LeftBehind, Listening;
    ListeningReached();
    DecideElsewhere();
    RefuseOther();
    Reach(Listening(), Elsewhere("a", Allowed), DecidedElsewhere([]));
    Reach(DecidedElsewhere([]), CallResolve("a", Deny), DecidedElsewhere([Resolve("a", Deny, Holding(0))]));
    Reach(DecidedElsewhere([Resolve("a", Deny, Holding(0))]), ResolveWrite(0, Fine), DecidedElsewhere([Resolve("a", Deny, Refused)]));
  }

  function Deciding(): State {
    Listening().(resolves := [Resolve("a", Allow, Holding(0))])
  }

  function ThrownDecision(): State {
    Listening().(records := map["a" := Allowed], deciders := map["a" := ThrownWrite], troubled := {"a"},
                 resolves := [Resolve("a", Allow, Refused)])
  }

  lemma ThrowDecision()
    ensures Step(Listening(), CallResolve("a", Allow)) == Deciding()
    ensures Step(Deciding(), ResolveWrite(0, Fails(true))) == ThrownDecision()
    ensures LeftBehind(ThrownDecision(), 0)
  {
  }

  /** A resolve writes its decision and then throws: its waiter never hears. */
  lemma ThrownWritesLeaveWaiters()
    ensures exists s :: Reachable(s) && LeftBehind(s, 0) && s.deciders == map["a" := ThrownWrite]
  {
    hide Step, Reachable, LeftBehind, Listening, Deciding;
    ListeningReached();
    ThrowDecision();
    Reach(Listening(), CallResolve("a", Allow), Deciding());
    Reach(Deciding(), ResolveWrite(0, Fails(true)), ThrownDecision());
  }

  /** A waiter whose abort failed, while a decision for it is under way. */
  function RejectedWaiter(returned: bool): Request {
    Waiter().(aborted := true, settlement := Rejection, abort := AbortOver(true, false), returned := returned)
  }

  function Rejected1(): State {
    Deciding().(entries := map[], requests := [RejectedWaiter(false)], troubled := {"a"})
  }

  function Aborting(stage: Abort, troubled: set<string>): State {
    Deciding().(requests := [Waiter().(aborted := true, abort := stage)], troubled := troubled)
  }

  lemma AbortBreaks()
    ensures Step(Deciding(), Signal(0)) == Aborting(Scheduled, {})
    ensures Step(Aborting(Scheduled, {}), AbortWrite(0, Fails(false))) == Aborting(Broken, {"a"})
  {
  }

  lemma AbortFails()
    ensures Step(Aborting(Broken, {"a"}), AbortSettle(0)) == Rejected1()
  {
    var t := Step(Aborting(Broken, {"a"}), AbortSettle(0));
    assert t.entries == map[];
    assert t.requests == [RejectedWaiter(false)];
  }

  lemma RejectedReached()
    ensures Reachable(Rejected1())
  {
    hide Step, Reachable, Listening, Deciding, Aborting, Rejected1;
    ListeningReached();
    ThrowDecision();
    AbortBreaks();
    AbortFails();
    Reach(Listening(), CallResolve("a", Allow), Deciding());
    Reach(Deciding(), Signal(0), Aborting(Scheduled, {}));
    Reach(Aborting(Scheduled, {}), AbortWrite(0, Fails(false)), Aborting(Broken, {"a"}));
    Reach(Aborting(Broken, {"a"}), AbortSettle(0), Rejected1());
  }

  /** A failed abort rejects its waiter, and no resolved event is ever sent for it. */
  lemma FailedAbortRejects()
    ensures exists s :: Reachable(s) && |s.requests| > 0 && s.requests[0].settlement == Rejection
                        && forall b :: Count(s.events, ResolvedEvent(0, b)) == 0
  {
    RejectedReached();
    var s := Rejected1();
    assert forall b :: Count(s.events, ResolvedEvent(0, b)) == 0;
  }

  /** A second request of the id, registered after the rejected one returned. */
  function Again(): State {
    Rejected1().(entries := map["a" := 1], requests := [RejectedWaiter(true), Waiter()], events := [RequiredEvent(0), RequiredEvent(1)])
  }

  function AskingAgain(phase: Phase): State {
    Rejected1().(requests := [RejectedWaiter(true), Waiter().(phase := phase)])
  }

  function Returned1(): State {
    Rejected1().(requests := [RejectedWaiter(true)], requesting := {})
  }

  lemma AskAgain()
    ensures Step(Rejected1(), Return(0)) == Returned1()
    ensures Step(Returned1(), Ask("a", "s")) == AskingAgain(Creating)
  {
  }

  lemma WaitAgain()
    ensures Step(AskingAgain(Creating), Persist(1, Fine)) == AskingAgain(Created(Pending))
    ensures Step(AskingAgain(Created(Pending)), Proceed(1)) == Again()
  {
  }

  lemma AgainReached()
    ensures Reachable(Again())
  {
    hide Step, Reachable, Rejected1, Returned1, AskingAgain, Again;
    RejectedReached();
    AskAgain();
    WaitAgain();
    Reach(Rejected1(), Return(0), Returned1());
    Reach(Returned1(), Ask("a", "s"), AskingAgain(Creating));
    Reach(AskingAgain(Creating), Persist(1, Fine), AskingAgain(Created(Pending)));
    Reach(AskingAgain(Created(Pending)), Proceed(1), Again());
  }

  function DecidedForFirst(stage: ResolveStage): State {
    Again().(records := map["a" := Allowed], deciders := map["a" := ForWaiter(0)], resolves := [Resolve("a", Allow, stage)])
  }

  lemma DecideForFirst()
    ensures Step(Again(), ResolveWrite(0, Fine)) == DecidedForFirst(Decided(0))
    ensures Step(DecidedForFirst(Decided(0)), ResolveFinish(0)) == DecidedForFirst(Resolved)
  {
  }

  lemma SecondIsLeft()
    ensures LeftBehind(DecidedForFirst(Resolved), 1) && DecidedForFirst(Resolved).deciders == map["a" := ForWaiter(0)]
  {
  }

  /** The decision that was under way for the rejected waiter decides the record and leaves the
      second waiter behind, though every call but the failed abort went well. */
  lemma EarlierWaitersLeaveLaterOnes()
    ensures exists s :: Reachable(s) && LeftBehind(s, 1) && s.deciders == map["a" := ForWaiter(0)]
  {
    hide Step, Reachable, LeftBehind, Again, DecidedForFirst;
    AgainReached();
    DecideForFirst();
    SecondIsLeft();
    Reach(Again(), ResolveWrite(0, Fine), DecidedForFirst(Decided(0)));
    Reach(DecidedForFirst(Decided(0)), ResolveFinish(0), DecidedForFirst(Resolved));
  }

  /** A waiter is rejected exactly when its abort callback threw, has been chained to its end, and
      found the waiter not answered yet. A waiter whose signal fired is settled once its callback is over. */
  lemma AbortSettles(records: map<string, Status>, actions: seq<Action>, r: nat)
    requires r < |Run(Fresh(records), actions).requests|
    ensures var q := Run(Fresh(records), actions).requests[r];
            && (q.settlement == Rejection <==> q.abort == AbortOver(true, false))
            && (q.abort.AbortOver? && (q.abort.late || !q.abort.threw) ==> q.settlement.Answer?)
            && (q.phase == Registered && q.aborted && q.settlement == Unsettled ==>
                  q.abort == Scheduled || q.abort.Wrote? || q.abort == Broken)
  {
    FreshIsSound(records);
    var s := Run(Fresh(records), actions);
    RunKeepsInv(Fresh(records), actions);
    assert Sound(s.requests[r], s.records);
  }

  /** A resolve that returns has its decision in the record, now and from then on. */
  lemma ResolveReturned(records: map<string, Status>, before: seq<Action>, after: seq<Action>, v: nat)
    requires var s := Run(Fresh(records), before); v < |s.resolves| && s.resolves[v].stage == Resolved
    ensures var c := Run(Fresh(records), before).resolves[v];
            var final := Run(Run(Fresh(records), before), after).records;
            c.id in final && final[c.id] == Target(c.decision)
  {
    FreshIsSound(records);
    var s := Run(Fresh(records), before);
    RunKeepsInv(Fresh(records), before);
    RunKeepsInv(s, after);
    assert ResolveSound(s.resolves[v], s.requests, s.records);
  }

  /** Of all requests with one id at most one is ever answered, and at most one waits at a time. */
  lemma OneAnswerPerId(records: map<string, Status>, actions: seq<Action>, p: nat, r: nat)
    requires p < |Run(Fresh(records), actions).requests| && r < |Run(Fresh(records), actions).requests| && p != r
    requires Run(Fresh(records), actions).requests[p].id == Run(Fresh(records), actions).requests[r].id
    ensures var s := Run(Fresh(records), actions);
            && !(s.requests[p].settlement.Answer? && s.requests[r].settlement.Answer?)
            && !(Waits(s.requests[p]) && Waits(s.requests[r]))
  {
    FreshIsSound(records);
    var s := Run(Fresh(records), actions);
    RunKeepsInv(Fresh(records), actions);
    assert Sound(s.requests[p], s.records) && Sound(s.requests[r], s.records);
  }
}
