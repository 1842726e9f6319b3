/** The in-memory runtime store of packages/agent-runtime/src/memory-store.ts: sessions, the entry
    forest, lanes and operations. A missing or empty id is "". Whether an operation state and an
    execution snapshot pass their own checks is a flag of the state and of the metadata. */
module RuntimeStore {
  import opened Sequences

  datatype EntryInput = EntryInput(id: string, sessionId: string, parentId: string, payload: string)

  datatype Entry = Entry(input: EntryInput, sequence: nat, createdAt: int)

  datatype Lane = Lane(sessionId: string, name: string, leafId: string, currentOperationId: string)

  datatype Phase = Ready | ModelPending | Tools | Checkpoint | FinalResponse | Suspended | Completed | FailedPhase | Aborted

  datatype OperationState = OperationState(phase: Phase, operationId: string, lane: string, detail: string, wellFormed: bool)

  datatype Meta = Meta(id: string, sessionId: string, lane: string, detail: string, executionValid: bool)

  datatype Operation = Operation(meta: Meta, state: OperationState)

  datatype Expectation = Anything | Expected(state: OperationState, laneOperationId: string)

  type LaneKey = (string, string)

  datatype Store = Store(sessions: set<string>, entries: map<string, Entry>, nextSequence: map<string, nat>,
                         lanes: map<LaneKey, Lane>, operations: map<string, Operation>)

  datatype Error =
    | SessionExists | SessionNotFound | EntryExists | ParentNotFound
    | LaneNameRequired | LaneBusy | LaneNotFound | LeafNotFound | LaneOperationNotFound
    | InvalidExecution | InvalidState | OperationExists | OperationNotFound
    | IdentityMismatch | InitialStateTerminal | LaneMismatch | OperationConflict | OperationTerminal
    | EntryCycle | EntryNotFound

  datatype Outcome = Accepted | Rejected(error: Error)

  datatype Call =
    | CreateSession(sessionId: string)
    | DeleteSession(sessionId: string)
    | AppendEntry(input: EntryInput, now: int)
    | SaveLane(lane: Lane)
    | StartOperation(meta: Meta, initial: OperationState)
    | SaveOperationState(state: OperationState, expectation: Expectation)

  predicate Terminal(s: OperationState) {
    s.phase == Completed || s.phase == FailedPhase || s.phase == Aborted
  }

  /** assertOperationState. */
  predicate StateValid(s: OperationState) {
    s.operationId != "" && s.lane != "" && s.wellFormed
  }

  // ---------- what each call does to a store ----------

  function NextOf(s: Store, sessionId: string): nat {
    if sessionId in s.nextSequence then s.nextSequence[sessionId] else 1
  }

  function Owner(s: Store, key: LaneKey): string {
    if key in s.lanes then s.lanes[key].currentOperationId else ""
  }

  function WithoutSession(s: Store, id: string): Store {
    Store(s.sessions - {id},
          map e | e in s.entries && s.entries[e].input.sessionId != id :: s.entries[e],
          s.nextSequence - {id},
          map k | k in s.lanes && s.lanes[k].sessionId != id :: s.lanes[k],
          map o | o in s.operations && s.operations[o].meta.sessionId != id :: s.operations[o])
  }

  function Step(s: Store, c: Call): (Store, Outcome) {
    match c
    case CreateSession(id) =>
      if id in s.sessions then (s, Rejected(SessionExists)) else (s.(sessions := s.sessions + {id}), Accepted)
    case DeleteSession(id) => (WithoutSession(s, id), Accepted)
    case AppendEntry(input, now) => Appended(s, input, now)
    case SaveLane(lane) => LaneSaved(s, lane)
    case StartOperation(meta, initial) => Started(s, meta, initial)
    case SaveOperationState(state, expectation) => StateSaved(s, state, expectation)
  }

  function Appended(s: Store, input: EntryInput, now: int): (Store, Outcome) {
    if input.sessionId !in s.sessions then (s, Rejected(SessionNotFound))
    else if input.id in s.entries then (s, Rejected(EntryExists))
    else if input.parentId != ""
            && (input.parentId !in s.entries || s.entries[input.parentId].input.sessionId != input.sessionId) then
      (s, Rejected(ParentNotFound))
    else
      var sequence := NextOf(s, input.sessionId);
      (s.(entries := s.entries[input.id := Entry(input, sequence, now)],
          nextSequence := s.nextSequence[input.sessionId := sequence + 1]), Accepted)
  }

  function LaneSaved(s: Store, lane: Lane): (Store, Outcome) {
    var key := (lane.sessionId, lane.name);
    if lane.sessionId !in s.sessions then (s, Rejected(SessionNotFound))
    else if lane.name == "" then (s, Rejected(LaneNameRequired))
    else if Owner(s, key) != "" && lane.currentOperationId != Owner(s, key) then (s, Rejected(LaneBusy))
    else if lane.leafId != ""
            && (lane.leafId !in s.entries || s.entries[lane.leafId].input.sessionId != lane.sessionId) then
      (s, Rejected(LeafNotFound))
    else if lane.currentOperationId != ""
            && (lane.currentOperationId !in s.operations
                || s.operations[lane.currentOperationId].meta.sessionId != lane.sessionId
                || s.operations[lane.currentOperationId].meta.lane != lane.name) then
      (s, Rejected(LaneOperationNotFound))
    else (s.(lanes := s.lanes[key := lane]), Accepted)
  }

  function Started(s: Store, meta: Meta, initial: OperationState): (Store, Outcome) {
    var key := (meta.sessionId, meta.lane);
    if !meta.executionValid then (s, Rejected(InvalidExecution))
    else if meta.sessionId !in s.sessions then (s, Rejected(SessionNotFound))
    else if meta.id in s.operations then (s, Rejected(OperationExists))
    else if initial.operationId != meta.id || initial.lane != meta.lane then (s, Rejected(IdentityMismatch))
    else if Terminal(initial) then (s, Rejected(InitialStateTerminal))
    else if !StateValid(initial) then (s, Rejected(InvalidState))
    else if key !in s.lanes then (s, Rejected(LaneNotFound))
    else if s.lanes[key].currentOperationId != "" then (s, Rejected(LaneBusy))
    else (s.(operations := s.operations[meta.id := Operation(meta, initial)],
             lanes := s.lanes[key := s.lanes[key].(currentOperationId := meta.id)]), Accepted)
  }

  function StateSaved(s: Store, state: OperationState, expectation: Expectation): (Store, Outcome) {
    if !StateValid(state) then (s, Rejected(InvalidState))
    else if state.operationId !in s.operations then (s, Rejected(OperationNotFound))
    else
      var operation := s.operations[state.operationId];
      var key := (operation.meta.sessionId, operation.meta.lane);
      if operation.meta.lane != state.lane then (s, Rejected(LaneMismatch))
      else if expectation.Expected?
              && (operation.state != expectation.state || Owner(s, key) != expectation.laneOperationId) then
        (s, Rejected(OperationConflict))
      else if Terminal(operation.state) && operation.state != state then (s, Rejected(OperationTerminal))
      else
        var saved := s.(operations := s.operations[state.operationId := Operation(operation.meta, state)]);
        if Terminal(state) && Owner(s, key) == state.operationId then
          (saved.(lanes := s.lanes[key := s.lanes[key].(currentOperationId := "")]), Accepted)
        else (saved, Accepted)
  }

  // ---------- the invariant of every reachable store ----------

  /** Entries are filed under their own id and numbered from 1 without gaps or repeats per
      session; a parent is an earlier entry of the same session. */
  ghost predicate EntriesValid(s: Store) {
    && (forall k | k in s.nextSequence :: k in s.sessions && s.nextSequence[k] >= 1)
    && (forall e | e in s.entries :: EntryValid(s, e))
    && (forall d, e | d in s.entries && e in s.entries
                      && s.entries[d].input.sessionId == s.entries[e].input.sessionId
                      && s.entries[d].sequence == s.entries[e].sequence :: d == e)
    && forall k, q | 1 <= q < NextOf(s, k) :: Numbered(s, k, q)
  }

  ghost predicate EntryValid(s: Store, e: string)
    requires e in s.entries
  {
    var entry := s.entries[e];
    && entry.input.id == e && entry.input.sessionId in s.sessions
    && 1 <= entry.sequence < NextOf(s, entry.input.sessionId)
    && (entry.input.parentId != "" ==> ParentBefore(s, e))
  }

  ghost predicate ParentBefore(s: Store, e: string)
    requires e in s.entries
  {
    var parentId := s.entries[e].input.parentId;
    && parentId in s.entries
    && s.entries[parentId].input.sessionId == s.entries[e].input.sessionId
    && s.entries[parentId].sequence < s.entries[e].sequence
  }

  ghost predicate Numbered(s: Store, sessionId: string, sequence: int) {
    exists e :: e in s.entries && s.entries[e].input.sessionId == sessionId && s.entries[e].sequence == sequence
  }

  ghost predicate LanesValid(s: Store) {
    forall k | k in s.lanes ::
      var lane := s.lanes[k];
      && k == (lane.sessionId, lane.name) && lane.sessionId in s.sessions
      && (lane.leafId != "" ==> lane.leafId in s.entries && s.entries[lane.leafId].input.sessionId == lane.sessionId)
      && (lane.currentOperationId != "" ==>
            && lane.currentOperationId in s.operations
            && s.operations[lane.currentOperationId].meta.sessionId == lane.sessionId
            && s.operations[lane.currentOperationId].meta.lane == lane.name)
  }

  /** A non-terminal operation is the current operation of its own lane. */
  ghost predicate OperationsValid(s: Store) {
    forall o | o in s.operations ::
      var op := s.operations[o];
      && o != "" && op.meta.id == o && op.state.operationId == o && op.state.lane == op.meta.lane
      && op.meta.sessionId in s.sessions
      && (!Terminal(op.state) ==> Owner(s, (op.meta.sessionId, op.meta.lane)) == o)
  }

  ghost predicate Valid(s: Store) {
    EntriesValid(s) && LanesValid(s) && OperationsValid(s)
  }

  lemma AppendKeepsEntries(s: Store, input: EntryInput, now: int)
    requires Valid(s)
    ensures EntriesValid(Appended(s, input, now).0)
  {
    var (t, outcome) := Appended(s, input, now);
    if outcome.Accepted? {
      AppendKeepsEach(s, input, now);
      AppendNumbers(s, input, now);
      forall d, e | d in t.entries && e in t.entries
                    && t.entries[d].input.sessionId == t.entries[e].input.sessionId
                    && t.entries[d].sequence == t.entries[e].sequence
        ensures d == e
      {
        if d in s.entries { assert EntryValid(s, d); }
        if e in s.entries { assert EntryValid(s, e); }
      }
    }
  }

  lemma AppendKeepsEach(s: Store, input: EntryInput, now: int)
    requires Valid(s) && Appended(s, input, now).1.Accepted?
    ensures var t := Appended(s, input, now).0; forall e | e in t.entries :: EntryValid(t, e)
  {
    var t := Appended(s, input, now).0;
    forall e | e in t.entries ensures EntryValid(t, e) {
      if e != input.id {
        assert EntryValid(s, e);
      } else if input.parentId != "" {
        assert EntryValid(s, input.parentId);
      }
    }
  }

  lemma AppendNumbers(s: Store, input: EntryInput, now: int)
    requires Valid(s) && Appended(s, input, now).1.Accepted?
    ensures var t := Appended(s, input, now).0; forall k, q | 1 <= q < NextOf(t, k) :: Numbered(t, k, q)
  {
    var t := Appended(s, input, now).0;
    forall k, q | 1 <= q < NextOf(t, k) ensures Numbered(t, k, q) {
      if q < NextOf(s, k) {
        assert Numbered(s, k, q);
        var e :| e in s.entries && s.entries[e].input.sessionId == k && s.entries[e].sequence == q;
        assert t.entries[e] == s.entries[e];
      } else {
        assert t.entries[input.id].sequence == q;
      }
    }
  }

  lemma DeleteKeepsEntries(s: Store, id: string)
    requires Valid(s)
    ensures EntriesValid(WithoutSession(s, id))
  {
    var t := WithoutSession(s, id);
    forall e | e in t.entries ensures EntryValid(t, e) {
      assert EntryValid(s, e);
    }
    forall k, q | 1 <= q < NextOf(t, k) ensures Numbered(t, k, q) {
      assert k != id && Numbered(s, k, q);
      var e :| e in s.entries && s.entries[e].input.sessionId == k && s.entries[e].sequence == q;
      assert e in t.entries;
    }
  }

  lemma SameEntries(s: Store, t: Store)
    requires EntriesValid(s) && t.entries == s.entries && t.nextSequence == s.nextSequence && s.sessions <= t.sessions
    ensures EntriesValid(t)
  {
    forall e | e in t.entries ensures EntryValid(t, e) {
      assert EntryValid(s, e);
    }
    forall k, q | 1 <= q < NextOf(t, k) ensures Numbered(t, k, q) {
      assert Numbered(s, k, q);
    }
  }

  lemma EntriesKeepOthers(s: Store, c: Call)
    requires Valid(s) && (c.DeleteSession? || c.AppendEntry? || c.CreateSession?)
    ensures LanesValid(Step(s, c).0) && OperationsValid(Step(s, c).0)
  {
    hide EntriesValid, Terminal;
  }

  lemma SaveLaneKeeps(s: Store, lane: Lane)
    requires Valid(s)
    ensures LanesValid(LaneSaved(s, lane).0) && OperationsValid(LaneSaved(s, lane).0)
  {
    hide EntriesValid, Terminal;
  }

  lemma StartKeeps(s: Store, meta: Meta, initial: OperationState)
    requires Valid(s)
    ensures LanesValid(Started(s, meta, initial).0) && OperationsValid(Started(s, meta, initial).0)
  {
    StartKeepsLanes(s, meta, initial);
    StartKeepsOperations(s, meta, initial);
  }

  lemma StartKeepsLanes(s: Store, meta: Meta, initial: OperationState)
    requires Valid(s)
    ensures LanesValid(Started(s, meta, initial).0)
  {
    hide EntriesValid, Terminal;
  }

  lemma StartKeepsOperations(s: Store, meta: Meta, initial: OperationState)
    requires Valid(s)
    ensures OperationsValid(Started(s, meta, initial).0)
  {
    hide EntriesValid, Terminal;
    var t := Started(s, meta, initial).0;
    forall o | o in t.operations && o != meta.id && Started(s, meta, initial).1.Accepted?
      ensures !Terminal(t.operations[o].state) ==>
                Owner(t, (t.operations[o].meta.sessionId, t.operations[o].meta.lane)) == o
    {
      assert t.operations[o] == s.operations[o];
    }
  }

  lemma SaveStateKeepsLanes(s: Store, state: OperationState, expectation: Expectation)
    requires Valid(s)
    ensures LanesValid(StateSaved(s, state, expectation).0)
  {
    hide EntriesValid, Terminal;
  }

  lemma SaveStateKeepsOperations(s: Store, state: OperationState, expectation: Expectation)
    requires Valid(s)
    ensures OperationsValid(StateSaved(s, state, expectation).0)
  {
    hide EntriesValid, Terminal;
    var (t, outcome) := StateSaved(s, state, expectation);
    if outcome.Accepted? {
      var saved := s.operations[state.operationId];
      forall o | o in t.operations && o != state.operationId && !Terminal(t.operations[o].state)
        ensures Owner(t, (t.operations[o].meta.sessionId, t.operations[o].meta.lane)) == o
      {
        assert t.operations[o] == s.operations[o];
      }
    }
  }

  /** Every call keeps the invariant, accepted or rejected. */
  lemma StepKeepsValid(s: Store, c: Call)
    requires Valid(s)
    ensures Valid(Step(s, c).0)
  {
    hide EntriesValid, LanesValid, OperationsValid, WithoutSession, Appended, LaneSaved, Started, StateSaved;
    match c {
      case CreateSession(id) =>
        EntriesKeepOthers(s, c);
        SameEntries(s, Step(s, c).0);
      case DeleteSession(id) =>
        EntriesKeepOthers(s, c);
        DeleteKeepsEntries(s, id);
      case AppendEntry(input, now) =>
        EntriesKeepOthers(s, c);
        AppendKeepsEntries(s, input, now);
      case SaveLane(lane) =>
        SaveLaneKeeps(s, lane);
        LanesLeaveEntries(s, c);
        SameEntries(s, Step(s, c).0);
      case StartOperation(meta, initial) =>
        StartKeeps(s, meta, initial);
        LanesLeaveEntries(s, c);
        SameEntries(s, Step(s, c).0);
      case SaveOperationState(state, expectation) =>
        SaveStateKeepsLanes(s, state, expectation);
        SaveStateKeepsOperations(s, state, expectation);
        LanesLeaveEntries(s, c);
        SameEntries(s, Step(s, c).0);
    }
  }

  lemma LanesLeaveEntries(s: Store, c: Call)
    requires c.SaveLane? || c.StartOperation? || c.SaveOperationState?
    ensures var t := Step(s, c).0;
            t.entries == s.entries && t.nextSequence == s.nextSequence && s.sessions == t.sessions
  {
  }

  // ---------- all runs ----------

  const EMPTY := Store({}, map[], map[], map[], map[])

  function Run(s: Store, calls: seq<Call>): Store
    decreases |calls|
  {
    if calls == [] then s else Run(Step(s, calls[0]).0, calls[1..])
  }

  lemma {:induction false} RunKeepsValid(s: Store, calls: seq<Call>)
    requires Valid(s)
    ensures Valid(Run(s, calls))
    decreases |calls|
  {
    hide Step, Valid;
    if calls != [] {
      StepKeepsValid(s, calls[0]);
      RunKeepsValid(Step(s, calls[0]).0, calls[1..]);
    }
  }

  /** In every store reachable from the empty one, no lane of a session has two non-terminal
      operations, and the one it may have is the lane's current operation. */
  lemma OneActiveOperationPerLane(calls: seq<Call>, a: string, b: string)
    requires var s := Run(EMPTY, calls);
             && a in s.operations && b in s.operations
             && !Terminal(s.operations[a].state) && !Terminal(s.operations[b].state)
             && s.operations[a].meta.sessionId == s.operations[b].meta.sessionId
             && s.operations[a].meta.lane == s.operations[b].meta.lane
    ensures a == b
    ensures Owner(Run(EMPTY, calls), (Run(EMPTY, calls).operations[a].meta.sessionId, Run(EMPTY, calls).operations[a].meta.lane)) == a
  {
    assert Valid(EMPTY);
    RunKeepsValid(EMPTY, calls);
  }

  /** A terminal operation keeps its state over any run that does not delete its session. */
  lemma {:induction false} TerminalIsFrozen(s: Store, calls: seq<Call>, o: string)
    requires Valid(s) && o in s.operations && Terminal(s.operations[o].state)
    requires forall c | c in calls :: c != DeleteSession(s.operations[o].meta.sessionId)
    ensures o in Run(s, calls).operations && Run(s, calls).operations[o] == s.operations[o]
    decreases |calls|
  {
    hide Step, Valid, Terminal;
    if calls != [] {
      var t := Step(s, calls[0]).0;
      assert calls[0] in calls && forall c | c in calls[1..] :: c in calls;
      TerminalStep(s, calls[0], o);
      StepKeepsValid(s, calls[0]);
      TerminalIsFrozen(t, calls[1..], o);
    }
  }

  lemma TerminalStep(s: Store, c: Call, o: string)
    requires Valid(s) && o in s.operations && Terminal(s.operations[o].state)
    requires c != DeleteSession(s.operations[o].meta.sessionId)
    ensures o in Step(s, c).0.operations && Step(s, c).0.operations[o] == s.operations[o]
  {
    hide EntriesValid, LanesValid;
  }

  // ---------- lanes and their operations ----------

  /** Starting an operation and finishing it with the state it was started with as expectation gives
      the lane back: nothing has changed but the record of the finished operation. */
  lemma StartThenFinish(s: Store, meta: Meta, initial: OperationState, last: OperationState)
    requires Valid(s) && Step(s, StartOperation(meta, initial)).1 == Accepted
    requires Terminal(last) && StateValid(last) && last.operationId == meta.id && last.lane == meta.lane
    ensures Step(Step(s, StartOperation(meta, initial)).0, SaveOperationState(last, Expected(initial, meta.id)))
         == (s.(operations := s.operations[meta.id := Operation(meta, last)]), Accepted)
  {
    hide EntriesValid, LanesValid, OperationsValid;
    var t := Step(s, StartOperation(meta, initial)).0;
    var key := (meta.sessionId, meta.lane);
    var u := Step(t, SaveOperationState(last, Expected(initial, meta.id))).0;
    assert u.lanes == s.lanes by {
      assert s.lanes[key].(currentOperationId := meta.id).(currentOperationId := "") == s.lanes[key];
    }
    assert u.operations == s.operations[meta.id := Operation(meta, last)];
  }

  /** A compare-and-swap wins once: whoever expects the same state after it is refused. */
  lemma SwapWinsOnce(s: Store, first: OperationState, second: OperationState, e: Expectation)
    requires e.Expected? && first != e.state && second.operationId == first.operationId
    requires Step(s, SaveOperationState(first, e)).1 == Accepted
    ensures var t := Step(s, SaveOperationState(first, e)).0;
            Step(t, SaveOperationState(second, e)).0 == t && Step(t, SaveOperationState(second, e)).1.Rejected?
  {
  }

  /** A lane pointed at a finished operation is busy until that operation's state is saved again,
      unchanged, which frees it. */
  lemma FinishedOwnerBlocks(s: Store, o: string, lane: Lane, meta: Meta, initial: OperationState)
    requires Valid(s) && o in s.operations && Terminal(s.operations[o].state) && StateValid(s.operations[o].state)
    requires Owner(s, (lane.sessionId, lane.name)) == o && s.operations[o].meta.sessionId == lane.sessionId
    requires s.operations[o].meta.lane == lane.name && meta.sessionId == lane.sessionId && meta.lane == lane.name
    ensures Step(s, StartOperation(meta, initial)).1 != Accepted
    ensures lane.currentOperationId != o ==> Step(s, SaveLane(lane)).1 != Accepted
    ensures var (t, outcome) := Step(s, SaveOperationState(s.operations[o].state, Anything));
            outcome == Accepted && t.operations == s.operations && Owner(t, (lane.sessionId, lane.name)) == ""
  {
  }

  // ---------- reading a path ----------

  function Rank(s: Store, id: string): nat {
    if id != "" && id in s.entries then s.entries[id].sequence else 0
  }

  /** An entry with all its ancestors, outermost first. */
  ghost function Ancestors(s: Store, id: string): seq<Entry>
    requires EntriesValid(s) && (id != "" ==> id in s.entries)
    decreases Rank(s, id)
  {
    if id == "" then []
    else
      assert EntryValid(s, id);
      Ancestors(s, s.entries[id].input.parentId) + [s.entries[id]]
  }

  /** A path starts at a root, each entry is the parent of the next, and numbers rise. */
  ghost predicate Chain(s: Store, path: seq<Entry>) {
    && (forall i | 0 <= i < |path| :: path[i].input.id in s.entries && s.entries[path[i].input.id] == path[i])
    && (forall i | 0 < i < |path| ::
          path[i].input.parentId == path[i - 1].input.id && path[i - 1].sequence < path[i].sequence)
    && (path != [] ==> path[0].input.parentId == "")
  }

  lemma ParentOf(s: Store, id: string)
    requires EntriesValid(s) && id != "" && id in s.entries
    ensures var parentId := s.entries[id].input.parentId;
            && (parentId != "" ==> parentId in s.entries)
            && Rank(s, parentId) < Rank(s, id)
            && Ancestors(s, id) == Ancestors(s, parentId) + [s.entries[id]]
  {
    assert EntryValid(s, id);
  }

  lemma ChainExtends(s: Store, path: seq<Entry>, id: string)
    requires Chain(s, path) && id in s.entries && s.entries[id].input.id == id
    requires if path == [] then s.entries[id].input.parentId == ""
             else var last := path[|path| - 1];
                  s.entries[id].input.parentId == last.input.id && last.sequence < s.entries[id].sequence
    ensures Chain(s, path + [s.entries[id]])
  {
  }

  /** The ancestors form a chain that ends in the entry itself. */
  lemma {:induction false} AncestorsChain(s: Store, id: string)
    requires EntriesValid(s) && (id != "" ==> id in s.entries)
    ensures Chain(s, Ancestors(s, id))
    ensures id != "" ==> Ancestors(s, id) != [] && Ancestors(s, id)[|Ancestors(s, id)| - 1] == s.entries[id]
    decreases Rank(s, id)
  {
    if id != "" {
      ParentOf(s, id);
      assert EntryValid(s, id);
      var parentId := s.entries[id].input.parentId;
      assert parentId != "" ==> s.entries[parentId].input.id == parentId by {
        if parentId != "" {
          assert EntryValid(s, parentId);
        }
      }
      hide EntriesValid, Chain, Ancestors;
      AncestorsChain(s, parentId);
      EmptyAncestors(s);
      ChainExtends(s, Ancestors(s, parentId), id);
    }
    EmptyAncestors(s);
  }

  lemma EmptyAncestors(s: Store)
    requires EntriesValid(s)
    ensures Ancestors(s, "") == [] && Chain(s, [])
  {
  }

  // ---------- the store object ----------

  class MemoryRuntimeStore {
    var sessions: set<string>
    var entries: map<string, Entry>
    var nextSequence: map<string, nat>
    var lanes: map<LaneKey, Lane>
    var operations: map<string, Operation>

    function State(): Store
      reads this
    {
      Store(sessions, entries, nextSequence, lanes, operations)
    }

    constructor ()
      ensures State() == EMPTY && Valid(State())
    {
      sessions, entries, nextSequence, lanes, operations := {}, map[], map[], map[], map[];
    }

    method Create(id: string) returns (o: Outcome)
      modifies this
      ensures (State(), o) == Step(old(State()), CreateSession(id))
    {
      if id in sessions {
        return Rejected(SessionExists);
      }
      sessions := sessions + {id};
      o := Accepted;
    }

    method Delete(id: string) returns (o: Outcome)
      modifies this
      ensures (State(), o) == Step(old(State()), DeleteSession(id))
    {
      sessions := sessions - {id};
      nextSequence := nextSequence - {id};
      entries := map e | e in entries && entries[e].input.sessionId != id :: entries[e];
      lanes := map k | k in lanes && lanes[k].sessionId != id :: lanes[k];
      operations := map o | o in operations && operations[o].meta.sessionId != id :: operations[o];
      o := Accepted;
    }

    method Append(input: EntryInput, now: int) returns (o: Outcome)
      modifies this
      ensures (State(), o) == Step(old(State()), AppendEntry(input, now))
    {
      if input.sessionId !in sessions {
        return Rejected(SessionNotFound);
      }
      if input.id in entries {
        return Rejected(EntryExists);
      }
      if input.parentId != "" {
        if input.parentId !in entries || entries[input.parentId].input.sessionId != input.sessionId {
          return Rejected(ParentNotFound);
        }
      }
      var sequence := if input.sessionId in nextSequence then nextSequence[input.sessionId] else 1;
      entries := entries[input.id := Entry(input, sequence, now)];
      nextSequence := nextSequence[input.sessionId := sequence + 1];
      o := Accepted;
    }

    /** Reading from any stored entry succeeds with its full ancestor chain; the cycle error
        cannot occur. */
    method ReadPath(leafId: string) returns (o: Outcome, path: seq<Entry>)
      requires EntriesValid(State())
      ensures leafId == "" || leafId in entries ==> o == Accepted && path == Ancestors(State(), leafId)
      ensures leafId != "" && leafId !in entries ==> o == Rejected(EntryNotFound) && path == []
    {
      path := [];
      var visited := {};
      var id := leafId;
      while id != ""
        invariant (id == leafId && path == [] && visited == {}) || (leafId in entries && (id != "" ==> id in entries))
        invariant leafId == "" || leafId in entries ==> Ancestors(State(), id) + path == Ancestors(State(), leafId)
        invariant forall v | v in visited :: v in entries && Rank(State(), id) < entries[v].sequence
        decreases Rank(State(), id), id != ""
      {
        if id in visited {
          assert false;
          return Rejected(EntryCycle), [];
        }
        visited := visited + {id};
        if id !in entries {
          return Rejected(EntryNotFound), [];
        }
        ParentOf(State(), id);
        var entry := entries[id];
        JoinAssociates(Ancestors(State(), entry.input.parentId), [entry], path);
        path := [entry] + path;
        id := entry.input.parentId;
      }
      o := Accepted;
    }

    method Save(lane: Lane) returns (o: Outcome)
      modifies this
      ensures (State(), o) == Step(old(State()), SaveLane(lane))
    {
      if lane.sessionId !in sessions {
        return Rejected(SessionNotFound);
      }
      if lane.name == "" {
        return Rejected(LaneNameRequired);
      }
      var key := (lane.sessionId, lane.name);
      if key in lanes && lanes[key].currentOperationId != "" && lane.currentOperationId != lanes[key].currentOperationId {
        return Rejected(LaneBusy);
      }
      if lane.leafId != "" {
        if lane.leafId !in entries || entries[lane.leafId].input.sessionId != lane.sessionId {
          return Rejected(LeafNotFound);
        }
      }
      if lane.currentOperationId != "" {
        if lane.currentOperationId !in operations {
          return Rejected(LaneOperationNotFound);
        }
        var meta := operations[lane.currentOperationId].meta;
        if meta.sessionId != lane.sessionId || meta.lane != lane.name {
          return Rejected(LaneOperationNotFound);
        }
      }
      lanes := lanes[key := lane];
      o := Accepted;
    }

    method Start(meta: Meta, initial: OperationState) returns (o: Outcome)
      modifies this
      ensures (State(), o) == Step(old(State()), StartOperation(meta, initial))
    {
      if !meta.executionValid {
        return Rejected(InvalidExecution);
      }
      if meta.sessionId !in sessions {
        return Rejected(SessionNotFound);
      }
      if meta.id in operations {
        return Rejected(OperationExists);
      }
      if initial.operationId != meta.id || initial.lane != meta.lane {
        return Rejected(IdentityMismatch);
      }
      if Terminal(initial) {
        return Rejected(InitialStateTerminal);
      }
      if !StateValid(initial) {
        return Rejected(InvalidState);
      }
      var key := (meta.sessionId, meta.lane);
      if key !in lanes {
        return Rejected(LaneNotFound);
      }
      var lane := lanes[key];
      if lane.currentOperationId != "" {
        return Rejected(LaneBusy);
      }
      operations := operations[meta.id := Operation(meta, initial)];
      lanes := lanes[key := lane.(currentOperationId := meta.id)];
      o := Accepted;
    }

    method SaveState(state: OperationState, expectation: Expectation) returns (o: Outcome)
      modifies this
      ensures (State(), o) == Step(old(State()), SaveOperationState(state, expectation))
    {
      if !StateValid(state) {
        return Rejected(InvalidState);
      }
      if state.operationId !in operations {
        return Rejected(OperationNotFound);
      }
      var operation := operations[state.operationId];
      if operation.meta.lane != state.lane {
        return Rejected(LaneMismatch);
      }
      var key := (operation.meta.sessionId, operation.meta.lane);
      var owner := if key in lanes then lanes[key].currentOperationId else "";
      if expectation.Expected? && (operation.state != expectation.state || owner != expectation.laneOperationId) {
        return Rejected(OperationConflict);
      }
      if Terminal(operation.state) && operation.state != state {
        return Rejected(OperationTerminal);
      }
      operations := operations[state.operationId := Operation(operation.meta, state)];
      if Terminal(state) && key in lanes && lanes[key].currentOperationId == state.operationId {
        lanes := lanes[key := lanes[key].(currentOperationId := "")];
      }
      o := Accepted;
    }
  }
}
