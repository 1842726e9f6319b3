/** What the runtime store promises about history: an appended entry is read back behind its parent's
    path, paths never change until their session is deleted, and deleting one session leaves the others. */
module RuntimeHistory {
  import opened RuntimeStore

  // ---------- appending and reading back ----------

  /** The entries of a session. */
  function EntriesOf(s: Store, sessionId: string): set<string> {
    set e | e in s.entries && s.entries[e].input.sessionId == sessionId
  }

  /** Numbers 1 to n - 1 are taken by as many entries. */
  lemma SequenceCounts(s: Store, sessionId: string)
    requires EntriesValid(s)
    ensures NextOf(s, sessionId) == |EntriesOf(s, sessionId)| + 1
  {
    if sessionId in s.nextSequence {
      assert s.nextSequence[sessionId] >= 1;
    }
    CountUpTo(s, sessionId, NextOf(s, sessionId));
    var below := EntriesBelow(s, sessionId, NextOf(s, sessionId));
    forall e | e in EntriesOf(s, sessionId) ensures e in below {
      assert EntryValid(s, e);
    }
    assert below == EntriesOf(s, sessionId);
  }

  function EntriesBelow(s: Store, sessionId: string, n: nat): set<string> {
    set e | e in s.entries && s.entries[e].input.sessionId == sessionId && s.entries[e].sequence < n
  }

  lemma OneNumbered(s: Store, sessionId: string, q: nat) returns (e: string)
    requires EntriesValid(s) && 1 <= q < NextOf(s, sessionId)
    ensures e in s.entries && s.entries[e].input.sessionId == sessionId && s.entries[e].sequence == q
    ensures forall d | d in s.entries && s.entries[d].input.sessionId == sessionId && s.entries[d].sequence == q :: d == e
  {
    assert Numbered(s, sessionId, q);
    e :| e in s.entries && s.entries[e].input.sessionId == sessionId && s.entries[e].sequence == q;
  }

  lemma {:induction false} CountUpTo(s: Store, sessionId: string, n: nat)
    requires EntriesValid(s) && 1 <= n <= NextOf(s, sessionId)
    ensures |EntriesBelow(s, sessionId, n)| == n - 1
  {
    if n == 1 {
      forall e | e in s.entries ensures s.entries[e].sequence >= 1 {
        assert EntryValid(s, e);
      }
      assert EntriesBelow(s, sessionId, n) == {};
    } else {
      hide EntriesValid;
      CountUpTo(s, sessionId, n - 1);
      var e := OneNumbered(s, sessionId, n - 1);
      assert EntriesBelow(s, sessionId, n) == EntriesBelow(s, sessionId, n - 1) + {e};
    }
  }

  /** An entry is accepted exactly under a new id in an existing session, at the root or behind an entry
      of that session. It gets the next number of its session, and reading it back gives its parent's
      path followed by the entry as it was given. */
  lemma AppendReadsBack(s: Store, input: EntryInput, now: int)
    requires Valid(s)
    ensures var (t, outcome) := Step(s, AppendEntry(input, now));
            && (outcome == Accepted <==>
                  && input.sessionId in s.sessions && input.id !in s.entries
                  && (input.parentId == "" || input.parentId in EntriesOf(s, input.sessionId)))
            && (outcome != Accepted ==> t == s)
            && (outcome == Accepted && input.id != "" ==>
                  && Valid(t) && input.id in t.entries && (input.parentId == "" || input.parentId in s.entries)
                  && Ancestors(t, input.id)
                     == Ancestors(s, input.parentId) + [Entry(input, |EntriesOf(s, input.sessionId)| + 1, now)])
  {
    var (t, outcome) := Step(s, AppendEntry(input, now));
    SequenceCounts(s, input.sessionId);
    if outcome == Accepted && input.id != "" {
      StepKeepsValid(s, AppendEntry(input, now));
      ParentOf(t, input.id);
      hide Valid, EntriesValid, Step;
      SameAncestors(s, t, input.parentId);
    }
  }

  /** Reading an entry that two stores share with all its ancestors. */
  lemma {:induction false} SameAncestors(s: Store, t: Store, id: string)
    requires EntriesValid(s) && EntriesValid(t) && (id != "" ==> id in s.entries)
    requires forall e | e in s.entries && (id != "" ==> s.entries[e].input.sessionId == s.entries[id].input.sessionId) ::
               e in t.entries && t.entries[e] == s.entries[e]
    ensures (id != "" ==> id in t.entries) && Ancestors(t, id) == Ancestors(s, id)
    decreases Rank(s, id)
  {
    if id != "" {
      ParentOf(s, id);
      ParentOf(t, id);
      assert EntryValid(s, id);
      var parentId := s.entries[id].input.parentId;
      if parentId != "" {
        assert ParentBefore(s, id);
        SameAncestors(s, t, parentId);
      } else {
        EmptyAncestors(s);
        EmptyAncestors(t);
      }
    } else {
      EmptyAncestors(s);
      EmptyAncestors(t);
    }
  }

  /** A refused call changes nothing; a session is created once, empty. */
  lemma RefusedChangesNothing(s: Store, c: Call)
    requires Valid(s)
    ensures Step(s, c).1 != Accepted ==> Step(s, c).0 == s
    ensures c.CreateSession? ==>
              && (Step(s, c).1 == Accepted <==> c.sessionId !in s.sessions)
              && (Step(s, c).1 == Accepted ==>
                    Step(s, c).0 == s.(sessions := s.sessions + {c.sessionId}) && EntriesOf(Step(s, c).0, c.sessionId) == {})
  {
    if c.CreateSession? && c.sessionId !in s.sessions {
      forall e | e in s.entries ensures s.entries[e].input.sessionId != c.sessionId {
        assert EntryValid(s, e);
      }
    }
  }

  // ---------- history lasts ----------

  lemma StepKeepsPath(s: Store, c: Call, id: string)
    requires Valid(s) && id in s.entries && c != DeleteSession(s.entries[id].input.sessionId)
    ensures var t := Step(s, c).0;
            Valid(t) && id in t.entries && t.entries[id] == s.entries[id] && Ancestors(t, id) == Ancestors(s, id)
  {
    hide Ancestors, Valid, EntriesValid, Step;
    var t := Step(s, c).0;
    StepKeepsValid(s, c);
    ValidEntries(s);
    ValidEntries(t);
    StepKeepsEntries(s, c, s.entries[id].input.sessionId);
    if id != "" {
      SameAncestors(s, t, id);
    } else {
      EmptyAncestors(s);
      EmptyAncestors(t);
    }
  }

  lemma StepKeepsEntries(s: Store, c: Call, sessionId: string)
    requires c != DeleteSession(sessionId)
    ensures var t := Step(s, c).0;
            forall e | e in s.entries && s.entries[e].input.sessionId == sessionId :: e in t.entries && t.entries[e] == s.entries[e]
  {
  }

  lemma ValidEntries(s: Store)
    requires Valid(s)
    ensures EntriesValid(s)
  {
  }

  /** Over any calls that do not delete its session, failed ones included, an entry and the whole path
      to it stay as they are. */
  lemma {:induction false} PathsLast(s: Store, calls: seq<Call>, id: string)
    requires Valid(s) && id in s.entries
    requires forall c | c in calls :: c != DeleteSession(s.entries[id].input.sessionId)
    ensures var t := Run(s, calls);
            Valid(t) && id in t.entries && t.entries[id] == s.entries[id] && Ancestors(t, id) == Ancestors(s, id)
    decreases |calls|
  {
    hide Step, Valid, Ancestors;
    if calls != [] {
      assert calls[0] in calls && forall c | c in calls[1..] :: c in calls;
      StepKeepsPath(s, calls[0], id);
      PathsLast(Step(s, calls[0]).0, calls[1..], id);
    }
  }

  /** Deleting a session removes all it has, and nothing of any other. */
  lemma DeleteIsExact(s: Store, id: string)
    requires Valid(s)
    ensures var (t, outcome) := Step(s, DeleteSession(id));
            && outcome == Accepted && t.sessions == s.sessions - {id} && Valid(t)
            && (forall e :: e in t.entries <==> e in s.entries && s.entries[e].input.sessionId != id)
            && (forall k :: k in t.lanes <==> k in s.lanes && k.0 != id)
            && (forall o :: o in t.operations <==> o in s.operations && s.operations[o].meta.sessionId != id)
            && NextOf(t, id) == 1
            && (forall e | e in t.entries :: t.entries[e] == s.entries[e])
            && (forall k | k in t.lanes :: t.lanes[k] == s.lanes[k])
            && (forall o | o in t.operations :: t.operations[o] == s.operations[o])
            && (forall k | k != id :: NextOf(t, k) == NextOf(s, k))
  {
    StepKeepsValid(s, DeleteSession(id));
  }

  // ---------- who may change a lane ----------

  /** A lane whose operation is running is given to nobody else: an accepted save keeps the operation,
      and names a leaf of the lane's own session. */
  lemma BusyLaneKeepsItsOwner(s: Store, lane: Lane)
    requires Valid(s) && Step(s, SaveLane(lane)).1 == Accepted
    ensures var t, key := Step(s, SaveLane(lane)).0, (lane.sessionId, lane.name);
            && t == s.(lanes := s.lanes[key := lane]) && lane.sessionId in s.sessions && lane.name != ""
            && (Owner(s, key) != "" ==> Owner(t, key) == Owner(s, key))
            && (lane.leafId != "" ==> lane.leafId in EntriesOf(s, lane.sessionId))
            && (lane.currentOperationId != "" ==>
                  lane.currentOperationId in s.operations && s.operations[lane.currentOperationId].meta.sessionId == lane.sessionId
                  && s.operations[lane.currentOperationId].meta.lane == lane.name)
  {
  }

  /** A free lane of the session can be moved to any of the session's entries. */
  lemma FreeLaneMoves(s: Store, lane: Lane)
    requires Valid(s) && lane.sessionId in s.sessions && lane.name != "" && lane.currentOperationId == ""
    requires Owner(s, (lane.sessionId, lane.name)) == "" && (lane.leafId == "" || lane.leafId in EntriesOf(s, lane.sessionId))
    ensures Step(s, SaveLane(lane)) == (s.(lanes := s.lanes[(lane.sessionId, lane.name) := lane]), Accepted)
  {
  }

  /** An operation starts exactly on a free lane of its session, under a new id, in a state of its own
      that is not terminal. */
  lemma StartsOnFreeLane(s: Store, meta: Meta, initial: OperationState)
    requires Valid(s) && meta.executionValid && StateValid(initial)
    ensures Step(s, StartOperation(meta, initial)).1 == Accepted
            <==> && (meta.sessionId, meta.lane) in s.lanes && Owner(s, (meta.sessionId, meta.lane)) == ""
                 && meta.id !in s.operations && initial.operationId == meta.id && initial.lane == meta.lane
                 && initial.phase != Completed && initial.phase != FailedPhase && initial.phase != Aborted
    ensures Step(s, StartOperation(meta, initial)).1 == Accepted ==>
              Owner(Step(s, StartOperation(meta, initial)).0, (meta.sessionId, meta.lane)) == meta.id
  {
  }

  /** An operation has an id and a lane, and its state is one that passes its checks. */
  lemma OperationsAreNamed(s: Store, meta: Meta, initial: OperationState, state: OperationState, expectation: Expectation)
    ensures Step(s, StartOperation(meta, initial)).1 == Accepted ==> meta.id != "" && meta.lane != "" && initial.wellFormed
    ensures Step(s, SaveOperationState(state, expectation)).1 == Accepted ==>
              state.operationId != "" && state.lane != "" && state.wellFormed && state.operationId in s.operations
    ensures StateValid(state) <==> state.operationId != "" && state.lane != "" && state.wellFormed
  {
  }

  /** A conditional save is refused whenever the state or the lane's owner is not the expected one, and
      accepted on a running operation when both are; the lane is given up exactly by its own operation's end. */
  lemma ConditionalSave(s: Store, state: OperationState, expected: OperationState, owner: string)
    requires Valid(s) && StateValid(state) && state.operationId in s.operations
    requires s.operations[state.operationId].meta.lane == state.lane
    requires var phase := s.operations[state.operationId].state.phase;
             phase != Completed && phase != FailedPhase && phase != Aborted
    ensures var meta := s.operations[state.operationId].meta;
            var (t, outcome) := Step(s, SaveOperationState(state, Expected(expected, owner)));
            var key := (meta.sessionId, meta.lane);
            && (outcome == Accepted <==> s.operations[state.operationId].state == expected && Owner(s, key) == owner)
            && (outcome != Accepted ==> t == s)
            && (outcome == Accepted ==>
                  && t.operations == s.operations[state.operationId := Operation(meta, state)]
                  && Owner(t, key) == (if state.phase == Completed || state.phase == FailedPhase || state.phase == Aborted then "" else owner)
                  && forall k | k != key :: Owner(t, k) == Owner(s, k))
  {
  }
}
