/** Topics of the conversation map, packages/contracts/src/conversation-map.ts: the order of the
    evidence, the checks on a topic's changes, and that accepted changes never run in a circle. */
module ConversationMap {
  import opened Sequences

  datatype Reference = Reference(sessionId: string, entryId: string, sequence: nat, createdAt: int)

  datatype Event = Event(
    id: string, topicId: string, subjectKey: string, dimensionKey: string, evidence: seq<Reference>, truncatedSource: bool)

  datatype Change = Change(id: string, topicId: string, fromEventId: string, toEventId: string)

  datatype Insight = Insight(id: string, eventIds: seq<string>, changeIds: seq<string>)

  datatype Topic = Topic(
    id: string, events: seq<Event>, changes: seq<Change>, insights: seq<Insight>, visibleEventIds: seq<string>)

  datatype Issue = DuplicateId | ForeignItem | BadVisible | UnknownEndpoint | BadChange | SplitVisible | BadInsight

  /** The evidence schema asks for at least one reference. */
  ghost predicate HasEvidence(topic: Topic) {
    forall e | e in topic.events :: e.evidence != []
  }

  // ---------- the order of the evidence ----------

  /** Messages of one session go by sequence number, of different sessions by time. */
  predicate Before(a: Reference, b: Reference) {
    if a.sessionId == b.sessionId then a.sequence < b.sequence && b.createdAt >= a.createdAt else b.createdAt > a.createdAt
  }

  predicate Precedes(from: Event, to: Event) {
    forall a, b | a in from.evidence && b in to.evidence :: Before(a, b)
  }

  /** Each event of a chain precedes the next. */
  ghost predicate Chain(events: seq<Event>) {
    && (forall i | 0 <= i < |events| :: events[i].evidence != [])
    && (forall i | 0 <= i < |events| - 1 :: Precedes(events[i], events[i + 1]))
  }

  /** Earlier by time, or as early and of a smaller sequence number. */
  predicate Earlier(a: Reference, b: Reference) {
    a.createdAt < b.createdAt || (a.createdAt == b.createdAt && a.sequence < b.sequence)
  }

  lemma PrecedesIsEarlier(from: Event, to: Event)
    requires from.evidence != [] && to.evidence != [] && Precedes(from, to)
    ensures Earlier(from.evidence[0], to.evidence[0])
  {
    assert Before(from.evidence[0], to.evidence[0]);
  }

  /** Along a chain of any length the first references go strictly forward. */
  lemma {:induction false} ChainGoesForward(events: seq<Event>)
    requires Chain(events) && |events| > 1
    ensures Earlier(events[0].evidence[0], events[|events| - 1].evidence[0])
    decreases |events|
  {
    var n := |events|;
    PrecedesIsEarlier(events[n - 2], events[n - 1]);
    if n > 2 {
      ChainGoesForward(events[..n - 1]);
    }
  }

  /** No chain comes back to the event it started from, nor to one with the same first reference. */
  lemma NoCircle(events: seq<Event>)
    requires Chain(events) && |events| > 1
    ensures events[0] != events[|events| - 1]
    ensures events[0].evidence[0] != events[|events| - 1].evidence[0]
  {
    ChainGoesForward(events);
  }

  /** Where two events quote one session, its later message has the larger sequence number. */
  ghost predicate ClocksAgree(from: Event, to: Event) {
    forall a, b | a in from.evidence && b in to.evidence && a.sessionId == b.sessionId && a.createdAt < b.createdAt ::
      a.sequence < b.sequence
  }

  /** Two steps of the order make one exactly when the sequence numbers of the sessions the ends
      share agree with the clock. */
  lemma PrecedesTransitive(a: Event, b: Event, c: Event)
    requires b.evidence != [] && Precedes(a, b) && Precedes(b, c)
    ensures Precedes(a, c) <==> ClocksAgree(a, c)
  {
    if ClocksAgree(a, c) {
      forall x, z | x in a.evidence && z in c.evidence ensures Before(x, z) {
        var y := b.evidence[0];
        assert Before(x, y) && Before(y, z);
      }
    } else {
      var x, z :| x in a.evidence && z in c.evidence && x.sessionId == z.sessionId && x.sequence >= z.sequence;
      assert !Before(x, z);
    }
  }

  /** Without that it is not: an early message of a session with a late sequence number. */
  lemma PrecedesNotTransitive()
    ensures exists a, b, c :: Precedes(a, b) && Precedes(b, c) && !Precedes(a, c)
  {
    var a := Event("a", "t", "s", "d", [Reference("one", "x", 5, 1)], false);
    var b := Event("b", "t", "s", "d", [Reference("two", "y", 0, 2)], false);
    var c := Event("c", "t", "s", "d", [Reference("one", "z", 3, 3)], false);
    assert Precedes(a, b) && Precedes(b, c);
    assert a.evidence[0] in a.evidence && c.evidence[0] in c.evidence && !Before(a.evidence[0], c.evidence[0]);
  }

  // ---------- which topics are accepted ----------

  /** Later events with the same id replace earlier ones, as in a Map. */
  function EventMap(events: seq<Event>): map<string, Event> {
    if events == [] then map[] else EventMap(events[..|events| - 1])[events[|events| - 1].id := events[|events| - 1]]
  }

  function ChangeIds(changes: seq<Change>): set<string> {
    set c | c in changes :: c.id
  }

  /** All ids of a topic, its own first. */
  function ItemIds(topic: Topic): seq<string> {
    [topic.id]
    + seq(|topic.events|, i requires 0 <= i < |topic.events| => topic.events[i].id)
    + seq(|topic.changes|, i requires 0 <= i < |topic.changes| => topic.changes[i].id)
    + seq(|topic.insights|, i requires 0 <= i < |topic.insights| => topic.insights[i].id)
  }

  predicate Independent(from: Event, to: Event) {
    forall a, b | a in from.evidence && b in to.evidence :: a.sessionId != b.sessionId || a.entryId != b.entryId
  }

  predicate ChangeSupported(from: Event, to: Event) {
    && Precedes(from, to) && Independent(from, to)
    && from.subjectKey == to.subjectKey && from.dimensionKey == to.dimensionKey
    && !from.truncatedSource && !to.truncatedSource
  }

  predicate ChangeAccepted(change: Change, events: map<string, Event>, visible: set<string>) {
    && change.fromEventId in events && change.toEventId in events
    && ChangeSupported(events[change.fromEventId], events[change.toEventId])
    && (events[change.fromEventId].id in visible <==> events[change.toEventId].id in visible)
  }

  predicate InsightAccepted(insight: Insight, eventIds: set<string>, changeIds: set<string>) {
    && (forall e | e in insight.eventIds :: e in eventIds)
    && (forall c | c in insight.changeIds :: c in changeIds)
  }

  ghost predicate Accepted(topic: Topic) {
    && Distinct(ItemIds(topic))
    && (forall e | e in topic.events :: e.topicId == topic.id)
    && (forall c | c in topic.changes :: c.topicId == topic.id)
    && Distinct(topic.visibleEventIds)
    && (forall v | v in topic.visibleEventIds :: v in EventMap(topic.events))
    && (forall c | c in topic.changes :: ChangeAccepted(c, EventMap(topic.events), Elements(topic.visibleEventIds)))
    && (forall i | i in topic.insights :: InsightAccepted(i, EventMap(topic.events).Keys, ChangeIds(topic.changes)))
  }

  // ---------- the checks ----------

  /** Duplicate ids among all items, found with one growing set. */
  method CheckIds(ids: seq<string>) returns (ok: bool)
    ensures ok <==> Distinct(ids)
  {
    var seen := {};
    ok := true;
    for i := 0 to |ids|
      invariant seen == Elements(ids[..i])
      invariant ok <==> Distinct(ids[..i])
    {
      assert ids[..i + 1] == ids[..i] + [ids[i]];
      if ids[i] in seen {
        ok := false;
      }
      seen := seen + {ids[i]};
    }
    assert ids[..|ids|] == ids;
  }

  method CheckChanges(topic: Topic, events: map<string, Event>, visible: set<string>) returns (issues: seq<Issue>)
    ensures issues == [] <==> forall c | c in topic.changes :: ChangeAccepted(c, events, visible)
  {
    hide Precedes, Independent;
    issues := [];
    for i := 0 to |topic.changes|
      invariant issues == [] <==> forall k | 0 <= k < i :: ChangeAccepted(topic.changes[k], events, visible)
    {
      var change := topic.changes[i];
      if change.fromEventId !in events || change.toEventId !in events {
        issues := issues + [UnknownEndpoint];
        continue;
      }
      var from, to := events[change.fromEventId], events[change.toEventId];
      if !Precedes(from, to) || !Independent(from, to) || from.subjectKey != to.subjectKey
         || from.dimensionKey != to.dimensionKey || from.truncatedSource || to.truncatedSource {
        issues := issues + [BadChange];
      }
      if (from.id in visible) != (to.id in visible) {
        issues := issues + [SplitVisible];
      }
    }
  }

  /** The refinement of ConversationTopicV2Schema. */
  method Check(topic: Topic) returns (issues: seq<Issue>)
    ensures issues == [] <==> Accepted(topic)
  {
    hide ItemIds, Distinct, ChangeAccepted, InsightAccepted, EventMap, ChangeIds, Elements;
    var events := EventMap(topic.events);
    var visible := Elements(topic.visibleEventIds);
    issues := [];
    var distinct := CheckIds(ItemIds(topic));
    if !distinct {
      issues := issues + [DuplicateId];
    }
    if (exists e | e in topic.events :: e.topicId != topic.id) || (exists c | c in topic.changes :: c.topicId != topic.id) {
      issues := issues + [ForeignItem];
    }
    var distinctVisible := CheckIds(topic.visibleEventIds);
    if !distinctVisible || exists v | v in topic.visibleEventIds :: v !in events {
      issues := issues + [BadVisible];
    }
    var changeIssues := CheckChanges(topic, events, visible);
    issues := issues + changeIssues;
    if exists i | i in topic.insights :: !InsightAccepted(i, events.Keys, ChangeIds(topic.changes)) {
      issues := issues + [BadInsight];
    }
  }

  // ---------- accepted changes form no circle ----------

  /** Changes that lead on from one another. */
  ghost predicate Path(topic: Topic, path: seq<Change>) {
    && path != [] && (forall i | 0 <= i < |path| :: path[i] in topic.changes)
    && (forall i | 0 <= i < |path| - 1 :: path[i].toEventId == path[i + 1].fromEventId)
  }

  lemma {:induction false} EventMapHolds(events: seq<Event>, id: string)
    ensures id in EventMap(events) ==> EventMap(events)[id] in events && EventMap(events)[id].id == id
  {
    if events != [] {
      EventMapHolds(events[..|events| - 1], id);
    }
  }

  /** The events a path of changes visits. */
  function Visited(topic: Topic, path: seq<Change>): seq<Event>
    requires path != [] && forall i | 0 <= i < |path| ::
               path[i].fromEventId in EventMap(topic.events) && path[i].toEventId in EventMap(topic.events)
  {
    [EventMap(topic.events)[path[0].fromEventId]]
    + seq(|path|, i requires 0 <= i < |path| => EventMap(topic.events)[path[i].toEventId])
  }

  /** However many changes of an accepted topic are followed, they never lead back to where they began. */
  lemma ChangesAcyclic(topic: Topic, path: seq<Change>)
    requires HasEvidence(topic) && Accepted(topic) && Path(topic, path)
    ensures path[0].fromEventId != path[|path| - 1].toEventId
  {
    hide Precedes, Independent, ItemIds, Distinct, EventMap;
    var events := EventMap(topic.events);
    forall i | 0 <= i < |path| ensures ChangeAccepted(path[i], events, Elements(topic.visibleEventIds)) {
      assert path[i] in topic.changes;
    }
    var visited := Visited(topic, path);
    forall i | 0 <= i < |visited| ensures visited[i].evidence != [] {
      EventMapHolds(topic.events, if i == 0 then path[0].fromEventId else path[i - 1].toEventId);
    }
    forall i | 0 <= i < |visited| - 1 ensures Precedes(visited[i], visited[i + 1]) {
      assert visited[i] == events[path[i].fromEventId];
    }
    NoCircle(visited);
  }
}
