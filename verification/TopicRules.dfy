/** What an accepted topic of the conversation map promises, in terms of its own items: which events a
    change joins, in which order, and what insights may name. */
module TopicRules {
  import opened Sequences
  import opened ConversationMap

  // ---------- ids ----------

  function EventIds(topic: Topic): set<string> {
    set e | e in topic.events :: e.id
  }

  function InsightIds(topic: Topic): set<string> {
    set i | i in topic.insights :: i.id
  }

  function OwnChangeIds(topic: Topic): set<string> {
    set c | c in topic.changes :: c.id
  }

  /** The topic, its events, changes and insights all have ids of their own. */
  ghost predicate IdsApart(topic: Topic) {
    |{topic.id} + EventIds(topic) + OwnChangeIds(topic) + InsightIds(topic)|
    == 1 + |topic.events| + |topic.changes| + |topic.insights|
  }

  lemma ElementsJoin<T>(a: seq<T>, b: seq<T>)
    ensures Elements(a + b) == Elements(a) + Elements(b)
  {
  }

  lemma ItemIdsParts(topic: Topic)
    ensures var ids, n, m := ItemIds(topic), |topic.events|, |topic.changes|;
            && |ids| == 1 + n + m + |topic.insights| && ids[0] == topic.id
            && Elements(ids[1..1 + n]) == EventIds(topic) && Elements(ids[1 + n..1 + n + m]) == OwnChangeIds(topic)
            && Elements(ids[1 + n + m..]) == InsightIds(topic)
  {
    var ids, n, m := ItemIds(topic), |topic.events|, |topic.changes|;
    EventPart(topic, ids[1..1 + n]);
    ChangePart(topic, ids[1 + n..1 + n + m]);
    InsightPart(topic, ids[1 + n + m..]);
  }

  lemma EventPart(topic: Topic, ids: seq<string>)
    requires |ids| == |topic.events| && forall i | 0 <= i < |ids| :: ids[i] == topic.events[i].id
    ensures Elements(ids) == EventIds(topic)
  {
    forall e | e in topic.events ensures e.id in ids {
      var i :| 0 <= i < |topic.events| && topic.events[i] == e;
      assert ids[i] == e.id;
    }
  }

  lemma ChangePart(topic: Topic, ids: seq<string>)
    requires |ids| == |topic.changes| && forall i | 0 <= i < |ids| :: ids[i] == topic.changes[i].id
    ensures Elements(ids) == OwnChangeIds(topic)
  {
    forall c | c in topic.changes ensures c.id in ids {
      var i :| 0 <= i < |topic.changes| && topic.changes[i] == c;
      assert ids[i] == c.id;
    }
  }

  lemma InsightPart(topic: Topic, ids: seq<string>)
    requires |ids| == |topic.insights| && forall i | 0 <= i < |ids| :: ids[i] == topic.insights[i].id
    ensures Elements(ids) == InsightIds(topic)
  {
    forall s | s in topic.insights ensures s.id in ids {
      var i :| 0 <= i < |topic.insights| && topic.insights[i] == s;
      assert ids[i] == s.id;
    }
  }

  lemma IdsApartExactly(topic: Topic)
    ensures IdsApart(topic) <==> Distinct(ItemIds(topic))
  {
    hide ItemIds, Distinct, Elements;
    var ids, n, m := ItemIds(topic), |topic.events|, |topic.changes|;
    DistinctCount(ids);
    ItemIdsParts(topic);
    ElementsJoin(ids[..1], ids[1..1 + n]);
    ElementsJoin(ids[..1 + n], ids[1 + n..1 + n + m]);
    ElementsJoin(ids[..1 + n + m], ids[1 + n + m..]);
    assert ids[..1] + ids[1..1 + n] == ids[..1 + n];
    assert ids[..1 + n] + ids[1 + n..1 + n + m] == ids[..1 + n + m];
    assert ids[..1 + n + m] + ids[1 + n + m..] == ids;
    assert ids[..1] == [topic.id];
    OneElement(topic.id);
  }

  lemma OneElement<T>(x: T)
    ensures Elements([x]) == {x}
  {
  }

  lemma {:induction false} EventMapExact(events: seq<Event>, e: Event)
    requires (forall i, j | 0 <= i < j < |events| :: events[i].id != events[j].id) && e in events
    ensures e.id in EventMap(events) && EventMap(events)[e.id] == e
    decreases |events|
  {
    var front, last := events[..|events| - 1], events[|events| - 1];
    if e != last {
      assert events == front + [last];
      EventMapExact(front, e);
      var i :| 0 <= i < |front| && front[i] == e;
      assert events[i].id != last.id;
    }
  }

  lemma {:induction false} EventMapKeys(events: seq<Event>, id: string)
    ensures id in EventMap(events) <==> exists e :: e in events && e.id == id
    decreases |events|
  {
    if events != [] {
      var front, last := events[..|events| - 1], events[|events| - 1];
      assert events == front + [last];
      EventMapKeys(front, id);
    }
  }

  // ---------- what a change needs ----------

  /** Every message quoted for the later event comes after every one quoted for the earlier event: in one
      session with a larger sequence number and no earlier in time, across sessions later in time. */
  ghost predicate EvidenceInOrder(from: Event, to: Event) {
    forall a, b | a in from.evidence && b in to.evidence ::
      && (a.sessionId == b.sessionId ==> a.sequence < b.sequence && a.createdAt <= b.createdAt)
      && (a.sessionId != b.sessionId ==> a.createdAt < b.createdAt)
  }

  /** A change joins two whole events of the topic about one subject and dimension, the later one resting
      on later messages only and on none of the earlier one's, both shown or neither. */
  ghost predicate Joins(topic: Topic, c: Change, from: Event, to: Event) {
    && from in topic.events && to in topic.events && from.id == c.fromEventId && to.id == c.toEventId
    && EvidenceInOrder(from, to)
    && !(exists a, b :: a in from.evidence && b in to.evidence && a.sessionId == b.sessionId && a.entryId == b.entryId)
    && from.subjectKey == to.subjectKey && from.dimensionKey == to.dimensionKey
    && !from.truncatedSource && !to.truncatedSource
    && (from.id in topic.visibleEventIds <==> to.id in topic.visibleEventIds)
  }

  ghost predicate RulesKept(topic: Topic) {
    && IdsApart(topic)
    && (forall e | e in topic.events :: e.topicId == topic.id)
    && (forall c | c in topic.changes :: c.topicId == topic.id && exists from, to :: Joins(topic, c, from, to))
    && |set v | v in topic.visibleEventIds| == |topic.visibleEventIds|
    && (forall v | v in topic.visibleEventIds :: v in EventIds(topic))
    && (forall i | i in topic.insights ::
          && (forall e | e in i.eventIds :: e in EventIds(topic))
          && (forall c | c in i.changeIds :: c in OwnChangeIds(topic)))
  }

  lemma EventIdsApart(topic: Topic)
    requires Distinct(ItemIds(topic))
    ensures forall i, j | 0 <= i < j < |topic.events| :: topic.events[i].id != topic.events[j].id
  {
    assert forall i | 0 <= i < |topic.events| :: ItemIds(topic)[i + 1] == topic.events[i].id;
  }

  lemma ChangeJoins(topic: Topic, c: Change)
    requires Distinct(ItemIds(topic))
    ensures ChangeAccepted(c, EventMap(topic.events), Elements(topic.visibleEventIds))
            <==> exists from, to :: Joins(topic, c, from, to)
  {
    hide ItemIds, Distinct;
    var events, visible := EventMap(topic.events), Elements(topic.visibleEventIds);
    EventIdsApart(topic);
    if ChangeAccepted(c, events, visible) {
      EventMapHolds(topic.events, c.fromEventId);
      EventMapHolds(topic.events, c.toEventId);
      OrderExact(events[c.fromEventId], events[c.toEventId]);
      assert Joins(topic, c, events[c.fromEventId], events[c.toEventId]);
    }
    if from, to :| Joins(topic, c, from, to) {
      EventMapExact(topic.events, from);
      EventMapExact(topic.events, to);
      OrderExact(from, to);
    }
  }

  lemma OrderExact(from: Event, to: Event)
    ensures Precedes(from, to) <==> EvidenceInOrder(from, to)
  {
    if Precedes(from, to) {
      assert forall a, b | a in from.evidence && b in to.evidence :: Before(a, b);
    }
  }

  /** A topic is accepted exactly when it keeps these rules. */
  lemma AcceptedExactly(topic: Topic)
    ensures Accepted(topic) <==> RulesKept(topic)
  {
    hide ItemIds, Distinct, ChangeAccepted, Joins, IdsApart, EventMap;
    IdsApartExactly(topic);
    DistinctCount(topic.visibleEventIds);
    forall v: string ensures v in EventMap(topic.events) <==> v in EventIds(topic) {
      EventMapKeys(topic.events, v);
    }
    if Distinct(ItemIds(topic)) {
      forall c ensures ChangeAccepted(c, EventMap(topic.events), Elements(topic.visibleEventIds))
                       <==> exists from, to :: Joins(topic, c, from, to)
      {
        ChangeJoins(topic, c);
      }
    }
  }
}
