/** Which requirements a compaction pins: the first one, then the newest, never an older one in place
    of a newer; and every one chosen gets at least a clipped entry. */
module PinnedOrder {
  import opened Sequences
  import opened Texts
  import opened Clip
  import opened Messages
  import opened Requirements
  import opened Summary
  import opened PinnedRoundTrip
  import opened VerbatimPins

  // ---------- which requirements there are ----------

  /** Requirements come from user messages alone: the trimmed text of one the user wrote, or what is read
      between the marks of an internal one. */
  ghost predicate RequiredBy(m: Message, v: Text) {
    && m.role == User && Trim(JoinTexts(m.blocks)) != []
    && if m.internal then v in PinnedByMarks(Trim(JoinTexts(m.blocks)), PINNED_START, PINNED_END) else v == Trim(JoinTexts(m.blocks))
  }

  /** Message by message, the requirements are exactly those of its user messages, in order. */
  lemma RequirementsOfUsers(before: seq<Message>, m: Message)
    ensures AllRequirements(before) <= AllRequirements(before + [m])
    ensures forall v :: v in AllRequirements(before + [m])[|AllRequirements(before)|..] <==> RequiredBy(m, v)
    ensures !m.internal ==> |AllRequirements(before + [m])| <= |AllRequirements(before)| + 1
  {
    hide Trim, PinnedByMarks;
    assert (before + [m])[..|before|] == before;
    assert AllRequirements(before + [m]) == AllRequirements(before) + MessageRequirements(m);
    assert AllRequirements(before + [m])[|AllRequirements(before)|..] == MessageRequirements(m);
  }

  // ---------- the order of the candidates ----------

  /** Where a value first appears. */
  ghost function First(values: seq<Text>, v: Text): (i: nat)
    requires v in values
    ensures i < |values| && values[i] == v && v !in values[..i]
  {
    var front := values[..|values| - 1];
    if v in front then
      var i := First(front, v);
      assert values[..i] == front[..i];
      i
    else |values| - 1
  }

  lemma {:induction false} DedupeOrdered(values: seq<Text>)
    ensures var unique := Dedupe(values);
            && Distinct(unique) && (forall v :: v in unique <==> v in values)
            && forall a, b | 0 <= a < b < |unique| ::
                 unique[a] in values && unique[b] in values && First(values, unique[a]) < First(values, unique[b])
    decreases |values|
  {
    if values != [] {
      hide First, Distinct;
      var front, last := values[..|values| - 1], values[|values| - 1];
      DedupeOrdered(front);
      assert values == front + [last];
      var before, unique := Dedupe(front), Dedupe(values);
      forall v | v in before ensures v in values && First(values, v) == First(front, v) {
        FirstStays(values, v);
      }
      if last !in front {
        LatestFirst(values);
        DistinctNext(before, last);
      }
      forall a, b | 0 <= a < b < |unique|
        ensures unique[a] in values && unique[b] in values && First(values, unique[a]) < First(values, unique[b])
      {
        assert unique[a] == before[a] && before[a] in before;
        if b < |before| {
          assert unique[b] == before[b] && before[b] in before;
        }
      }
    }
  }

  lemma FirstStays(values: seq<Text>, v: Text)
    requires values != [] && v in values[..|values| - 1]
    ensures v in values && First(values, v) == First(values[..|values| - 1], v)
  {
  }

  lemma DistinctNext<T>(s: seq<T>, x: T)
    requires Distinct(s) && x !in s
    ensures Distinct(s + [x])
  {
  }

  lemma {:induction false} ReverseAt(values: seq<Text>, i: nat)
    requires i < |values|
    ensures |Reverse(values)| == |values| && Reverse(values)[i] == values[|values| - 1 - i]
  {
    ReverseLength(values);
    if i < |values| - 1 {
      ReverseLength(values[1..]);
      ReverseAt(values[1..], i);
    } else {
      ReverseLength(values[1..]);
    }
  }

  lemma {:induction false} ReverseLength(values: seq<Text>)
    ensures |Reverse(values)| == |values|
  {
    if values != [] {
      ReverseLength(values[1..]);
    }
  }

  /** The candidate at each place: the first value, then the others from the last to appear on. */
  lemma CandidateAt(values: seq<Text>, i: nat)
    requires i < |PinnedCandidates(values)|
    ensures var unique := Dedupe(values);
            && |PinnedCandidates(values)| == (if |unique| > 8 then 8 else |unique|)
            && i < |unique| && PinnedCandidates(values)[i] == unique[if i == 0 then 0 else |unique| - i]
  {
    hide Dedupe, Reverse;
    var unique := Dedupe(values);
    ReverseLength(unique[1..]);
    if i > 0 {
      ReverseAt(unique[1..], i - 1);
      assert unique[1..][|unique| - 2 - (i - 1)] == unique[|unique| - i];
    }
  }

  lemma CandidateCount(values: seq<Text>)
    ensures |PinnedCandidates(values)| == if |Dedupe(values)| > 8 then 8 else |Dedupe(values)|
  {
    hide Dedupe, Reverse;
    if Dedupe(values) != [] {
      ReverseLength(Dedupe(values)[1..]);
    }
  }

  /** The candidates are distinct requirements; the first is the first of all, and behind it the one that
      first appeared later stands before the one that first appeared earlier. */
  lemma NewestFirst(values: seq<Text>)
    ensures var chosen := PinnedCandidates(values);
            && Distinct(chosen) && (forall v | v in chosen :: v in values)
            && (values != [] ==> chosen != [] && chosen[0] == values[0])
            && forall a, b | 1 <= a < b < |chosen| ::
                 chosen[a] in values && chosen[b] in values && First(values, chosen[a]) > First(values, chosen[b])
  {
    hide Dedupe, Reverse, PinnedCandidates, First;
    var chosen, unique := PinnedCandidates(values), Dedupe(values);
    DedupeOrdered(values);
    CandidateCount(values);
    forall i | 0 <= i < |chosen| ensures chosen[i] == unique[if i == 0 then 0 else |unique| - i] && chosen[i] in values {
      CandidateAt(values, i);
      assert chosen[i] in unique;
    }
    if values != [] {
      FirstOfAll(values);
    }
  }

  lemma FirstOfAll(values: seq<Text>)
    requires values != []
    ensures Dedupe(values) != [] && Dedupe(values)[0] == values[0]
  {
    hide Dedupe, First;
    var unique := Dedupe(values);
    DedupeOrdered(values);
    assert values[0] in values && values[0] in unique;
    HeadFirst(values);
  }

  lemma {:induction false} HeadFirst(values: seq<Text>)
    requires values != []
    ensures First(values, values[0]) == 0
    decreases |values|
  {
    if |values| > 1 {
      HeadFirst(values[..|values| - 1]);
    }
  }

  /** The first of the distinct values and the last seven are candidates. */
  lemma CandidateKept(values: seq<Text>, at: nat)
    requires at < |Dedupe(values)| && (|Dedupe(values)| <= 8 || at == 0 || at > |Dedupe(values)| - 8)
    ensures Dedupe(values)[at] in PinnedCandidates(values)
  {
    hide Dedupe, PinnedCandidates;
    CandidateCount(values);
    var i := if at == 0 then 0 else |Dedupe(values)| - at;
    CandidateAt(values, i);
    assert PinnedCandidates(values)[i] == Dedupe(values)[at];
  }

  /** A requirement is left out only when there are more than eight, and then every one kept behind the
      first appeared later than it. */
  lemma OldestDropped(values: seq<Text>, v: Text)
    requires v in values && v !in PinnedCandidates(values)
    ensures var chosen := PinnedCandidates(values);
            && |chosen| == 8 && |Elements(values)| > 8 && v != values[0]
            && forall a | 1 <= a < |chosen| :: chosen[a] in values && First(values, chosen[a]) > First(values, v)
  {
    hide Dedupe, Reverse, PinnedCandidates, First;
    var chosen, unique := PinnedCandidates(values), Dedupe(values);
    DedupeOrdered(values);
    CandidateCount(values);
    FirstOfAll(values);
    var at :| 0 <= at < |unique| && unique[at] == v;
    if |unique| <= 8 || at == 0 || at > |unique| - 8 {
      CandidateKept(values, at);
    }
    forall a | 1 <= a < |chosen| ensures chosen[a] in values && First(values, chosen[a]) > First(values, v) {
      CandidateAt(values, a);
      assert chosen[a] in unique;
    }
    DistinctCount(unique);
    assert Elements(unique) == Elements(values);
  }

  /** Up to eight distinct requirements are all candidates. */
  lemma EightAllPinned(values: seq<Text>)
    requires |Elements(values)| <= 8
    ensures forall v :: v in PinnedCandidates(values) <==> v in values
  {
    NewestFirst(values);
    forall v | v in values ensures v in PinnedCandidates(values) {
      if v !in PinnedCandidates(values) {
        OldestDropped(values, v);
      }
    }
  }

  /** The requirement said last, unless it repeats an earlier one, stands right behind the first. */
  lemma LatestIsSecond(values: seq<Text>)
    requires |values| >= 2 && values[|values| - 1] !in values[..|values| - 1]
    ensures |PinnedCandidates(values)| >= 2 && PinnedCandidates(values)[1] == values[|values| - 1]
  {
    hide PinnedCandidates, First;
    var chosen, last := PinnedCandidates(values), values[|values| - 1];
    NewestFirst(values);
    LatestFirst(values);
    LatestKept(values);
    var i :| 0 <= i < |chosen| && chosen[i] == last;
    assert values[0] in values[..|values| - 1];
  }

  lemma LatestKept(values: seq<Text>)
    requires values != [] && values[|values| - 1] !in values[..|values| - 1]
    ensures values[|values| - 1] in PinnedCandidates(values)
  {
    hide PinnedCandidates, First;
    var chosen, last := PinnedCandidates(values), values[|values| - 1];
    var second := if |chosen| > 1 then chosen[1] else last;
    LatestFirst(values);
    if last !in chosen {
      OldestDropped(values, last);
    }
  }

  lemma LatestFirst(values: seq<Text>)
    requires values != [] && values[|values| - 1] !in values[..|values| - 1]
    ensures First(values, values[|values| - 1]) == |values| - 1
  {
  }

  // ---------- every candidate is pinned ----------

  lemma ShareLeft(share: nat, got: nat, count: nat, remaining: nat, cost: nat)
    requires count > 0 && share <= got && got * count <= remaining && cost <= got
    ensures share * (count - 1) <= remaining - cost
  {
    assert got * count == got * (count - 1) + got;
    TimesGrows(share, got, count - 1);
  }

  lemma TimesGrows(a: nat, b: nat, c: nat)
    requires a <= b
    ensures a * c <= b * c
  {
    var d := b - a;
    assert (a + d) * c == a * c + d * c;
    assert d * c >= 0;
  }

  /** With at least sixteen tokens for each, every candidate gets an entry: itself, or clipped to no
      less than that. */
  lemma {:induction false} EachGetsAnEntry(candidates: seq<Text>, remaining: nat, share: nat)
    requires share >= 16 && share * |candidates| <= remaining && forall i | 0 <= i < |candidates| :: candidates[i] != []
    ensures |Selection(candidates, remaining)| == |candidates|
    ensures forall i | 0 <= i < |candidates| ::
              Selection(candidates, remaining)[i] != [] && (Cost(candidates[i]) <= share ==> Selection(candidates, remaining)[i] == candidates[i])
    decreases |candidates|
  {
    hide Cost, Bounded, Share;
    if candidates != [] {
      var got := Share(remaining, |candidates|);
      ShareIsQuotient(remaining, |candidates|);
      GrowsBy(got, share, |candidates|);
      assert share <= got;
      assert remaining > 0;
      var bounded := Bounded(candidates[0], got);
      BoundedCost(candidates[0], got);
      BoundedExists(candidates[0], got);
      ShareLeft(share, got, |candidates|, remaining, Cost(bounded));
      EachGetsAnEntry(candidates[1..], remaining - Cost(bounded), share);
    }
  }

  /** A compaction pins an entry for every candidate, whole when it costs 21 tokens or less. */
  lemma EveryCandidatePinned(messages: seq<Message>, messageBudget: nat, i: nat)
    requires i < |PinnedCandidates(AllRequirements(messages))|
    ensures var candidates, pinned := PinnedCandidates(AllRequirements(messages)), PinnedFor(messages, messageBudget);
            && |pinned| == |candidates| && pinned[i] != []
            && (Cost(candidates[i]) <= 21 ==> pinned[i] == candidates[i])
  {
    hide Cost, AllRequirements, PinnedCandidates, Bounded, Selection;
    var candidates := PinnedCandidates(AllRequirements(messages));
    CollectedClean(messages);
    CandidatesSubset(AllRequirements(messages));
    forall k | 0 <= k < |candidates| ensures candidates[k] != [] {
      assert candidates[k] in candidates;
      CleanNotEmpty(candidates[k]);
    }
    AtMostEight(AllRequirements(messages));
    assert PinnedBudget(SummaryBudget(messageBudget)) >= 174;
    assert 21 * |candidates| <= 174;
    EachGetsAnEntry(candidates, PinnedBudget(SummaryBudget(messageBudget)), 21);
  }

  lemma AtMostEight(values: seq<Text>)
    ensures |PinnedCandidates(values)| <= 8
  {
  }
}
