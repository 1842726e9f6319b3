/** When a compaction keeps every pinned requirement word for word: exactly when each fits the share
    of the budget that is left for it and none quotes the end mark. */
module VerbatimPins {
  import opened Sequences
  import opened Texts
  import opened Clip
  import opened Messages
  import opened Requirements
  import opened Summary
  import opened PinnedRoundTrip

  /** Each candidate fits an equal share of what the ones before it leave of the budget. */
  ghost predicate SharesSuffice(candidates: seq<Text>, remaining: nat) {
    candidates == []
    || (Cost(candidates[0]) <= Share(remaining, |candidates|)
        && Cost(candidates[0]) <= remaining && SharesSuffice(candidates[1..], remaining - Cost(candidates[0])))
  }

  // ---------- trimming a quoted text ----------

  lemma {:induction false} PrefixCheaper(s: Text, n: nat)
    requires n <= |s|
    ensures Weight(Escape(s[..n])) <= Weight(Escape(s))
    decreases |s|
  {
    hide Weight, Escape;
    if n < |s| {
      var front := s[..|s| - 1];
      PrefixCheaper(front, n);
      assert front[..n] == s[..n];
      EscapeAppendGrows(front, s[|s| - 1]);
      assert front + [s[|s| - 1]] == s;
    } else {
      assert s[..n] == s;
    }
  }

  lemma {:induction false} SuffixCheaper(s: Text, n: nat)
    requires n <= |s|
    ensures Weight(Escape(s[n..])) <= Weight(Escape(s))
    decreases n
  {
    hide Weight, Escape;
    if n > 0 {
      SuffixCheaper(s[1..], n - 1);
      assert s[1..][n - 1..] == s[n..];
      EscapeSuffixGrows(s);
    } else {
      assert s[n..] == s;
    }
  }

  lemma TrimCheaper(s: Text)
    ensures Cost(Trim(s)) <= Cost(s)
  {
    hide Weight, Escape, Trim;
    var cut, end := TrimIsSlice(s);
    PrefixCheaper(s, end);
    SuffixCheaper(s[..end], cut);
    assert s[..end][cut..] == s[cut..end];
    QuotedWeight(s);
    QuotedWeight(Trim(s));
  }

  // ---------- when the selection is verbatim ----------

  lemma {:induction false} SufficientShares(candidates: seq<Text>, remaining: nat)
    requires forall c | c in candidates :: !Blank(c)
    requires SharesSuffice(candidates, remaining)
    ensures Selection(candidates, remaining) == candidates
    decreases |candidates|
  {
    hide Cost, Bounded, Share, Blank;
    if candidates != [] {
      BoundedCost(candidates[0], Share(remaining, |candidates|));
      NotBlank(candidates[0]);
      assert forall c | c in candidates[1..] :: c in candidates;
      SufficientShares(candidates[1..], remaining - Cost(candidates[0]));
    }
  }

  lemma NotBlank(c: Text)
    requires !Blank(c)
    ensures c != []
  {
  }

  /** Trimmed or not, a selection equal to its candidates has clipped and dropped nothing. */
  lemma {:induction false} VerbatimSelection(candidates: seq<Text>, remaining: nat)
    requires TrimAll(Selection(candidates, remaining)) == candidates
    ensures SharesSuffice(candidates, remaining) && Selection(candidates, remaining) == candidates
    decreases |candidates|
  {
    hide Cost, Bounded, Share, Trim;
    if candidates != [] && remaining > 0 {
      var share := Share(remaining, |candidates|);
      var bounded := Bounded(candidates[0], share);
      SelectionWithinBudget(candidates[1..], remaining);
      BoundedCost(candidates[0], share);
      TrimCheaper(bounded);
      assert bounded != [];
      var rest := Selection(candidates[1..], remaining - Cost(bounded));
      assert Selection(candidates, remaining) == [bounded] + rest;
      TrimAllFirst(bounded, rest);
      assert bounded == candidates[0];
      VerbatimSelection(candidates[1..], remaining - Cost(bounded));
    }
  }

  lemma TrimAllFirst(first: Text, rest: seq<Text>)
    ensures TrimAll([first] + rest) == [Trim(first)] + TrimAll(rest)
  {
    assert ([first] + rest)[1..] == rest;
  }

  // ---------- something is always pinned ----------

  lemma RequirementMarkerCost()
    ensures Cost(REQUIREMENT.marker) <= 16 && REQUIREMENT.quoted && REQUIREMENT.marker != []
  {
    hide Weight, Escape;
    var open, close := [NEWLINE, 0x5b, ELLIPSIS], [ELLIPSIS, 0x5d, NEWLINE];
    MarkEnds();
    MarkerWeight(open, Lit("user requirement "), Lit("clipped for "), Lit("context capacity"), close);
    QuotedWeight(REQUIREMENT.marker);
  }

  lemma MarkerWeight(open: Text, a: Text, b: Text, c: Text, close: Text)
    requires Plain(a) && Plain(b) && Plain(c)
    requires open != [] && !IsHigh(open[|open| - 1]) && close != [] && !IsLow(close[0])
    ensures Weight(Escape(open + a + b + c + close)) == Weight(Escape(open)) + |a| + |b| + |c| + Weight(Escape(close))
  {
    hide Weight, Escape;
    PlainWeight(a);
    PlainWeight(b);
    PlainWeight(c);
    PlainEnds(a);
    PlainEnds(b);
    PlainEnds(c);
    EscapeJoin(open, a);
    EscapeJoin(open + a, b);
    EscapeJoin(open + a + b, c);
    EscapeJoin(open + a + b + c, close);
  }

  lemma PlainEnds(s: Text)
    requires Plain(s)
    ensures s != [] ==> !IsHigh(s[|s| - 1]) && !IsLow(s[0])
  {
    if s != [] {
      assert s[0] in s && s[|s| - 1] in s;
    }
  }

  lemma MarkEnds()
    ensures Weight(Escape([NEWLINE, 0x5b, ELLIPSIS])) == 8 && Weight(Escape([ELLIPSIS, 0x5d, NEWLINE])) == 8
  {
    hide Weight, Escape;
    JoinThree(NEWLINE, 0x5b, ELLIPSIS);
    JoinThree(ELLIPSIS, 0x5d, NEWLINE);
    PlainUnit(0x5b);
    PlainUnit(0x5d);
    PlainUnit(ELLIPSIS);
    EscapeOne(NEWLINE);
    PairWeight(BACKSLASH, 0x6e);
  }

  lemma JoinThree(a: CodeUnit, b: CodeUnit, c: CodeUnit)
    requires !IsHigh(a) && !IsHigh(b)
    ensures Weight(Escape([a, b, c])) == Weight(Escape([a])) + Weight(Escape([b])) + Weight(Escape([c]))
  {
    hide Weight, Escape;
    EscapeJoin([a], [b]);
    EscapeJoin([a, b], [c]);
    assert [a] + [b] == [a, b] && [a, b] + [c] == [a, b, c];
  }

  /** A unit quoted as it is. */
  lemma PlainUnit(u: CodeUnit)
    requires u >= 0x20 && u != QUOTE && u != BACKSLASH && !IsHigh(u) && !IsLow(u)
    ensures Escape([u]) == [u] && Weight(Escape([u])) == UnitWeight(u)
  {
    hide Weight, Escape;
    EscapeOne(u);
    WeightOne(u);
  }

  lemma EscapeJoin(a: Text, b: Text)
    requires NoPairAcross(a, b)
    ensures Weight(Escape(a + b)) == Weight(Escape(a)) + Weight(Escape(b))
  {
    EscapeConcatWeight(a, b);
  }

  /** Plain text is quoted as it is. */
  predicate Plain(s: Text) {
    forall u | u in s :: 0x20 <= u < 0x80 && u != QUOTE && u != BACKSLASH
  }

  lemma {:induction false} PlainEscape(s: Text)
    requires Plain(s)
    ensures Escape(s) == s
    decreases |s|
  {
    hide Escape;
    if s != [] {
      var front, last := s[..|s| - 1], s[|s| - 1];
      assert s == front + [last] && last in s && forall u | u in front :: u in s;
      PlainEnds(front);
      PlainEscape(front);
      EscapeConcat(front, [last]);
      PlainUnit(last);
    } else {
      EscapeEmpty();
    }
  }

  lemma PlainWeight(s: Text)
    requires Plain(s)
    ensures Weight(Escape(s)) == |s|
  {
    PlainEscape(s);
    AsciiWeight(s);
  }

  lemma BoundedExists(value: Text, share: nat)
    requires value != [] && share >= 16
    ensures Bounded(value, share) != []
  {
    hide Weight, Escape, REQUIREMENT;
    RequirementMarkerCost();
    ClipExists(REQUIREMENT, value, share);
  }

  lemma ClipExists(form: Form, value: Text, maxTokens: int)
    requires form.quoted && form.marker != [] && Fits(form, form.marker, maxTokens) && value != []
    ensures Clipped(form, value, maxTokens) != []
  {
    hide Fits, LargestFit, ProbesOne;
  }

  /** A requirement pins something, however long it is. */
  lemma SomethingPinned(messages: seq<Message>, messageBudget: nat)
    requires AllRequirements(messages) != []
    ensures PinnedFor(messages, messageBudget) != []
  {
    hide Cost, AllRequirements, PinnedCandidates, Bounded, Selection;
    var candidates := PinnedCandidates(AllRequirements(messages));
    CandidatesExist(AllRequirements(messages));
    assert |candidates| <= 8;
    CollectedClean(messages);
    CandidatesSubset(AllRequirements(messages));
    assert candidates[0] in candidates;
    CleanNotEmpty(candidates[0]);
    FirstPinned(candidates, PinnedBudget(SummaryBudget(messageBudget)));
  }

  lemma FirstPinned(candidates: seq<Text>, remaining: nat)
    requires 0 < |candidates| <= 8 && candidates[0] != [] && remaining >= 174
    ensures Selection(candidates, remaining) != []
  {
    hide Cost, Share;
    ShareIsQuotient(remaining, |candidates|);
    LargeShare(Share(remaining, |candidates|), |candidates|, remaining);
    BoundedExists(candidates[0], Share(remaining, |candidates|));
  }

  lemma LargeShare(share: nat, count: nat, remaining: nat)
    requires 0 < count <= 8 && remaining < (share + 1) * count && remaining >= 174
    ensures share >= 16
  {
    assert (share + 1) * count <= (share + 1) * 8;
  }

  // ---------- the requirements of the next compaction ----------

  /** The next compaction collects every candidate word for word if and only if each fits its share
      of the pinned budget and none quotes the end mark. */
  lemma VerbatimExactly(generated: Text, messages: seq<Message>, messageBudget: nat)
    requires AllRequirements(messages) != []
    ensures var candidates := PinnedCandidates(AllRequirements(messages));
            AllRequirements([SummaryMessage(CompactionSummary(generated, messages, messageBudget))]) == candidates
            <==> SharesSuffice(candidates, PinnedBudget(SummaryBudget(messageBudget))) && forall c | c in candidates :: Readable(c)
  {
    hide AllRequirements, PinnedCandidates, Selection, SummaryBudget, PinnedBudget, Cost, Readable, SummaryMessage, SummaryText;
    hide Recoverable, SharesSuffice, Clean, Blank;
    var candidates := PinnedCandidates(AllRequirements(messages));
    var budget := PinnedBudget(SummaryBudget(messageBudget));
    var pinned := PinnedFor(messages, messageBudget);
    SomethingPinned(messages, messageBudget);
    CollectedClean(messages);
    CandidatesSubset(AllRequirements(messages));
    forall c | c in candidates ensures !Blank(c) {
      CleanNotEmpty(c);
    }
    PinnedNotBlank(messages, messageBudget);
    SummaryReadBack(generated, pinned, messages, SummaryBudget(messageBudget));
    if SharesSuffice(candidates, budget) && forall c | c in candidates :: Readable(c) {
      SufficientShares(candidates, budget);
      VerbatimRequirementsSurvive(generated, messages, messageBudget);
    }
    if Recoverable(pinned, PINNED_END) == candidates {
      SelectionWithinBudget(candidates, budget);
      WholeRecovered(pinned, |candidates|);
      VerbatimSelection(candidates, budget);
      RecoverableAll(pinned);
    }
  }

  lemma WholeRecovered(pinned: seq<Text>, n: nat)
    requires |Recoverable(pinned, PINNED_END)| == n && |pinned| <= n
    ensures Recoverable(pinned, PINNED_END) == TrimAll(pinned)
  {
    hide TrimAll, Contains, Quoted;
    assert pinned[..|pinned|] == pinned;
  }

  // ---------- a requirement that is lost ----------

  function UserText(text: Text): Message {
    Message(User, [TextBlock(text)], false, false)
  }

  /** A user who writes the end mark: it is pinned and, though it fits, never read back. */
  lemma EndMarkIsLost()
    ensures exists messages, messageBudget ::
              && PinnedFor(messages, messageBudget) == [PINNED_END]
              && AllRequirements([SummaryMessage(CompactionSummary([], messages, messageBudget))]) == []
  {
    hide Selection, SummaryText, SummaryMessage, Recoverable, Cost, PINNED_END;
    var messages := [UserText(PINNED_END)];
    EndMarkRequirement();
    EndMarkFits();
    VerbatimWhenSharesSuffice([PINNED_END], 174, 174);
    assert SummaryBudget(600) == 256 && PinnedBudget(256) == 174;
    assert PinnedFor(messages, 600) == [PINNED_END];
    EndMarkCuts();
    SummaryReadBack([], [PINNED_END], messages, 256);
  }

  lemma RequirementOf(text: Text)
    requires text != [] && !IsSpace(text[0]) && !IsSpace(text[|text| - 1])
    ensures PinnedCandidates(AllRequirements([UserText(text)])) == [text]
  {
    hide IsSpace;
    TrimOfTrimmed(text);
    OneMessage(UserText(text));
    SingleText(text);
    OneCandidate(text);
  }

  lemma OneCandidate(text: Text)
    ensures PinnedCandidates([text]) == [text]
  {
    assert [text][..0] == [] && Dedupe([text]) == [text] && [text][1..] == [];
  }

  lemma EndMarkRequirement()
    ensures PinnedCandidates(AllRequirements([UserText(PINNED_END)])) == [PINNED_END] && !Blank(PINNED_END) && PINNED_END != []
  {
    hide PINNED_END, PinnedCandidates, AllRequirements;
    EndMarkVisible();
    RequirementOf(PINNED_END);
  }

  lemma EndMarkVisible()
    ensures PINNED_END != [] && !Blank(PINNED_END) && !IsSpace(PINNED_END[0]) && !IsSpace(PINNED_END[|PINNED_END| - 1])
  {
    assert !IsSpace(PINNED_END[0]);
  }

  lemma EndMarkFits()
    ensures Cost(PINNED_END) <= 174
  {
    hide Weight, Escape, PINNED_END;
    EndMarkPlain();
    PlainWeight(PINNED_END);
    QuotedWeight(PINNED_END);
    PinnedEndWeight();
  }

  lemma EndMarkPlain()
    ensures Plain(PINNED_END)
  {
    var start, user, end := Lit("[End pinned "), Lit("user "), Lit("requirements]");
    assert Plain(start);
    assert Plain(user);
    assert Plain(end);
    assert forall u | u in start + user + end :: u in start || u in user || u in end;
  }

  lemma EndMarkCuts()
    ensures Recoverable([PINNED_END], PINNED_END) == []
  {
    hide PINNED_END;
    EndMarkPlain();
    PlainEscape(PINNED_END);
    assert OccursAt(Quoted(PINNED_END), PINNED_END, 1);
    assert CutAt([PINNED_END], PINNED_END) == 0;
  }
}
