/** What a compaction summary holds: the pinned requirements, a reference to every tool result that has
    room, failed ones first, and the generated text word for word when it fits. */
module SummaryContent {
  import opened Sequences
  import opened Numbers
  import opened Texts
  import opened Clip
  import opened Messages
  import opened Requirements
  import opened Summary
  import opened PinnedRoundTrip

  // ---------- the results of the compacted messages ----------

  lemma {:induction false} ResultsJoin(a: seq<Message>, b: seq<Message>)
    ensures Results(a + b) == Results(a) + Results(b)
  {
    if a == [] {
      assert a + b == b;
    } else {
      assert (a + b)[1..] == a[1..] + b;
      ResultsJoin(a[1..], b);
    }
  }

  lemma {:induction false} BlockResultsExact(blocks: seq<Block>, r: ToolResult)
    ensures r in BlockResults(blocks) <==> ResultBlock(r) in blocks
  {
    if blocks != [] {
      BlockResultsExact(blocks[1..], r);
      assert blocks == [blocks[0]] + blocks[1..];
    }
  }

  /** Message by message, the results are those of its result blocks. */
  lemma ResultsOf(before: seq<Message>, m: Message, r: ToolResult)
    ensures Results(before) <= Results(before + [m])
    ensures r in Results(before + [m])[|Results(before)|..] <==> ResultBlock(r) in m.blocks
  {
    ResultsJoin(before, [m]);
    assert [m][1..] == [];
    assert Results([m]) == BlockResults(m.blocks) + Results([]);
    BlockResultsExact(m.blocks, r);
    assert Results(before + [m])[|Results(before)|..] == BlockResults(m.blocks);
  }

  // ---------- their order in the references ----------

  /** Failed results come before successful ones, each kind in its order. */
  predicate Sooner(results: seq<ToolResult>, a: nat, b: nat)
    requires a < |results| && b < |results|
  {
    (!results[a].ok && results[b].ok) || (results[a].ok == results[b].ok && a < b)
  }

  /** The places of the results with one outcome, in order. */
  function Places(results: seq<ToolResult>, ok: bool): (at: seq<nat>)
    ensures forall i | 0 <= i < |at| :: at[i] < |results| && results[at[i]].ok == ok
    ensures forall i, j | 0 <= i < j < |at| :: at[i] < at[j]
    ensures forall k: nat | k < |results| && results[k].ok == ok :: k in at
  {
    if results == [] then []
    else
      var n := |results| - 1;
      Places(results[..n], ok) + if results[n].ok == ok then [n] else []
  }

  lemma {:induction false} WithOutcomeSplit(results: seq<ToolResult>, ok: bool)
    requires results != []
    ensures var n := |results| - 1;
            WithOutcome(results, ok) == WithOutcome(results[..n], ok) + if results[n].ok == ok then [results[n]] else []
    decreases |results|
  {
    var n := |results| - 1;
    if n > 0 {
      WithOutcomeSplit(results[1..], ok);
      assert results[1..][..n - 1] == results[..n][1..];
    }
  }

  lemma {:induction false} OutcomePlaces(results: seq<ToolResult>, ok: bool)
    ensures var at := Places(results, ok);
            |WithOutcome(results, ok)| == |at| && forall i | 0 <= i < |at| :: WithOutcome(results, ok)[i] == results[at[i]]
    decreases |results|
  {
    if results != [] {
      WithOutcomeSplit(results, ok);
      OutcomePlaces(results[..|results| - 1], ok);
    }
  }

  /** The references name up to sixteen results, the soonest ones, in order: none is left out for a later one. */
  lemma SoonestReferenced(messages: seq<Message>) returns (at: seq<nat>)
    ensures var results, lines := Results(messages), References(messages);
            && |lines| == |at| == Min(16, |results|)
            && (forall i | 0 <= i < |at| :: at[i] < |results| && lines[i] == ReferenceLine(results[at[i]]))
            && (forall i, j | 0 <= i < j < |at| :: Sooner(results, at[i], at[j]))
            && forall k: nat, i | k < |results| && k !in at && 0 <= i < |at| :: Sooner(results, at[i], k)
  {
    hide ReferenceLine, Results, Places, Sooner, WithOutcome;
    var results := Results(messages);
    var all := AllPlaces(results);
    at := if |all| > 16 then all[..16] else all;
    forall j | 0 <= j < |at| ensures all[j] in at {
      assert at[j] == all[j];
    }
    forall k: nat, i | k < |results| && k !in at && 0 <= i < |at| ensures Sooner(results, at[i], k) {
      assert k in all;
      var j :| 0 <= j < |all| && all[j] == k;
      assert all[i] == at[i];
    }
  }

  /** The order in which results are referenced, without the limit. */
  lemma AllPlaces(results: seq<ToolResult>) returns (at: seq<nat>)
    ensures var sorted := WithOutcome(results, false) + WithOutcome(results, true);
            && |sorted| == |at| == |results|
            && (forall i | 0 <= i < |at| :: at[i] < |results| && sorted[i] == results[at[i]])
            && (forall i, j | 0 <= i < j < |at| :: Sooner(results, at[i], at[j]))
            && forall k: nat | k < |results| :: k in at
  {
    var failed, fine := Places(results, false), Places(results, true);
    OutcomePlaces(results, false);
    OutcomePlaces(results, true);
    PlaceCount(results);
    at := failed + fine;
    forall k: nat | k < |results| ensures k in at {
      assert k in failed || k in fine;
    }
  }

  lemma {:induction false} PlaceCount(results: seq<ToolResult>)
    ensures |Places(results, false)| + |Places(results, true)| == |results|
    decreases |results|
  {
    if results != [] {
      PlaceCount(results[..|results| - 1]);
    }
  }

  // ---------- what a reference says ----------

  function DigitsValue(digits: Text): int {
    if digits == [] then 0 else DigitsValue(digits[..|digits| - 1]) * 10 + digits[|digits| - 1] - 0x30
  }

  lemma {:induction false} DecimalReadsBack(n: nat)
    ensures DigitsValue(Decimal(n)) == n
    ensures forall u | u in Decimal(n) :: 0x30 <= u <= 0x39
    decreases n
  {
    if n >= 10 {
      DecimalReadsBack(n / 10);
      var front, last := Decimal(n / 10), 0x30 + n % 10;
      assert (front + [last])[..|front|] == front;
    } else {
      assert [0x30 + n][..0] == [];
    }
  }

  /** A reference quotes the id of its call, says whether it failed, and how long its content is. */
  lemma ReferenceTells(r: ToolResult)
    ensures var line, id := ReferenceLine(r), Quoted(r.callId);
            var after := 21 + |id| + 2 + |(if r.ok then Lit("ok") else Lit("failed"))| + 2;
            && OccursAt(line, id, 21)
            && OccursAt(line, Lit("; ") + (if r.ok then Lit("ok") else Lit("failed")) + Lit("; "), 21 + |id|)
            && OccursAt(line, Decimal(|r.content|), after) && DigitsValue(Decimal(|r.content|)) == |r.content|
  {
    hide Quoted, Decimal, Lit, DigitsValue;
    DecimalReadsBack(|r.content|);
    var start, id := Lit("- result_read ") + Lit("callId="), Quoted(r.callId);
    var outcome, length := Lit("; ") + (if r.ok then Lit("ok") else Lit("failed")) + Lit("; "), Decimal(|r.content|);
    var end := Lit(" projected ") + Lit("characters");
    LineParts(start, id, Lit("; "), if r.ok then Lit("ok") else Lit("failed"), Lit("; "), length, Lit(" projected "), Lit("characters"));
    JoinAssociates(start + id + outcome, length, end);
    JoinAssociates(start + id, outcome, length + end);
    JoinAssociates(start, id, outcome + (length + end));
    Inside(start, id, outcome + (length + end));
    Inside(start + id, outcome, length + end);
    Inside(start + id + outcome, length, end);
  }

  lemma LineParts(a: Text, b: Text, c: Text, d: Text, e: Text, f: Text, g: Text, h: Text)
    ensures a + b + c + d + e + f + g + h == a + b + (c + d + e) + f + (g + h)
  {
    JoinAssociates(a + b + c + d + e + f, g, h);
    JoinAssociates(a + b + c, d, e);
    JoinAssociates(a + b, c, d + e);
    JoinAssociates(c, d, e);
  }

  lemma Inside(a: Text, b: Text, c: Text)
    ensures OccursAt(a + b + c, b, |a|)
  {
    assert (a + b + c)[|a|..|a| + |b|] == b;
  }

  // ---------- the whole summary ----------

  /** When the references fit their part and the generated text fits the rest, the summary is the pinned
      requirements, the references, the prefix and the generated text, nothing cut but white space at the end. */
  lemma WholeTextKept(generated: Text, messages: seq<Message>, messageBudget: nat)
    requires !Blank(generated)
    requires var budget, pinned := SummaryBudget(messageBudget), PinnedFor(messages, messageBudget);
             && TextTokens(ReferenceText(messages)) <= ReferenceBudget(budget)
             && TextTokens(PinnedHeader(pinned) + ReferenceText(messages)) + TextTokens(SUMMARY_PREFIX) + TextTokens(generated) <= budget
    ensures PinnedHeader(PinnedFor(messages, messageBudget)) + ReferenceText(messages) + SUMMARY_PREFIX + TrimEnd(generated)
            <= CompactionSummary(generated, messages, messageBudget)
  {
    hide TextTokens, Trim, TrimEnd, PinnedHeader, ReferenceText, SummaryBudget, ReferenceBudget, PinnedFor, SUMMARY_PREFIX, SUMMARY;
    hide Clipped, Blank;
    var budget, pinned := SummaryBudget(messageBudget), PinnedFor(messages, messageBudget);
    var header := PinnedHeader(pinned) + ReferenceText(messages);
    SummaryKeepsWhole(ReferenceText(messages), ReferenceBudget(budget));
    assert SummaryHeader(pinned, messages, budget) == header;
    SummaryKeepsWhole(generated, budget - TextTokens(header) - TextTokens(SUMMARY_PREFIX));
    assert CompactionSummary(generated, messages, messageBudget) == Trim(header + SUMMARY_PREFIX + generated);
    StartsVisibly(pinned, messages);
    EndKept(header + SUMMARY_PREFIX, generated);
  }

  lemma SummaryKeepsWhole(value: Text, maxTokens: nat)
    requires TextTokens(value) <= maxTokens
    ensures Clipped(SUMMARY, value, maxTokens) == value
  {
    KeptWhenFits(SUMMARY, value, maxTokens);
  }

  lemma StartsVisibly(pinned: seq<Text>, messages: seq<Message>)
    ensures var head := PinnedHeader(pinned) + ReferenceText(messages) + SUMMARY_PREFIX;
            head != [] && !IsSpace(head[0])
  {
    hide PinnedHeader, ReferenceText, IsSpace;
    FixedTextsVisible();
    HeaderStarts(pinned);
    ReferencesStart(messages);
    if PinnedHeader(pinned) == [] && ReferenceText(messages) == [] {
      assert [] + [] + SUMMARY_PREFIX == SUMMARY_PREFIX;
    }
  }

  lemma FixedTextsVisible()
    ensures SUMMARY_PREFIX != [] && SUMMARY_PREFIX[0] == 0x5b && !IsSpace(0x5b)
  {
  }

  lemma HeaderStarts(pinned: seq<Text>)
    ensures PinnedHeader(pinned) == [] || PinnedHeader(pinned)[0] == 0x5b
  {
    hide Lines, PinnedLines;
  }

  lemma ReferencesStart(messages: seq<Message>)
    ensures ReferenceText(messages) == [] || ReferenceText(messages)[0] == 0x5b
  {
    hide Lines, References;
  }

  lemma EndKept(head: Text, generated: Text)
    requires head != [] && !IsSpace(head[0]) && !Blank(generated)
    ensures head + TrimEnd(generated) <= Trim(head + generated)
  {
    hide IsSpace, Trim;
    var keep := TrimEndIsPrefix(generated);
    assert generated[0..] == generated && keep > 0;
    var front, u := generated[..keep - 1], generated[keep - 1];
    assert head + generated == (head + front) + [u] + generated[keep..];
    assert head + TrimEnd(generated) == (head + front) + [u];
    assert (head + front)[0] == head[0];
    TrimKeeps(head + front, u, generated[keep..]);
  }
}
