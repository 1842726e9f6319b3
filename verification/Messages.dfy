/** Conversation messages as the context manager reads them. A value the source serialises with
    JSON.stringify before measuring it (tool input, attachment) is kept as that serialisation. */
module Messages {
  import opened Texts

  datatype Role = System | User | Assistant | Tool

  datatype Part = TextPart(text: Text) | ImagePart

  datatype ToolResult = ToolResult(callId: Text, ok: bool, content: Text, parts: seq<Part>)

  datatype Block =
    | TextBlock(text: Text)
    | ImageBlock
    | FileBlock(attachmentJson: Text)
    | CallBlock(id: Text, name: Text, inputJson: Text)
    | ResultBlock(result: ToolResult)

  datatype Message = Message(role: Role, blocks: seq<Block>, internal: bool, hostTrace: bool)

  function CallIds(m: Message): set<Text> {
    set b | b in m.blocks && b.CallBlock? :: b.id
  }

  function ResultIds(m: Message): set<Text> {
    set b | b in m.blocks && b.ResultBlock? :: b.result.callId
  }

  /** White space that trim() removes. */
  predicate IsSpace(u: CodeUnit) {
    || 9 <= u <= 13 || u == 0x20 || u == 0xa0 || u == 0x1680 || 0x2000 <= u <= 0x200a
    || u == 0x2028 || u == 0x2029 || u == 0x202f || u == 0x205f || u == 0x3000 || u == 0xfeff
  }

  function TrimStart(s: Text): Text {
    if s != [] && IsSpace(s[0]) then TrimStart(s[1..]) else s
  }

  function TrimEnd(s: Text): Text {
    if s != [] && IsSpace(s[|s| - 1]) then TrimEnd(s[..|s| - 1]) else s
  }

  function Trim(s: Text): Text {
    TrimEnd(TrimStart(s))
  }

  predicate Blank(s: Text) {
    forall i | 0 <= i < |s| :: IsSpace(s[i])
  }

  function JoinTexts(blocks: seq<Block>): Text {
    if blocks == [] then []
    else (if blocks[0].TextBlock? then blocks[0].text else []) + JoinTexts(blocks[1..])
  }

  function TextContent(m: Message): Text {
    Trim(JoinTexts(m.blocks))
  }

  // ---------- trimming ----------

  lemma {:induction false} TrimStartIsSuffix(s: Text) returns (cut: nat)
    ensures cut <= |s| && TrimStart(s) == s[cut..] && Blank(s[..cut])
    ensures cut < |s| ==> !IsSpace(s[cut])
  {
    if s != [] && IsSpace(s[0]) {
      var rest := TrimStartIsSuffix(s[1..]);
      cut := rest + 1;
    } else {
      cut := 0;
    }
  }

  lemma BlankEnds(s: Text, keep: nat)
    requires keep < |s| && Blank(s[..|s| - 1][keep..]) && IsSpace(s[|s| - 1])
    ensures Blank(s[keep..])
  {
    hide IsSpace;
    forall i | 0 <= i < |s[keep..]| ensures IsSpace(s[keep..][i]) {
      if keep + i < |s| - 1 {
        assert s[keep..][i] == s[..|s| - 1][keep..][i];
      }
    }
  }

  lemma {:induction false} TrimEndIsPrefix(s: Text) returns (keep: nat)
    ensures keep <= |s| && TrimEnd(s) == s[..keep] && Blank(s[keep..])
    ensures keep > 0 ==> !IsSpace(s[keep - 1])
    decreases |s|
  {
    hide IsSpace;
    if s != [] && IsSpace(s[|s| - 1]) {
      var front := s[..|s| - 1];
      keep := TrimEndIsPrefix(front);
      assert front[..keep] == s[..keep];
      BlankEnds(s, keep);
    } else {
      keep := |s|;
    }
  }

  /** Trimming only removes white space at the two ends. */
  lemma TrimIsSlice(s: Text) returns (cut: nat, end: nat)
    ensures cut <= end <= |s| && Trim(s) == s[cut..end]
    ensures Blank(s[..cut]) && Blank(s[end..])
    ensures cut < end ==> !IsSpace(s[cut]) && !IsSpace(s[end - 1])
  {
    cut := TrimStartIsSuffix(s);
    var keep := TrimEndIsPrefix(s[cut..]);
    end := cut + keep;
    assert s[cut..][..keep] == s[cut..end] && s[cut..][keep..] == s[end..];
    if cut < end {
      assert s[end - 1] == s[cut..][keep - 1];
    }
  }

  lemma TrimNonBlank(s: Text)
    ensures Trim(s) == [] <==> Blank(s)
    ensures !Blank(s) ==> !Blank(Trim(s))
  {
    var cut, end := TrimIsSlice(s);
    if cut == end {
      forall i | 0 <= i < |s| ensures IsSpace(s[i]) {
        assert i < cut ==> s[i] == s[..cut][i];
        assert i >= end ==> s[i] == s[end..][i - end];
      }
    } else {
      assert Trim(s)[0] == s[cut];
    }
  }

  lemma TrimOfTrimmed(s: Text)
    requires s == [] || (!IsSpace(s[0]) && !IsSpace(s[|s| - 1]))
    ensures Trim(s) == s
  {
  }

  lemma TrimIdempotent(s: Text)
    ensures Trim(Trim(s)) == Trim(s)
  {
    var cut, end := TrimIsSlice(s);
    TrimOfTrimmed(Trim(s));
  }

  lemma TrimNeverAdds(s: Text)
    ensures TextTokens(Trim(s)) <= TextTokens(s)
  {
    var cut, end := TrimIsSlice(s);
    assert s == s[..cut] + (s[cut..end] + s[end..]);
    WeightConcat(s[..cut], s[cut..end] + s[end..]);
    WeightConcat(s[cut..end], s[end..]);
  }

  /** A text that starts with a non-space keeps everything up to any later non-space. */
  lemma TrimKeeps(head: Text, u: CodeUnit, tail: Text)
    requires !IsSpace(u) && head != [] && !IsSpace(head[0])
    ensures head + [u] <= Trim(head + [u] + tail)
  {
    var s := head + [u] + tail;
    var cut, end := TrimIsSlice(s);
    assert s[0] == head[0] && s[|head|] == u;
  }
}
