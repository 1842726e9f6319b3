/** What the token estimate of a context counts: every text, name, input, result, image, tool and
    instruction it holds, so that nothing larger than the target is prepared within it. */
module EstimateBounds {
  import opened Numbers
  import opened Texts
  import opened Messages
  import opened Summary
  import opened PinnedRoundTrip
  import opened Compaction

  // ---------- one text ----------

  /** The positions of a text's ASCII units. */
  function Ascii(s: Text): set<nat> {
    set i: nat | i < |s| && s[i] <= 0x7f
  }

  /** A text costs a quarter token per ASCII unit and one and a quarter per other unit, rounded up. */
  lemma TextTokensExact(s: Text)
    ensures |Ascii(s)| <= |s|
    ensures var exact := |Ascii(s)| as real / 4.0 + (|s| - |Ascii(s)|) as real * 1.25;
            exact <= TextTokens(s) as real < exact + 1.0
  {
    CountAscii(s, |s|);
    assert Ascii(s) == set i: nat | i < |s| && s[i] <= 0x7f;
  }

  lemma {:induction false} CountAscii(s: Text, n: nat)
    requires n <= |s|
    ensures var ascii := set i: nat | i < n && s[i] <= 0x7f;
            |ascii| <= n && WeightTo(s, n) == |ascii| + 5 * (n - |ascii|)
  {
    var ascii := set i: nat | i < n && s[i] <= 0x7f;
    if n > 0 {
      CountAscii(s, n - 1);
      var before := set i: nat | i < n - 1 && s[i] <= 0x7f;
      assert ascii == if s[n - 1] <= 0x7f then before + {n - 1} else before;
    } else {
      assert ascii == {};
    }
  }

  // ---------- what a context spells out ----------

  function PartText(parts: seq<Part>): Text {
    if parts == [] then [] else PartText(parts[..|parts| - 1]) + (match parts[|parts| - 1] case TextPart(text) => text case ImagePart => [])
  }

  function Images(parts: seq<Part>): nat {
    if parts == [] then 0 else Images(parts[..|parts| - 1]) + if parts[|parts| - 1].ImagePart? then 1 else 0
  }

  /** The text of a block; of a result either its content or its parts. */
  function BlockText(b: Block, byParts: bool): Text {
    match b
    case TextBlock(text) => text
    case ImageBlock => []
    case FileBlock(json) => json
    case CallBlock(_, name, json) => name + json
    case ResultBlock(r) => if byParts then PartText(r.parts) else r.content
  }

  function BlockImages(b: Block, byParts: bool): nat {
    match b
    case ImageBlock => 1
    case ResultBlock(r) => if byParts then Images(r.parts) else 0
    case _ => 0
  }

  lemma {:induction false} PartTokensSplit(parts: seq<Part>)
    requires parts != []
    ensures PartTokens(parts) == PartTokens(parts[..|parts| - 1]) + PartTokens([parts[|parts| - 1]])
    decreases |parts|
  {
    if |parts| > 1 {
      PartTokensSplit(parts[1..]);
      assert parts[1..][..|parts| - 2] == parts[..|parts| - 1][1..];
    } else {
      assert parts[..0] == [] && [parts[0]] == parts;
    }
  }

  lemma {:induction false} PartsCounted(parts: seq<Part>)
    ensures TextTokens(PartText(parts)) + 1_024 * Images(parts) <= PartTokens(parts)
            <= TextTokens(PartText(parts)) + 1_024 * Images(parts) + |parts|
    decreases |parts|
  {
    hide Weight;
    if parts != [] {
      var front, last := parts[..|parts| - 1], parts[|parts| - 1];
      PartTokensSplit(parts);
      PartsCounted(front);
      assert [last][1..] == [];
      if last.TextPart? {
        JoinTokens(PartText(front), last.text);
      } else {
        assert PartText(parts) == PartText(front);
      }
    } else {
      NoText();
    }
  }

  lemma NoText()
    ensures TextTokens([]) == 0
  {
  }

  /** Joining saves at most one token. */
  lemma JoinTokens(a: Text, b: Text)
    ensures TextTokens(a + b) <= TextTokens(a) + TextTokens(b) <= TextTokens(a + b) + 1
  {
    WeightConcat(a, b);
  }

  /** The estimate of a block counts all its text and its images, and little else. */
  lemma BlockCounted(b: Block)
    ensures forall byParts :: TextTokens(BlockText(b, byParts)) + 1_024 * BlockImages(b, byParts) <= BlockTokens(b)
    ensures exists byParts :: BlockTokens(b) <= TextTokens(BlockText(b, byParts)) + 1_024 * BlockImages(b, byParts) + 256
                                                + if b.ResultBlock? then |b.result.parts| else 0
  {
    hide Weight;
    NoText();
    var small := TextTokens(BlockText(b, false)) + 1_024 * BlockImages(b, false);
    if b.CallBlock? {
      JoinTokens(b.name, b.inputJson);
    }
    if b.ResultBlock? {
      PartsCounted(b.result.parts);
      if PartTokens(b.result.parts) > TextTokens(b.result.content) {
        assert BlockTokens(b) <= TextTokens(BlockText(b, true)) + 1_024 * BlockImages(b, true) + 256 + |b.result.parts|;
      } else {
        assert BlockTokens(b) <= small + 256;
      }
    } else {
      assert BlockTokens(b) <= small + 256;
    }
  }

  // ---------- a whole context ----------

  function BlocksText(blocks: seq<Block>, byParts: bool): Text {
    if blocks == [] then [] else BlockText(blocks[0], byParts) + BlocksText(blocks[1..], byParts)
  }

  function BlocksImages(blocks: seq<Block>, byParts: bool): nat {
    if blocks == [] then 0 else BlockImages(blocks[0], byParts) + BlocksImages(blocks[1..], byParts)
  }

  function MessagesText(messages: seq<Message>, byParts: bool): Text {
    if messages == [] then [] else BlocksText(messages[0].blocks, byParts) + MessagesText(messages[1..], byParts)
  }

  function MessagesImages(messages: seq<Message>, byParts: bool): nat {
    if messages == [] then 0 else BlocksImages(messages[0].blocks, byParts) + MessagesImages(messages[1..], byParts)
  }

  function ToolsText(tools: seq<Tool>): Text {
    if tools == [] then [] else tools[0].name + tools[0].description + tools[0].schemaJson + ToolsText(tools[1..])
  }

  function InstructionsText(instructions: seq<Text>): Text {
    if instructions == [] then [] else instructions[0] + InstructionsText(instructions[1..])
  }

  lemma {:induction false} BlocksCounted(blocks: seq<Block>, byParts: bool)
    ensures TextTokens(BlocksText(blocks, byParts)) + 1_024 * BlocksImages(blocks, byParts) <= BlocksTokens(blocks)
  {
    hide Weight, BlockText, BlockImages, BlockTokens;
    NoText();
    if blocks != [] {
      BlockCounted(blocks[0]);
      BlocksCounted(blocks[1..], byParts);
      JoinTokens(BlockText(blocks[0], byParts), BlocksText(blocks[1..], byParts));
    }
  }

  lemma {:induction false} MessagesCounted(messages: seq<Message>, byParts: bool)
    ensures TextTokens(MessagesText(messages, byParts)) + 1_024 * MessagesImages(messages, byParts) <= MessageTokens(messages)
  {
    hide Weight, BlocksText, BlocksImages, BlocksTokens;
    NoText();
    if messages != [] {
      BlocksCounted(messages[0].blocks, byParts);
      MessagesCounted(messages[1..], byParts);
      JoinTokens(BlocksText(messages[0].blocks, byParts), MessagesText(messages[1..], byParts));
    }
  }

  lemma {:induction false} ToolsCounted(tools: seq<Tool>)
    ensures TextTokens(ToolsText(tools)) <= ToolTokens(tools)
  {
    hide Weight;
    NoText();
    if tools != [] {
      var t := tools[0];
      ToolsCounted(tools[1..]);
      JoinTokens(t.name, t.description);
      JoinTokens(t.name + t.description, t.schemaJson);
      JoinTokens(t.name + t.description + t.schemaJson, ToolsText(tools[1..]));
    }
  }

  lemma {:induction false} InstructionsCounted(instructions: seq<Text>)
    ensures TextTokens(InstructionsText(instructions)) <= InstructionTokens(instructions)
  {
    hide Weight;
    NoText();
    if instructions != [] {
      InstructionsCounted(instructions[1..]);
      JoinTokens(instructions[0], InstructionsText(instructions[1..]));
    }
  }

  /** The estimate of a context is at least what all its texts together cost, tools and instructions
      included, and 1,024 per image, whether results are read by their content or by their parts. */
  lemma ContextCounted(messages: seq<Message>, tools: seq<Tool>, instructions: seq<Text>, byParts: bool)
    ensures TextTokens(MessagesText(messages, byParts) + ToolsText(tools) + InstructionsText(instructions))
            + 1_024 * MessagesImages(messages, byParts)
            <= ContextTokens(messages, tools, instructions)
  {
    hide Weight, MessagesText, MessagesImages, ToolsText, InstructionsText;
    MessagesCounted(messages, byParts);
    ToolsCounted(tools);
    InstructionsCounted(instructions);
    JoinTokens(MessagesText(messages, byParts), ToolsText(tools));
    JoinTokens(MessagesText(messages, byParts) + ToolsText(tools), InstructionsText(instructions));
  }

  // ---------- one text among many ----------

  /** The message holds the text: as text, attachment, call name, call input, result content or result part. */
  predicate Holds(m: Message, text: Text) {
    exists b | b in m.blocks ::
      match b
      case TextBlock(t) => t == text
      case ImageBlock => false
      case FileBlock(json) => json == text
      case CallBlock(_, name, json) => name == text || json == text
      case ResultBlock(r) => r.content == text || TextPart(text) in r.parts
  }

  lemma {:induction false} PartCounted(parts: seq<Part>, text: Text)
    requires TextPart(text) in parts
    ensures TextTokens(text) <= PartTokens(parts)
  {
    hide TextTokens;
    if parts[0] != TextPart(text) {
      PartCounted(parts[1..], text);
    }
  }

  lemma {:induction false} BlockInSum(blocks: seq<Block>, b: Block)
    requires b in blocks
    ensures BlockTokens(b) <= BlocksTokens(blocks)
  {
    hide BlockTokens;
    if blocks[0] != b {
      BlockInSum(blocks[1..], b);
    }
  }

  lemma {:induction false} MessageInSum(messages: seq<Message>, m: Message)
    requires m in messages
    ensures BlocksTokens(m.blocks) + 6 <= MessageTokens(messages)
  {
    hide BlocksTokens;
    if messages[0] != m {
      MessageInSum(messages[1..], m);
    }
  }

  lemma HeldTextCounted(messages: seq<Message>, m: Message, text: Text)
    requires m in messages && Holds(m, text)
    ensures TextTokens(text) <= MessageTokens(messages)
  {
    hide TextTokens;
    MessageInSum(messages, m);
    var b :| b in m.blocks &&
      match b
      case TextBlock(t) => t == text
      case ImageBlock => false
      case FileBlock(json) => json == text
      case CallBlock(_, name, json) => name == text || json == text
      case ResultBlock(r) => r.content == text || TextPart(text) in r.parts;
    BlockInSum(m.blocks, b);
    if b.ResultBlock? && TextPart(text) in b.result.parts {
      PartCounted(b.result.parts, text);
    }
  }

  /** Whatever is prepared within its target holds no text larger than the target; so a message that
      holds one is compacted away, or the context overflows or exceeds its target. */
  lemma OversizedTextNeverPrepared(r: Request, generated: Text, m: Message, text: Text)
    requires m in r.messages && Holds(m, text) && TextTokens(text) > r.Budget().target
    ensures var o := Preparation(r, generated);
            o.Prepared? && o.estimatedTokens <= r.Budget().target ==> o.compaction.Compacted? && m !in o.messages
  {
    hide ContextBudget, TailStart, Groups, CompactionSummary, SummaryMessage, Flatten, TextTokens, MessageTokens, Holds;
    var o := Preparation(r, generated);
    HeldTextCounted(r.messages, m, text);
    if o.Prepared? && m in o.messages {
      HeldTextCounted(o.messages, m, text);
    }
  }
}
