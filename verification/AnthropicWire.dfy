/** The Anthropic messages wire format (qcue-rs/router/src/transport_anthropic.rs, convert_messages):
    consecutive tool results become one user message of result blocks. */
module AnthropicWire {
  import opened Common
  import opened Json
  import opened Protocol
  import opened Trace

  function TextBlockOf(text: string): Json { Obj(map["type" := Str("text"), "text" := Str(text)]) }

  function ResultBlock(m: Message): Json {
    Obj(map["type" := Str("tool_result"), "tool_use_id" := Str(m.toolCallId.GetOr("")),
            "content" := Str(m.content.GetOr(""))])
  }

  /** The stored thinking block, replayed with its signature. */
  function ThinkingBlocks(m: Message): seq<Json> {
    match GetIn(m.providerData, "thinking")
    case None => []
    case Some(t) =>
      [Obj(map["type" := Str("thinking"), "thinking" := Str(StrAt(t, "thinking", "")),
               "signature" := Str(StrAt(t, "signature", ""))])]
  }

  function UseBlock(c: Codec, call: ToolCall): Json {
    Obj(map["type" := Str("tool_use"), "id" := Str(call.id.GetOr("")), "name" := Str(call.name),
            "input" := c.fromText(call.arguments).GetOr(Obj(map[]))])
  }

  function UseBlocks(c: Codec, calls: seq<ToolCall>): seq<Json> {
    Map((call: ToolCall) => UseBlock(c, call), calls)
  }

  function SpokenBlocks(m: Message): seq<Json> {
    if m.content.GetOr("") == "" then [] else [TextBlockOf(m.content.value)]
  }

  /** Thinking first, then text, then tool uses; never an empty list. */
  function Blocks(c: Codec, m: Message): seq<Json> {
    var blocks := ThinkingBlocks(m) + SpokenBlocks(m) + UseBlocks(c, CallsOf(m));
    if blocks == [] then [TextBlockOf("(empty)")] else blocks
  }

  function WireMessage(role: string, blocks: seq<Json>): Json {
    Obj(map["role" := Str(role), "content" := Arr(blocks)])
  }

  function SpeakerOf(m: Message): string { if m.role == Assistant then "assistant" else "user" }

  function NonSystem(msgs: seq<Message>): seq<Message> {
    if msgs == [] then []
    else (if msgs[0].role == System then [] else [msgs[0]]) + NonSystem(msgs[1..])
  }

  /** The end of the run of tool results that starts at `i`. */
  function RunEnd(ms: seq<Message>, i: nat): (j: nat)
    requires i <= |ms|
    ensures i <= j <= |ms|
    ensures forall k :: i <= k < j ==> ms[k].role == Tool
    ensures j < |ms| ==> ms[j].role != Tool
    decreases |ms| - i
  {
    if i < |ms| && ms[i].role == Tool then RunEnd(ms, i + 1) else i
  }

  /** Where the group of messages that starts at `i` ends: a run of tool results, or one message. */
  function GroupEnd(ms: seq<Message>, i: nat): (j: nat)
    requires i < |ms|
    ensures i < j <= |ms|
  {
    if ms[i].role == Tool then RunEnd(ms, i) else i + 1
  }

  function GroupAt(c: Codec, ms: seq<Message>, i: nat): Json
    requires i < |ms|
  {
    if ms[i].role == Tool then WireMessage("user", Map(ResultBlock, ms[i..GroupEnd(ms, i)]))
    else WireMessage(SpeakerOf(ms[i]), Blocks(c, ms[i]))
  }

  function Grouped(c: Codec, ms: seq<Message>, i: nat): seq<Json>
    requires i <= |ms|
    decreases |ms| - i
  {
    if i == |ms| then [] else [GroupAt(c, ms, i)] + Grouped(c, ms, GroupEnd(ms, i))
  }

  method RenderBlocks(c: Codec, m: Message) returns (blocks: seq<Json>)
    ensures blocks == Blocks(c, m)
  {
    blocks := ThinkingBlocks(m);
    if m.content.Some? && m.content.value != "" {
      blocks := blocks + [TextBlockOf(m.content.value)];
    }
    ghost var head := blocks;
    var calls := CallsOf(m);
    for k := 0 to |calls|
      invariant blocks == head + UseBlocks(c, calls[..k])
    {
      blocks := blocks + [UseBlock(c, calls[k])];
    }
    assert calls[..|calls|] == calls;
    if blocks == [] {
      blocks := blocks + [TextBlockOf("(empty)")];
    }
  }

  /** The blocks of one run of tool results. */
  method TakeResults(ms: seq<Message>, start: nat) returns (blocks: seq<Json>, i: nat)
    requires start < |ms| && ms[start].role == Tool
    ensures i == GroupEnd(ms, start) && blocks == Map(ResultBlock, ms[start..i])
  {
    blocks, i := [], start;
    while i < |ms| && ms[i].role == Tool
      invariant start <= i <= |ms| && RunEnd(ms, i) == RunEnd(ms, start)
      invariant blocks == Map(ResultBlock, ms[start..i])
    {
      blocks := blocks + [ResultBlock(ms[i])];
      i := i + 1;
    }
  }

  method ConvertMessages(c: Codec, msgs: seq<Message>) returns (out: seq<Json>)
    ensures out == Grouped(c, NonSystem(msgs), 0)
  {
    var ms := NonSystem(msgs);
    out := [];
    var i := 0;
    while i < |ms|
      invariant i <= |ms|
      invariant out + Grouped(c, ms, i) == Grouped(c, ms, 0)
    {
      GroupTaken(c, ms, i, out);
      var message, next := TakeGroup(c, ms, i);
      out, i := out + [message], next;
    }
  }

  /** One pass of the loop: a run of tool results, or one other message. */
  method TakeGroup(c: Codec, ms: seq<Message>, i: nat) returns (message: Json, next: nat)
    requires i < |ms|
    ensures message == GroupAt(c, ms, i) && next == GroupEnd(ms, i)
  {
    if ms[i].role == Tool {
      var blocks;
      blocks, next := TakeResults(ms, i);
      message := WireMessage("user", blocks);
    } else {
      var blocks := RenderBlocks(c, ms[i]);
      message, next := WireMessage(SpeakerOf(ms[i]), blocks), i + 1;
    }
  }

  lemma GroupTaken(c: Codec, ms: seq<Message>, i: nat, out: seq<Json>)
    requires i < |ms|
    ensures out + Grouped(c, ms, i) == (out + [GroupAt(c, ms, i)]) + Grouped(c, ms, GroupEnd(ms, i))
  {
    Assoc(out, [GroupAt(c, ms, i)], Grouped(c, ms, GroupEnd(ms, i)));
  }

  // ---------------------------------------------------------------------------------------------
  // What the messages say to a reader of this format
  // ---------------------------------------------------------------------------------------------

  function ReadBlock(assistant: bool, b: Json): seq<Turn> {
    match TypeOf(b)
    case "text" => Spoken(assistant, StrAt(b, "text", ""))
    case "tool_use" => [Called(StrAt(b, "id", ""), StrAt(b, "name", ""), Parsed(Get(b, "input").GetOr(Null)))]
    case "tool_result" => [Answered(StrAt(b, "tool_use_id", ""), StrAt(b, "content", ""))]
    case _ => []
  }

  function BlockReader(assistant: bool): Json -> seq<Turn> { (b: Json) => ReadBlock(assistant, b) }

  function ReadMessage(v: Json): seq<Turn> {
    FlatMap(BlockReader(StrAt(v, "role", "") == "assistant"), AsArr(Get(v, "content")).GetOr([]))
  }

  /** What one message of the transcript is read back as. */
  function Echo(c: Codec, m: Message): seq<Turn> {
    if m.role == System then []
    else if m.role == Tool then ReadBlock(false, ResultBlock(m))
    else FlatMap(BlockReader(m.role == Assistant), Blocks(c, m))
  }

  function EchoIn(c: Codec): Message -> seq<Turn> { (m: Message) => Echo(c, m) }

  lemma {:induction false} ResultsRead(ms: seq<Message>, c: Codec)
    requires forall k :: 0 <= k < |ms| ==> ms[k].role == Tool
    ensures FlatMap(BlockReader(false), Map(ResultBlock, ms)) == FlatMap(EchoIn(c), ms)
  {
    if ms != [] {
      assert Map(ResultBlock, ms)[1..] == Map(ResultBlock, ms[1..]);
      ResultsRead(ms[1..], c);
    }
  }

  lemma GroupRead(c: Codec, ms: seq<Message>, i: nat)
    requires i < |ms| && ms[i].role != System
    ensures ReadMessage(GroupAt(c, ms, i)) == FlatMap(EchoIn(c), ms[i..GroupEnd(ms, i)])
  {
    if ms[i].role == Tool {
      ResultsRead(ms[i..GroupEnd(ms, i)], c);
    } else {
      assert ms[i..i + 1] == [ms[i]];
      FlatMapOne(EchoIn(c), ms[i]);
    }
  }

  /** Grouping loses, repeats and reorders nothing. */
  lemma {:induction false} GroupsRead(c: Codec, ms: seq<Message>, i: nat)
    requires i <= |ms| && forall k :: 0 <= k < |ms| ==> ms[k].role != System
    ensures FlatMap(ReadMessage, Grouped(c, ms, i)) == FlatMap(EchoIn(c), ms[i..])
    decreases |ms| - i
  {
    if i < |ms| {
      var j := GroupEnd(ms, i);
      GroupRead(c, ms, i);
      GroupsRead(c, ms, j);
      SplitAt(ms, i, j);
      FlatMapAppend(EchoIn(c), ms[i..j], ms[j..]);
      assert Grouped(c, ms, i)[1..] == Grouped(c, ms, j);
    }
  }

  lemma SplitAt<T>(xs: seq<T>, i: nat, j: nat)
    requires i <= j <= |xs|
    ensures xs[i..] == xs[i..j] + xs[j..]
  {
  }

  lemma {:induction false} NonSystemReads(c: Codec, msgs: seq<Message>)
    ensures FlatMap(EchoIn(c), NonSystem(msgs)) == FlatMap(EchoIn(c), msgs)
  {
    if msgs != [] {
      var rest := NonSystem(msgs[1..]);
      NonSystemReads(c, msgs[1..]);
      if msgs[0].role == System {
        assert NonSystem(msgs) == rest;
        assert EchoIn(c)(msgs[0]) == [];
      } else {
        FlatMapCons(EchoIn(c), msgs[0], rest);
        assert NonSystem(msgs) == [msgs[0]] + rest;
      }
    }
  }

  lemma {:induction false} NonSystemIsClean(msgs: seq<Message>)
    ensures forall k :: 0 <= k < |NonSystem(msgs)| ==> NonSystem(msgs)[k].role != System
  {
    if msgs != [] {
      NonSystemIsClean(msgs[1..]);
    }
  }

  lemma RenderingReads(c: Codec, msgs: seq<Message>)
    ensures FlatMap(ReadMessage, Grouped(c, NonSystem(msgs), 0)) == FlatMap(EchoIn(c), msgs)
  {
    NonSystemReads(c, msgs);
    NonSystemIsClean(msgs);
    GroupsRead(c, NonSystem(msgs), 0);
    assert NonSystem(msgs)[0..] == NonSystem(msgs);
  }

  /** What the calls of a message are read back as: arguments that are not JSON become an empty object. */
  function UseTurn(c: Codec, call: ToolCall): Turn {
    Called(call.id.GetOr(""), call.name, Parsed(c.fromText(call.arguments).GetOr(Obj(map[]))))
  }

  lemma {:induction false} UsesRead(c: Codec, assistant: bool, calls: seq<ToolCall>)
    ensures FlatMap(BlockReader(assistant), UseBlocks(c, calls)) == Map((call: ToolCall) => UseTurn(c, call), calls)
  {
    if calls != [] {
      assert UseBlocks(c, calls)[1..] == UseBlocks(c, calls[1..]);
      UsesRead(c, assistant, calls[1..]);
    }
  }

  /** Nothing at all to render: the placeholder text is sent instead. */
  predicate Blank(m: Message) {
    (m.role == User || m.role == Assistant)
    && ThinkingBlocks(m) == [] && m.content.GetOr("") == "" && CallsOf(m) == []
  }

  lemma ThinkingRead(assistant: bool, m: Message)
    ensures FlatMap(BlockReader(assistant), ThinkingBlocks(m)) == []
  {
    if ThinkingBlocks(m) != [] {
      assert ThinkingBlocks(m) == [ThinkingBlocks(m)[0]];
      FlatMapOne(BlockReader(assistant), ThinkingBlocks(m)[0]);
    }
  }

  lemma SpokenRead(assistant: bool, m: Message)
    ensures FlatMap(BlockReader(assistant), SpokenBlocks(m)) == Spoken(assistant, m.content.GetOr(""))
  {
    if SpokenBlocks(m) != [] {
      FlatMapOne(BlockReader(assistant), TextBlockOf(m.content.value));
    }
  }

  lemma BlocksRead(c: Codec, m: Message)
    requires m.role == User || m.role == Assistant
    ensures FlatMap(BlockReader(m.role == Assistant), ThinkingBlocks(m) + SpokenBlocks(m) + UseBlocks(c, CallsOf(m)))
            == Spoken(m.role == Assistant, m.content.GetOr(""))
               + Map((call: ToolCall) => UseTurn(c, call), CallsOf(m))
  {
    var assistant := m.role == Assistant;
    var said, used := Spoken(assistant, m.content.GetOr("")), Map((call: ToolCall) => UseTurn(c, call), CallsOf(m));
    ThinkingRead(assistant, m);
    SpokenRead(assistant, m);
    UsesRead(c, assistant, CallsOf(m));
    SilentThenTwo(BlockReader(assistant), ThinkingBlocks(m), SpokenBlocks(m), UseBlocks(c, CallsOf(m)), said, used);
  }

  lemma BlankHasNoBlocks(c: Codec, m: Message)
    requires m.role == User || m.role == Assistant
    ensures Blank(m) <==> ThinkingBlocks(m) + SpokenBlocks(m) + UseBlocks(c, CallsOf(m)) == []
  {
    var t, s, u := ThinkingBlocks(m), SpokenBlocks(m), UseBlocks(c, CallsOf(m));
    assert |t + s + u| == |t| + |s| + |CallsOf(m)|;
  }

  lemma SpeakerRead(c: Codec, m: Message)
    requires m.role == User || m.role == Assistant
    ensures Echo(c, m)
            == if Blank(m) then Spoken(m.role == Assistant, "(empty)")
               else Spoken(m.role == Assistant, m.content.GetOr(""))
                     + Map((call: ToolCall) => UseTurn(c, call), CallsOf(m))
  {
    BlankHasNoBlocks(c, m);
    BlocksRead(c, m);
    FlatMapOne(BlockReader(m.role == Assistant), TextBlockOf("(empty)"));
  }

  /** A message that this format renders faithfully: not blank, calls only from assistants and with
      arguments that are JSON. */
  predicate Sound(c: Codec, m: Message) {
    match m.role
    case User => !Blank(m) && CallsOf(m) == []
    case Assistant =>
      !Blank(m) && forall k :: 0 <= k < |CallsOf(m)| ==> c.fromText(CallsOf(m)[k].arguments).Some?
    case _ => true
  }

  lemma SoundSaysIt(c: Codec, m: Message)
    ensures |Echo(c, m)| >= |Meaning(c, m)|
    ensures Echo(c, m) == Meaning(c, m) <==> Sound(c, m)
  {
    if m.role == User || m.role == Assistant {
      SpeakerRead(c, m);
      if m.role == Assistant && !Blank(m) {
        var said, calls := Spoken(true, m.content.GetOr("")), CallsOf(m);
        var uses, turns := Map((call: ToolCall) => UseTurn(c, call), calls), CallTurns(c, calls);
        HeadAndTailAgree(said, uses, said, turns);
        assert uses == turns <==> forall k :: 0 <= k < |calls| ==> uses[k] == turns[k];
        assert forall k :: 0 <= k < |calls| ==> (uses[k] == turns[k] <==> c.fromText(calls[k].arguments).Some?);
      }
    }
  }

  /** The Anthropic rendering says what the transcript means exactly when every message is sound. */
  lemma AnthropicSaysTheTrace(c: Codec, msgs: seq<Message>)
    ensures FlatMap(ReadMessage, Grouped(c, NonSystem(msgs), 0)) == TraceOf(c, msgs)
            <==> forall k :: 0 <= k < |msgs| ==> Sound(c, msgs[k])
  {
    RenderingReads(c, msgs);
    forall m ensures |EchoIn(c)(m)| >= |MeaningIn(c)(m)| && (EchoIn(c)(m) == MeaningIn(c)(m) <==> Sound(c, m)) {
      SoundSaysIt(c, m);
    }
    PiecewiseAgreement(EchoIn(c), MeaningIn(c), msgs);
  }

  // ---------------------------------------------------------------------------------------------
  // Stored thinking is replayed
  // ---------------------------------------------------------------------------------------------

  /** A thought with the provider's signature. */
  datatype Signed = Signed(text: string, signature: string)

  function Thought(b: Json): seq<Signed> {
    if TypeOf(b) == "thinking" then [Signed(StrAt(b, "thinking", ""), StrAt(b, "signature", ""))] else []
  }

  function ThoughtsOf(v: Json): seq<Signed> { FlatMap(Thought, AsArr(Get(v, "content")).GetOr([])) }

  /** The thought that the provider's data with a message hold; that of a tool result is not sent. */
  function Stored(m: Message): seq<Signed> {
    var t := GetIn(m.providerData, "thinking");
    if m.role == Tool || m.role == System || t.None? then []
    else [Signed(StrAt(t.value, "thinking", ""), StrAt(t.value, "signature", ""))]
  }

  lemma {:induction false} UsesThinkNothing(c: Codec, calls: seq<ToolCall>)
    ensures FlatMap(Thought, UseBlocks(c, calls)) == []
  {
    if calls != [] {
      assert UseBlocks(c, calls)[1..] == UseBlocks(c, calls[1..]);
      UsesThinkNothing(c, calls[1..]);
    }
  }

  lemma {:induction false} ResultsThinkNothing(ms: seq<Message>)
    requires forall k :: 0 <= k < |ms| ==> ms[k].role == Tool
    ensures FlatMap(Thought, Map(ResultBlock, ms)) == [] && FlatMap(Stored, ms) == []
  {
    if ms != [] {
      assert Map(ResultBlock, ms)[1..] == Map(ResultBlock, ms[1..]);
      ResultsThinkNothing(ms[1..]);
    }
  }

  lemma TextThinksNothing(text: string)
    ensures Thought(TextBlockOf(text)) == [] && FlatMap(Thought, [TextBlockOf(text)]) == []
  {
    FlatMapOne(Thought, TextBlockOf(text));
  }

  lemma ThoughtIsStored(m: Message)
    requires m.role == User || m.role == Assistant
    ensures FlatMap(Thought, ThinkingBlocks(m)) == Stored(m)
  {
    if ThinkingBlocks(m) != [] {
      assert ThinkingBlocks(m) == [ThinkingBlocks(m)[0]];
      FlatMapOne(Thought, ThinkingBlocks(m)[0]);
    }
  }

  lemma BlocksThink(c: Codec, m: Message)
    requires m.role == User || m.role == Assistant
    ensures FlatMap(Thought, Blocks(c, m)) == Stored(m)
  {
    var t, s, u := ThinkingBlocks(m), SpokenBlocks(m), UseBlocks(c, CallsOf(m));
    ThoughtIsStored(m);
    TextThinksNothing(m.content.GetOr(""));
    TextThinksNothing("(empty)");
    UsesThinkNothing(c, CallsOf(m));
    FlatMapThree(Thought, t, s, u);
    BlankHasNoBlocks(c, m);
    assert Stored(m) + [] + [] == Stored(m);
  }

  lemma GroupThinks(c: Codec, ms: seq<Message>, i: nat)
    requires i < |ms| && ms[i].role != System
    ensures ThoughtsOf(GroupAt(c, ms, i)) == FlatMap(Stored, ms[i..GroupEnd(ms, i)])
  {
    if ms[i].role == Tool {
      ResultsThinkNothing(ms[i..GroupEnd(ms, i)]);
    } else {
      assert ms[i..i + 1] == [ms[i]];
      FlatMapOne(Stored, ms[i]);
      BlocksThink(c, ms[i]);
    }
  }

  lemma {:induction false} GroupsThink(c: Codec, ms: seq<Message>, i: nat)
    requires i <= |ms| && forall k :: 0 <= k < |ms| ==> ms[k].role != System
    ensures FlatMap(ThoughtsOf, Grouped(c, ms, i)) == FlatMap(Stored, ms[i..])
    decreases |ms| - i
  {
    if i < |ms| {
      var j := GroupEnd(ms, i);
      GroupThinks(c, ms, i);
      GroupsThink(c, ms, j);
      SplitAt(ms, i, j);
      FlatMapAppend(Stored, ms[i..j], ms[j..]);
      assert Grouped(c, ms, i)[1..] == Grouped(c, ms, j);
    }
  }

  lemma {:induction false} NonSystemThinks(msgs: seq<Message>)
    ensures FlatMap(Stored, NonSystem(msgs)) == FlatMap(Stored, msgs)
  {
    if msgs != [] {
      var rest := NonSystem(msgs[1..]);
      NonSystemThinks(msgs[1..]);
      if msgs[0].role == System {
        assert NonSystem(msgs) == rest;
      } else {
        FlatMapCons(Stored, msgs[0], rest);
        assert NonSystem(msgs) == [msgs[0]] + rest;
      }
    }
  }

  /** Every stored thought goes back to the provider with its signature, in the order of the transcript. */
  lemma ThinkingIsReplayed(c: Codec, msgs: seq<Message>)
    ensures FlatMap(ThoughtsOf, Grouped(c, NonSystem(msgs), 0)) == FlatMap(Stored, msgs)
  {
    NonSystemThinks(msgs);
    NonSystemIsClean(msgs);
    GroupsThink(c, NonSystem(msgs), 0);
    assert NonSystem(msgs)[0..] == NonSystem(msgs);
  }

  /** And before all else of its message. */
  lemma ThinkingComesFirst(c: Codec, m: Message, k: nat)
    requires 0 < k < |Blocks(c, m)|
    ensures TypeOf(Blocks(c, m)[k]) != "thinking"
  {
    var t, s, u := ThinkingBlocks(m), SpokenBlocks(m), UseBlocks(c, CallsOf(m));
    var all := t + s + u;
    assert |t| <= 1 && |s| <= 1;
    if all != [] {
      assert all[k] == if k < |t| + |s| then s[k - |t|] else u[k - |t| - |s|];
    }
  }

  /** A message of tool results. */
  predicate IsResults(v: Json) {
    AsArr(Get(v, "content")).Some? && AsArr(Get(v, "content")).value != []
    && TypeOf(AsArr(Get(v, "content")).value[0]) == "tool_result"
  }

  lemma SpeakerIsNoResults(c: Codec, m: Message)
    requires m.role != Tool
    ensures !IsResults(WireMessage(SpeakerOf(m), Blocks(c, m)))
  {
    var b := Blocks(c, m)[0];
    if ThinkingBlocks(m) == [] && SpokenBlocks(m) == [] && CallsOf(m) != [] {
      assert b == UseBlock(c, CallsOf(m)[0]);
    }
  }

  /** Results of one batch share one user message: two result messages are never adjacent. */
  lemma {:induction false} ResultsAreCoalesced(c: Codec, ms: seq<Message>, i: nat, k: nat)
    requires i <= |ms| && k + 1 < |Grouped(c, ms, i)|
    ensures !(IsResults(Grouped(c, ms, i)[k]) && IsResults(Grouped(c, ms, i)[k + 1]))
    decreases |ms| - i
  {
    var j := GroupEnd(ms, i);
    if k > 0 {
      ResultsAreCoalesced(c, ms, j, k - 1);
    } else if ms[i].role == Tool {
      SpeakerIsNoResults(c, ms[j]);
      assert Grouped(c, ms, i)[1] == Grouped(c, ms, j)[0];
    } else {
      SpeakerIsNoResults(c, ms[i]);
    }
  }
}
