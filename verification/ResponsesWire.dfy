/** The Responses wire format (qcue-rs/router/src/transport_responses.rs): rendering a transcript as
    input items and reading an answer's output items back. */
module ResponsesWire {
  import opened Common
  import opened Json
  import opened Protocol

  // ---------------------------------------------------------------------------------------------
  // Rendering
  // ---------------------------------------------------------------------------------------------

  function UserItem(content: string): Json {
    Obj(map["role" := Str("user"), "content" := Str(content)])
  }

  function TextItem(text: string): Json {
    Obj(map["role" := Str("assistant"),
            "content" := Arr([Obj(map["type" := Str("output_text"), "text" := Str(text)])])])
  }

  function CallItem(c: Codec, call: ToolCall): Json {
    Obj(map["type" := Str("function_call"), "call_id" := Str(call.id.GetOr("")), "name" := Str(call.name),
            "arguments" := Str(Canonical(c, call.arguments))])
  }

  function ResultItem(callId: string, output: string): Json {
    Obj(map["type" := Str("function_call_output"), "call_id" := Str(callId), "output" := Str(output)])
  }

  /** The reasoning items stashed with an assistant message. */
  function StashedReasoning(m: Message): seq<Json> {
    AsArr(GetIn(m.providerData, "responses_reasoning_items")).GetOr([])
  }

  function CallItems(c: Codec, calls: seq<ToolCall>): seq<Json> {
    seq(|calls|, i requires 0 <= i < |calls| => CallItem(c, calls[i]))
  }

  function ItemsOf(c: Codec, m: Message): seq<Json> {
    match m.role
    case System => []
    case User => [UserItem(m.content.GetOr(""))]
    case Assistant =>
      StashedReasoning(m)
      + (if m.content.GetOr("") != "" then [TextItem(m.content.value)] else [])
      + CallItems(c, CallsOf(m))
    case Tool => [ResultItem(m.toolCallId.GetOr(""), m.content.GetOr(""))]
  }

  function Rendered(c: Codec, msgs: seq<Message>): seq<Json> {
    if msgs == [] then [] else ItemsOf(c, msgs[0]) + Rendered(c, msgs[1..])
  }

  lemma {:induction false} RenderedAppend(c: Codec, a: seq<Message>, b: seq<Message>)
    ensures Rendered(c, a + b) == Rendered(c, a) + Rendered(c, b)
  {
    if a == [] {
      assert a + b == b;
    } else {
      assert (a + b)[0] == a[0] && (a + b)[1..] == a[1..] + b;
      RenderedAppend(c, a[1..], b);
    }
  }

  lemma RenderedPrefix(c: Codec, msgs: seq<Message>, i: nat)
    requires i < |msgs|
    ensures Rendered(c, msgs[..i + 1]) == Rendered(c, msgs[..i]) + ItemsOf(c, msgs[i])
  {
    assert msgs[..i + 1] == msgs[..i] + [msgs[i]];
    RenderedAppend(c, msgs[..i], [msgs[i]]);
    assert [msgs[i]][1..] == [];
    assert Rendered(c, [msgs[i]][1..]) == [];
  }

  method RenderAssistant(c: Codec, m: Message) returns (out: seq<Json>)
    requires m.role == Assistant
    ensures out == ItemsOf(c, m)
  {
    out := [];
    var items := StashedReasoning(m);
    for k := 0 to |items|
      invariant out == items[..k]
    {
      out := out + [items[k]];
    }
    if m.content.Some? && m.content.value != "" {
      out := out + [TextItem(m.content.value)];
    }
    ghost var head := out;
    var calls := CallsOf(m);
    for k := 0 to |calls|
      invariant out == head + CallItems(c, calls[..k])
    {
      out := out + [CallItem(c, calls[k])];
    }
    assert calls[..|calls|] == calls;
  }

  method ConvertMessages(c: Codec, msgs: seq<Message>) returns (out: seq<Json>)
    ensures out == Rendered(c, msgs)
  {
    out := [];
    for i := 0 to |msgs|
      invariant out == Rendered(c, msgs[..i])
    {
      var m := msgs[i];
      RenderedPrefix(c, msgs, i);
      match m.role {
        case System =>
        case User => out := out + [UserItem(m.content.GetOr(""))];
        case Assistant =>
          var items := RenderAssistant(c, m);
          out := out + items;
        case Tool => out := out + [ResultItem(m.toolCallId.GetOr(""), m.content.GetOr(""))];
      }
    }
    assert msgs[..|msgs|] == msgs;
  }

  // ---------------------------------------------------------------------------------------------
  // Reading an answer
  // ---------------------------------------------------------------------------------------------

  function PartText(part: Json): string { if TypeOf(part) == "output_text" then StrAt(part, "text", "") else "" }

  /** The text of the `output_text` parts of a message item. */
  function MessageText(item: Json): string { FlatMap(PartText, AsArr(Get(item, "content")).GetOr([])) }

  function ItemText(item: Json): string { if TypeOf(item) == "message" then MessageText(item) else "" }

  function OutputText(output: seq<Json>): string { FlatMap(ItemText, output) }

  function ItemReasoning(item: Json): seq<Json> { if TypeOf(item) == "reasoning" then [item] else [] }

  function ReasoningItems(output: seq<Json>): seq<Json> { FlatMap(ItemReasoning, output) }

  function SummaryOf(item: Json): string {
    FlatMap((part: Json) => StrAt(part, "text", ""), AsArr(Get(item, "summary")).GetOr([]))
  }

  /** The summary of the last reasoning item that has one. */
  function ReasoningText(output: seq<Json>): Option<string> {
    if output == [] then None
    else
      var n := |output| - 1;
      if TypeOf(output[n]) == "reasoning" && SummaryOf(output[n]) != "" then Some(SummaryOf(output[n]))
      else ReasoningText(output[..n])
  }

  function CallOfItem(item: Json): ToolCall {
    ToolCall(AsStr(Get(item, "call_id")), StrAt(item, "name", ""), StrAt(item, "arguments", "{}"))
  }

  function ItemCall(item: Json): seq<ToolCall> {
    if TypeOf(item) == "function_call" then [CallOfItem(item)] else []
  }

  function OutputCalls(output: seq<Json>): seq<ToolCall> { FlatMap(ItemCall, output) }

  function MapIncomplete(reason: string): FinishReason {
    match reason
    case "max_output_tokens" => Length
    case "content_filter" => ContentFilter
    case _ => Stop
  }

  function IncompleteReason(raw: Json): string { AsStr(GetIn(Get(raw, "incomplete_details"), "reason")).GetOr("") }

  function FinishOf(raw: Json, hasCalls: bool): FinishReason {
    if hasCalls then ToolCalls
    else if StrAt(raw, "status", "completed") == "incomplete" then MapIncomplete(IncompleteReason(raw))
    else Stop
  }

  function UsageOf(raw: Json): Option<Usage> {
    match Get(raw, "usage")
    case Some(u) => UsageFromChat(u)
    case None => None
  }

  /** The opaque bag stored with the answer, from which the reasoning items are echoed later. */
  function Stash(raw: Json, items: seq<Json>): Option<Json> {
    if items == [] && Get(raw, "id").None? then None
    else Some(Obj(map["responses_reasoning_items" := Arr(items), "response_id" := Get(raw, "id").GetOr(Null)]))
  }

  /** The answer, or the name of the missing field. */
  function Normalized(raw: Json): Result<Answer, string> {
    match AsArr(Get(raw, "output"))
    case None => Err("output")
    case Some(output) =>
      var text, calls, items := OutputText(output), OutputCalls(output), ReasoningItems(output);
      Ok(Answer(
        if text == "" then None else Some(text),
        if calls == [] then None else Some(calls),
        FinishOf(raw, calls != []),
        ReasoningText(output), UsageOf(raw), Stash(raw, items)))
  }

  method NormalizeResponse(raw: Json) returns (r: Result<Answer, string>)
    ensures r == Normalized(raw)
  {
    var field := AsArr(Get(raw, "output"));
    if field.None? {
      return Err("output");
    }
    var output := field.value;
    var text: string, reasoning: Option<string>, items: seq<Json>, calls: seq<ToolCall> := "", None, [], [];
    for i := 0 to |output|
      invariant text == OutputText(output[..i]) && reasoning == ReasoningText(output[..i])
      invariant items == ReasoningItems(output[..i]) && calls == OutputCalls(output[..i])
    {
      var item := output[i];
      FlatMapPrefix(ItemText, output, i);
      FlatMapPrefix(ItemReasoning, output, i);
      FlatMapPrefix(ItemCall, output, i);
      assert output[..i + 1][..i] == output[..i];
      match TypeOf(item) {
        case "message" =>
          text := text + MessageText(item);
        case "reasoning" =>
          items := items + [item];
          var joined := SummaryOf(item);
          if joined != "" {
            reasoning := Some(joined);
          }
        case "function_call" =>
          calls := calls + [CallOfItem(item)];
        case _ =>
      }
    }
    assert output[..|output|] == output;
    var finish := if calls != [] then ToolCalls else FinishOf(raw, false);
    r := Ok(Answer(if text == "" then None else Some(text), if calls == [] then None else Some(calls),
                   finish, reasoning, UsageOf(raw), Stash(raw, items)));
  }

  // ---------------------------------------------------------------------------------------------
  // The reasoning echo: an answer stored as an assistant message and rendered again
  // ---------------------------------------------------------------------------------------------

  /** What an item says, whichever side of the wire wrote it. */
  datatype View =
    | Reasoned(item: Json)
    | Said(text: string)
    | Called(id: string, name: string, args: Args)
    | Other

  function ViewOf(c: Codec, item: Json): View {
    match TypeOf(item)
    case "reasoning" => Reasoned(item)
    case "function_call" =>
      Called(StrAt(item, "call_id", ""), StrAt(item, "name", ""), ArgsOf(c, StrAt(item, "arguments", "{}")))
    case "message" => Said(MessageText(item))
    case _ => if StrAt(item, "role", "") == "assistant" then Said(MessageText(item)) else Other
  }

  function Views(c: Codec, items: seq<Json>): seq<View> {
    seq(|items|, i requires 0 <= i < |items| => ViewOf(c, items[i]))
  }

  /** The answer as it is sent back: every reasoning item untouched and first, then the text, then the calls. */
  lemma EchoShape(c: Codec, raw: Json)
    requires Normalized(raw).Ok?
    ensures var output := Get(raw, "output").value.items;
            var text := OutputText(output);
            ItemsOf(c, AssistantMessage(Normalized(raw).value))
            == ReasoningItems(output) + (if text == "" then [] else [TextItem(text)])
               + CallItems(c, OutputCalls(output))
  {
    var output := Get(raw, "output").value.items;
    var m := AssistantMessage(Normalized(raw).value);
    assert StashedReasoning(m) == ReasoningItems(output);
    assert CallsOf(m) == OutputCalls(output);
  }

  /** Reasoning items, at most one message, then calls: the order in which the provider emits an answer. */
  ghost predicate CanonicalOrder(rs: seq<Json>, ms: seq<Json>, cs: seq<Json>) {
    (forall k :: 0 <= k < |rs| ==> TypeOf(rs[k]) == "reasoning")
    && (ms == [] || (|ms| == 1 && TypeOf(ms[0]) == "message" && MessageText(ms[0]) != ""))
    && (forall k :: 0 <= k < |cs| ==> TypeOf(cs[k]) == "function_call")
  }

  lemma {:induction false} OnlyReasoning(rs: seq<Json>)
    requires forall k :: 0 <= k < |rs| ==> TypeOf(rs[k]) == "reasoning"
    ensures ReasoningItems(rs) == rs && OutputText(rs) == "" && OutputCalls(rs) == []
  {
    if rs != [] {
      OnlyReasoning(rs[1..]);
      assert rs == [rs[0]] + rs[1..];
    }
  }

  lemma {:induction false} OnlyCalls(c: Codec, cs: seq<Json>)
    requires forall k :: 0 <= k < |cs| ==> TypeOf(cs[k]) == "function_call"
    ensures ReasoningItems(cs) == [] && OutputText(cs) == ""
    ensures OutputCalls(cs) == Map(CallOfItem, cs)
  {
    if cs != [] {
      OnlyCalls(c, cs[1..]);
      assert Map(CallOfItem, cs) == [CallOfItem(cs[0])] + Map(CallOfItem, cs[1..]);
    }
  }

  lemma CallItemView(c: Codec, item: Json)
    requires Faithful(c) && TypeOf(item) == "function_call"
    ensures ViewOf(c, CallItem(c, CallOfItem(item))) == ViewOf(c, item)
  {
    CanonicalKeepsMeaning(c, StrAt(item, "arguments", "{}"));
    assert TypeOf(CallItem(c, CallOfItem(item))) == "function_call";
  }

  lemma TextItemView(c: Codec, text: string)
    ensures ViewOf(c, TextItem(text)) == Said(text)
  {
    var part := Obj(map["type" := Str("output_text"), "text" := Str(text)]);
    FlatMapOne(PartText, part);
    assert MessageText(TextItem(text)) == FlatMap(PartText, [part]);
    assert TypeOf(TextItem(text)) == "" && StrAt(TextItem(text), "role", "") == "assistant";
  }

  /** The text item that a list of at most one message is echoed as. */
  function SaidItem(ms: seq<Json>): seq<Json> { if ms == [] then [] else [TextItem(MessageText(ms[0]))] }

  lemma OneMessage(ms: seq<Json>)
    requires ms == [] || (|ms| == 1 && TypeOf(ms[0]) == "message")
    ensures OutputText(ms) == if ms == [] then "" else MessageText(ms[0])
    ensures ReasoningItems(ms) == [] && OutputCalls(ms) == []
  {
    if ms != [] {
      assert ms == [ms[0]];
      FlatMapOne(ItemText, ms[0]);
      FlatMapOne(ItemReasoning, ms[0]);
      FlatMapOne(ItemCall, ms[0]);
    }
  }

  lemma CanonicalOutput(c: Codec, rs: seq<Json>, ms: seq<Json>, cs: seq<Json>)
    requires CanonicalOrder(rs, ms, cs)
    ensures ReasoningItems(rs + ms + cs) == rs
    ensures OutputText(rs + ms + cs) == if ms == [] then "" else MessageText(ms[0])
    ensures OutputCalls(rs + ms + cs) == Map(CallOfItem, cs)
  {
    OnlyReasoning(rs);
    OneMessage(ms);
    OnlyCalls(c, cs);
    FlatMapThree(ItemReasoning, rs, ms, cs);
    FlatMapThree(ItemText, rs, ms, cs);
    FlatMapThree(ItemCall, rs, ms, cs);
  }

  lemma CanonicalParts(c: Codec, raw: Json, rs: seq<Json>, ms: seq<Json>, cs: seq<Json>)
    requires CanonicalOrder(rs, ms, cs) && Get(raw, "output") == Some(Arr(rs + ms + cs))
    ensures Normalized(raw).Ok?
    ensures ItemsOf(c, AssistantMessage(Normalized(raw).value))
            == rs + SaidItem(ms) + CallItems(c, Map(CallOfItem, cs))
  {
    CanonicalOutput(c, rs, ms, cs);
    EchoShape(c, raw);
  }

  lemma SaidItemView(c: Codec, ms: seq<Json>)
    requires ms == [] || (|ms| == 1 && TypeOf(ms[0]) == "message")
    ensures |SaidItem(ms)| == |ms| && Views(c, SaidItem(ms)) == Views(c, ms)
  {
    if ms != [] {
      TextItemView(c, MessageText(ms[0]));
    }
  }

  lemma CallViews(c: Codec, cs: seq<Json>)
    requires Faithful(c) && forall k :: 0 <= k < |cs| ==> TypeOf(cs[k]) == "function_call"
    ensures Views(c, CallItems(c, Map(CallOfItem, cs))) == Views(c, cs)
  {
    var calls := CallItems(c, Map(CallOfItem, cs));
    forall k | 0 <= k < |cs| ensures ViewOf(c, calls[k]) == ViewOf(c, cs[k]) {
      CallItemView(c, cs[k]);
    }
  }

  /** In canonical order the echo says item for item what the provider said, reasoning items verbatim. */
  lemma CanonicalEcho(c: Codec, raw: Json, rs: seq<Json>, ms: seq<Json>, cs: seq<Json>)
    requires Faithful(c) && CanonicalOrder(rs, ms, cs)
    requires Get(raw, "output") == Some(Arr(rs + ms + cs))
    ensures Normalized(raw).Ok?
    ensures rs <= ItemsOf(c, AssistantMessage(Normalized(raw).value))
    ensures Views(c, ItemsOf(c, AssistantMessage(Normalized(raw).value))) == Views(c, rs + ms + cs)
  {
    CanonicalParts(c, raw, rs, ms, cs);
    CallViews(c, cs);
    SaidItemView(c, ms);
    SameViews(c, rs, SaidItem(ms), rs, ms);
    SameViews(c, rs + SaidItem(ms), CallItems(c, Map(CallOfItem, cs)), rs + ms, cs);
  }

  lemma SameViews(c: Codec, a: seq<Json>, b: seq<Json>, a': seq<Json>, b': seq<Json>)
    requires Views(c, a) == Views(c, a') && Views(c, b) == Views(c, b')
    ensures Views(c, a + b) == Views(c, a' + b')
  {
    assert Views(c, a + b) == Views(c, a) + Views(c, b);
    assert Views(c, a' + b') == Views(c, a') + Views(c, b');
  }

  predicate Known(item: Json) { TypeOf(item) in ["reasoning", "message", "function_call"] }

  /** Canonical order is also necessary: any other order of the three item kinds is changed by the echo. */
  lemma OnlyCanonicalEchoes(c: Codec, raw: Json, output: seq<Json>)
    requires Faithful(c) && Get(raw, "output") == Some(Arr(output))
    requires forall k :: 0 <= k < |output| ==> Known(output[k])
    ensures Normalized(raw).Ok?
    ensures Views(c, ItemsOf(c, AssistantMessage(Normalized(raw).value))) == Views(c, output)
            <==> exists i, j :: 0 <= i <= j <= |output| && CanonicalOrder(output[..i], output[i..j], output[j..])
  {
    if i, j :| 0 <= i <= j <= |output| && CanonicalOrder(output[..i], output[i..j], output[j..]) {
      OrderedEchoes(c, raw, output, i, j);
    } else if Views(c, ItemsOf(c, AssistantMessage(Normalized(raw).value))) == Views(c, output) {
      var i, j := EchoForcesOrder(c, raw, output);
      assert false;
    }
  }

  lemma OrderedEchoes(c: Codec, raw: Json, output: seq<Json>, i: nat, j: nat)
    requires Faithful(c) && Get(raw, "output") == Some(Arr(output)) && Normalized(raw).Ok?
    requires i <= j <= |output| && CanonicalOrder(output[..i], output[i..j], output[j..])
    ensures Views(c, ItemsOf(c, AssistantMessage(Normalized(raw).value))) == Views(c, output)
  {
    assert output[..i] + output[i..j] + output[j..] == output;
    CanonicalEcho(c, raw, output[..i], output[i..j], output[j..]);
  }

  lemma EchoForcesOrder(c: Codec, raw: Json, output: seq<Json>) returns (i: nat, j: nat)
    requires Get(raw, "output") == Some(Arr(output)) && Normalized(raw).Ok?
    requires forall k :: 0 <= k < |output| ==> Known(output[k])
    requires Views(c, ItemsOf(c, AssistantMessage(Normalized(raw).value))) == Views(c, output)
    ensures i <= j <= |output| && CanonicalOrder(output[..i], output[i..j], output[j..])
  {
    var echo := ItemsOf(c, AssistantMessage(Normalized(raw).value));
    i := |ReasoningItems(output)|;
    j := if OutputText(output) == "" then i else i + 1;
    EchoKinds(c, raw, output, i, j);
    forall k | 0 <= k < |output| ensures ViewOf(c, output[k]) == ViewOf(c, echo[k]) {
      assert Views(c, output)[k] == Views(c, echo)[k];
    }
    assert |echo| == |output| by { assert |Views(c, echo)| == |Views(c, output)|; }
    KindFromView(c, output);
  }

  lemma KindFromView(c: Codec, output: seq<Json>)
    requires forall k :: 0 <= k < |output| ==> Known(output[k])
    ensures forall k :: 0 <= k < |output| ==> (ViewOf(c, output[k]).Reasoned? ==> TypeOf(output[k]) == "reasoning")
    ensures forall k :: 0 <= k < |output| ==> (ViewOf(c, output[k]).Called? ==> TypeOf(output[k]) == "function_call")
    ensures forall k :: 0 <= k < |output| ==>
              (ViewOf(c, output[k]).Said? ==>
                TypeOf(output[k]) == "message" && ViewOf(c, output[k]).text == MessageText(output[k]))
  {
  }

  lemma {:induction false} ReasoningItemsAre(output: seq<Json>, k: nat)
    requires k < |ReasoningItems(output)|
    ensures TypeOf(ReasoningItems(output)[k]) == "reasoning"
  {
    var head := ItemReasoning(output[0]);
    if k >= |head| {
      ReasoningItemsAre(output[1..], k - |head|);
    }
  }

  lemma EchoKinds(c: Codec, raw: Json, output: seq<Json>, i: nat, j: nat)
    requires Get(raw, "output") == Some(Arr(output)) && Normalized(raw).Ok?
    requires i == |ReasoningItems(output)| && j == if OutputText(output) == "" then i else i + 1
    ensures var echo := ItemsOf(c, AssistantMessage(Normalized(raw).value));
            j <= |echo| && (forall k :: 0 <= k < i ==> ViewOf(c, echo[k]).Reasoned?)
            && (i < j ==> ViewOf(c, echo[i]) == Said(OutputText(output)))
            && (forall k :: j <= k < |echo| ==> ViewOf(c, echo[k]).Called?)
  {
    EchoShape(c, raw);
    TextItemView(c, OutputText(output));
    ReasoningKinds(c, output);
    CallKinds(c, OutputCalls(output));
  }

  lemma ReasoningKinds(c: Codec, output: seq<Json>)
    ensures forall k :: 0 <= k < |ReasoningItems(output)| ==> ViewOf(c, ReasoningItems(output)[k]).Reasoned?
  {
    forall k | 0 <= k < |ReasoningItems(output)| ensures ViewOf(c, ReasoningItems(output)[k]).Reasoned? {
      ReasoningItemsAre(output, k);
    }
  }

  lemma CallKinds(c: Codec, calls: seq<ToolCall>)
    ensures forall k :: 0 <= k < |calls| ==> ViewOf(c, CallItems(c, calls)[k]).Called?
  {
    forall k | 0 <= k < |calls| ensures ViewOf(c, CallItems(c, calls)[k]).Called? {
      assert TypeOf(CallItem(c, calls[k])) == "function_call";
    }
  }
}
