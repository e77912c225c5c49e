/** The chat-completions wire format (qcue-rs/router/src/transport_chat.rs, convert_messages). */
module ChatWire {
  import opened Common
  import opened Json
  import opened Protocol
  import opened Trace

  function RoleStr(r: Role): string {
    match r
    case System => "system"
    case User => "user"
    case Assistant => "assistant"
    case Tool => "tool"
  }

  function ChatCall(c: Codec, call: ToolCall): Json {
    Obj(map["id" := Str(call.id.GetOr("")), "type" := Str("function"),
            "function" := Obj(map["name" := Str(call.name), "arguments" := Str(Canonical(c, call.arguments))])])
  }

  function Field(key: string, v: Option<Json>): map<string, Json> { if v.Some? then map[key := v.value] else map[] }

  function StrField(v: Option<string>): Option<Json> { if v.Some? then Some(Str(v.value)) else None }

  function CallsField(c: Codec, m: Message): Option<Json> {
    if m.toolCalls.Some? then Some(Arr(Map((call: ToolCall) => ChatCall(c, call), m.toolCalls.value))) else None
  }

  /** One entry per message; reasoning, finish reason and provider data stay behind. */
  function ChatMessage(c: Codec, m: Message): Json {
    Obj(map["role" := Str(RoleStr(m.role))] + Field("content", StrField(m.content))
        + Field("tool_calls", CallsField(c, m)) + Field("tool_call_id", StrField(m.toolCallId)))
  }

  function Rendered(c: Codec, msgs: seq<Message>): seq<Json> { Map((m: Message) => ChatMessage(c, m), msgs) }

  // What the entries say to a reader of this format.

  function ReadCall(c: Codec, call: Json): Turn {
    var f := Get(call, "function").GetOr(Null);
    Called(StrAt(call, "id", ""), StrAt(f, "name", ""), ArgsOf(c, StrAt(f, "arguments", "{}")))
  }

  function ReadMessage(c: Codec, v: Json): seq<Turn> {
    var calls := Map((call: Json) => ReadCall(c, call), AsArr(Get(v, "tool_calls")).GetOr([]));
    match StrAt(v, "role", "")
    case "user" => Spoken(false, StrAt(v, "content", "")) + calls
    case "assistant" => Spoken(true, StrAt(v, "content", "")) + calls
    case "tool" => [Answered(StrAt(v, "tool_call_id", ""), StrAt(v, "content", ""))] + calls
    case _ => []
  }

  function ReadIn(c: Codec): Json -> seq<Turn> { (v: Json) => ReadMessage(c, v) }

  function ReadAll(c: Codec, vs: seq<Json>): seq<Turn> { FlatMap(ReadIn(c), vs) }

  function EchoIn(c: Codec): Message -> seq<Turn> { (m: Message) => ReadMessage(c, ChatMessage(c, m)) }

  lemma CallRead(c: Codec, call: ToolCall)
    requires Faithful(c)
    ensures ReadCall(c, ChatCall(c, call)) == CallTurn(c, call)
  {
    CanonicalKeepsMeaning(c, call.arguments);
  }

  lemma FieldsRead(c: Codec, m: Message)
    ensures var v := ChatMessage(c, m);
            StrAt(v, "role", "") == RoleStr(m.role) && StrAt(v, "content", "") == m.content.GetOr("")
            && StrAt(v, "tool_call_id", "") == m.toolCallId.GetOr("")
            && Get(v, "tool_calls") == CallsField(c, m)
  {
  }

  /** Every message says what it means, plus any calls that a message other than an assistant's carries. */
  lemma MessageRead(c: Codec, m: Message)
    requires Faithful(c)
    ensures EchoIn(c)(m) == Meaning(c, m)
            + (if m.role == Assistant || m.role == System then [] else CallTurns(c, CallsOf(m)))
  {
    FieldsRead(c, m);
    var v := ChatMessage(c, m);
    var calls := AsArr(Get(v, "tool_calls")).GetOr([]);
    forall k | 0 <= k < |calls| ensures ReadCall(c, calls[k]) == CallTurn(c, CallsOf(m)[k]) {
      CallRead(c, CallsOf(m)[k]);
    }
    assert Map((call: Json) => ReadCall(c, call), calls) == CallTurns(c, CallsOf(m));
  }

  /** Only assistants (and ignored system messages) carry calls. */
  predicate OnlyAssistantsCall(msgs: seq<Message>) {
    forall k :: 0 <= k < |msgs| && (msgs[k].role == User || msgs[k].role == Tool) ==> CallsOf(msgs[k]) == []
  }

  lemma {:induction false} ReadIsPiecewise(c: Codec, msgs: seq<Message>)
    ensures ReadAll(c, Rendered(c, msgs)) == FlatMap(EchoIn(c), msgs)
  {
    if msgs != [] {
      assert Rendered(c, msgs)[1..] == Rendered(c, msgs[1..]);
      ReadIsPiecewise(c, msgs[1..]);
    }
  }

  /** The chat rendering says what the transcript means exactly when only assistants carry calls. */
  lemma ChatSaysTheTrace(c: Codec, msgs: seq<Message>)
    requires Faithful(c)
    ensures ReadAll(c, Rendered(c, msgs)) == TraceOf(c, msgs) <==> OnlyAssistantsCall(msgs)
  {
    ReadIsPiecewise(c, msgs);
    forall m ensures |EchoIn(c)(m)| >= |MeaningIn(c)(m)| {
      MessageRead(c, m);
    }
    PiecewiseAgreement(EchoIn(c), MeaningIn(c), msgs);
    forall k | 0 <= k < |msgs|
      ensures EchoIn(c)(msgs[k]) == MeaningIn(c)(msgs[k])
              <==> (msgs[k].role == User || msgs[k].role == Tool ==> CallsOf(msgs[k]) == [])
    {
      MessageRead(c, msgs[k]);
    }
  }
}
