/** One transcript, three wire formats: when do they say the same thing? */
module WireAgreement {
  import opened Common
  import opened Json
  import opened Protocol
  import opened Trace
  import Chat = ChatWire
  import Anthropic = AnthropicWire
  import Responses = ResponsesWire

  function ReadItem(c: Codec, item: Json): seq<Turn> {
    match TypeOf(item)
    case "function_call" =>
      [Called(StrAt(item, "call_id", ""), StrAt(item, "name", ""), ArgsOf(c, StrAt(item, "arguments", "{}")))]
    case "function_call_output" => [Answered(StrAt(item, "call_id", ""), StrAt(item, "output", ""))]
    case "" => ReadSpoken(item, StrAt(item, "role", ""))
    case "message" => ReadSpoken(item, StrAt(item, "role", "assistant"))
    case _ => []
  }

  function ReadSpoken(item: Json, role: string): seq<Turn> {
    match role
    case "user" => Spoken(false, StrAt(item, "content", ""))
    case "assistant" => Spoken(true, Responses.MessageText(item))
    case _ => []
  }

  function ReadIn(c: Codec): Json -> seq<Turn> { (item: Json) => ReadItem(c, item) }

  function ReadResponses(c: Codec, items: seq<Json>): seq<Turn> { FlatMap(ReadIn(c), items) }

  /** What is stashed with an assistant's message is read as nothing, as the reasoning items are that a
      Responses answer leaves there. */
  predicate SilentStash(c: Codec, m: Message) {
    m.role == Assistant ==> ReadResponses(c, Responses.StashedReasoning(m)) == []
  }

  lemma {:induction false} ReasoningIsSilent(c: Codec, items: seq<Json>)
    requires forall k :: 0 <= k < |items| ==> TypeOf(items[k]) == "reasoning"
    ensures ReadResponses(c, items) == []
  {
    if items != [] {
      ReasoningIsSilent(c, items[1..]);
    }
  }

  lemma {:induction false} CallItemsRead(c: Codec, calls: seq<ToolCall>)
    requires Faithful(c)
    ensures ReadResponses(c, Responses.CallItems(c, calls)) == CallTurns(c, calls)
  {
    if calls != [] {
      var items := Responses.CallItems(c, calls);
      assert items[1..] == Responses.CallItems(c, calls[1..]);
      CanonicalKeepsMeaning(c, calls[0].arguments);
      assert TypeOf(items[0]) == "function_call";
      CallItemsRead(c, calls[1..]);
    }
  }

  lemma TextItemRead(c: Codec, text: string)
    requires text != ""
    ensures ReadResponses(c, [Responses.TextItem(text)]) == [AssistantSaid(text)]
  {
    Responses.TextItemView(c, text);
    assert TypeOf(Responses.TextItem(text)) == "";
    FlatMapOne(ReadIn(c), Responses.TextItem(text));
  }

  /** What the stash of a message adds to the reading. */
  function StashRead(c: Codec, m: Message): seq<Turn> {
    if m.role == Assistant then ReadResponses(c, Responses.StashedReasoning(m)) else []
  }

  lemma AssistantItemsRead(c: Codec, m: Message)
    requires Faithful(c) && m.role == Assistant
    ensures ReadResponses(c, Responses.ItemsOf(c, m)) == StashRead(c, m) + Meaning(c, m)
  {
    var r := Responses.StashedReasoning(m);
    var t := if m.content.GetOr("") != "" then [Responses.TextItem(m.content.value)] else [];
    var u := Responses.CallItems(c, CallsOf(m));
    CallItemsRead(c, CallsOf(m));
    if t != [] {
      TextItemRead(c, m.content.value);
    }
    FlatMapThree(ReadIn(c), r, t, u);
    Assoc(StashRead(c, m), Spoken(true, m.content.GetOr("")), CallTurns(c, CallsOf(m)));
  }

  lemma ItemsRead(c: Codec, m: Message)
    requires Faithful(c)
    ensures ReadResponses(c, Responses.ItemsOf(c, m)) == StashRead(c, m) + Meaning(c, m)
  {
    match m.role {
      case System =>
      case User =>
        assert TypeOf(Responses.UserItem(m.content.GetOr(""))) == "";
        FlatMapOne(ReadIn(c), Responses.UserItem(m.content.GetOr("")));
      case Assistant => AssistantItemsRead(c, m);
      case Tool => FlatMapOne(ReadIn(c), Responses.ResultItem(m.toolCallId.GetOr(""), m.content.GetOr("")));
    }
  }

  lemma SumsAgree(a: seq<Turn>, b: seq<Turn>, c: seq<Turn>, d: seq<Turn>)
    requires |c| >= |d|
    ensures a + b + c == b + d <==> a == [] && c == d
    ensures |a + b + c| >= |b + d|
  {
    if a + b + c == b + d {
      assert |a + b + c| == |b + d|;
      assert a + b == b;
      assert (a + b + c)[|b|..] == c && (b + d)[|b|..] == d;
    }
  }

  /** The Responses rendering says what the transcript means exactly if the stashes are silent. */
  lemma {:induction false} ResponsesSaysTheTrace(c: Codec, msgs: seq<Message>)
    requires Faithful(c)
    ensures ReadResponses(c, Responses.Rendered(c, msgs)) == TraceOf(c, msgs)
            <==> forall k :: 0 <= k < |msgs| ==> SilentStash(c, msgs[k])
    ensures |ReadResponses(c, Responses.Rendered(c, msgs))| >= |TraceOf(c, msgs)|
  {
    if msgs != [] {
      var rest := msgs[1..];
      ResponsesSaysTheTrace(c, rest);
      ItemsRead(c, msgs[0]);
      FlatMapAppend(ReadIn(c), Responses.ItemsOf(c, msgs[0]), Responses.Rendered(c, rest));
      SumsAgree(StashRead(c, msgs[0]), Meaning(c, msgs[0]), ReadResponses(c, Responses.Rendered(c, rest)),
                TraceOf(c, rest));
      assert forall k :: 1 <= k < |msgs| ==> msgs[k] == rest[k - 1];
      assert SilentStash(c, msgs[0]) <==> StashRead(c, msgs[0]) == [];
      assert (forall k :: 0 <= k < |msgs| ==> SilentStash(c, msgs[k]))
          <==> SilentStash(c, msgs[0]) && forall k :: 0 <= k < |rest| ==> SilentStash(c, rest[k]);
    }
  }

  /** All three formats say what the transcript means exactly when no user or assistant message is blank, only
      assistants call tools, their arguments are JSON, and the stashes are silent. With silent stashes the
      formats cannot agree on anything else. */
  lemma FormatsAgree(c: Codec, msgs: seq<Message>)
    requires Faithful(c)
    ensures var chat := Chat.ReadAll(c, Chat.Rendered(c, msgs));
            var anthropic := FlatMap(Anthropic.ReadMessage, Anthropic.Grouped(c, Anthropic.NonSystem(msgs), 0));
            var responses := ReadResponses(c, Responses.Rendered(c, msgs));
            var sound := Chat.OnlyAssistantsCall(msgs) && forall k :: 0 <= k < |msgs| ==> Anthropic.Sound(c, msgs[k]);
            var silent := forall k :: 0 <= k < |msgs| ==> SilentStash(c, msgs[k]);
            && (chat == anthropic == responses == TraceOf(c, msgs) <==> sound && silent)
            && (silent ==> (chat == anthropic == responses <==> sound))
  {
    Chat.ChatSaysTheTrace(c, msgs);
    Anthropic.AnthropicSaysTheTrace(c, msgs);
    ResponsesSaysTheTrace(c, msgs);
  }
}
