/** The transcript, answer and stream types every provider is mapped to (qcue-rs/protocol/src). */
module Protocol {
  import opened Common
  import opened Json

  datatype Role = System | User | Assistant | Tool

  datatype ToolCall = ToolCall(id: Option<string>, name: string, arguments: string)

  datatype FinishReason = Stop | ToolCalls | Length | ContentFilter

  datatype Usage = Usage(input: nat, output: nat, cacheRead: nat, cacheWrite: nat, reasoning: nat)

  datatype Message = Message(
    role: Role,
    content: Option<string>,
    toolCallId: Option<string>,
    toolName: Option<string>,
    toolCalls: Option<seq<ToolCall>>,
    finishReason: Option<FinishReason>,
    reasoning: Option<string>,
    providerData: Option<Json>,
    isUntrusted: bool)

  datatype Answer = Answer(
    content: Option<string>,
    toolCalls: Option<seq<ToolCall>>,
    finish: FinishReason,
    reasoning: Option<string>,
    usage: Option<Usage>,
    providerData: Option<Json>)

  datatype Block = TextBlock | ThinkingBlock | ToolUse(id: string, name: string)

  datatype Delta = TextDelta(text: string) | ThinkingDelta(text: string) | InputJsonDelta(partial: string)

  datatype StreamEvent =
    | MessageStart
    | BlockStart(block: Block)
    | BlockDelta(delta: Delta)
    | BlockStop
    | MessageDelta(stop: Option<FinishReason>, usage: Option<Usage>)
    | MessageStop

  /** The calls a message carries, an absent list counting as none. */
  function CallsOf(m: Message): seq<ToolCall> { m.toolCalls.GetOr([]) }

  /** The transcript entry for a provider's answer (qcue-rs/router/src/turn.rs, build_assistant_message). */
  function AssistantMessage(a: Answer): Message {
    Message(Assistant, a.content, None, None, a.toolCalls, Some(a.finish), a.reasoning, a.providerData, false)
  }

  // Token accounting (qcue-rs/llm-api/src/usage_norm.rs).

  function U64At(v: Json, keys: seq<string>): nat {
    if keys == [] then 0
    else
      match AsU64(Get(v, keys[0]))
      case Some(n) => n
      case None => U64At(v, keys[1..])
  }

  function NonZeroIn(v: Json, key: string): Option<nat> {
    match Get(v, key)
    case Some(d) => if U64At(d, ["reasoning_tokens"]) > 0 then Some(U64At(d, ["reasoning_tokens"])) else None
    case None => None
  }

  function UsageFromChat(v: Json): Option<Usage> {
    if !v.Obj? then None
    else
      var cached := match Get(v, "prompt_tokens_details")
        case Some(d) => U64At(d, ["cached_tokens"])
        case None =>
          match Get(v, "input_tokens_details")
          case Some(d) => U64At(d, ["cached_tokens"])
          case None => U64At(v, ["cached_tokens"]);
      var reasoning := match NonZeroIn(v, "completion_tokens_details")
        case Some(n) => n
        case None => NonZeroIn(v, "output_tokens_details").GetOr(U64At(v, ["reasoning_tokens"]));
      Some(Usage(U64At(v, ["prompt_tokens", "input_tokens"]), U64At(v, ["completion_tokens", "output_tokens"]),
                 cached, 0, reasoning))
  }
}
