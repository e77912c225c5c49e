/** The Responses event stream (qcue-rs/llm-api/src/responses_sse.rs): typed server events become block
    events, and folding those gives the answer that the final object spells out. */
module ResponsesStream {
  import opened Common
  import opened Json
  import opened Protocol
  import opened ResponsesWire

  /** A frame whose data has been read as JSON; unreadable data is Null. */
  datatype JsonFrame = JsonFrame(event: Option<string>, data: Json)

  /** What a frame means to the parser. */
  datatype Signal =
    | Created
    | CallAdded(id: string, name: string)
    | ReasoningAdded
    | TextPartAdded
    | TextFragment(text: Option<string>)
    | TextDone
    | ArgsFragment(partial: Option<string>)
    | ItemDone
    | ReasoningFragment(text: Option<string>)
    | ReasoningDone
    | Finished(resp: Json, incomplete: bool)
    | Failed(message: string)
    | Noise

  function Kind(f: JsonFrame): string {
    if f.event.Some? && f.event.value != "" then f.event.value else TypeOf(f.data)
  }

  function SignalOf(f: JsonFrame): Signal {
    var v := f.data;
    match Kind(f)
    case "response.created" => Created
    case "response.output_item.added" =>
      var item := Get(v, "item").GetOr(Null);
      (match TypeOf(item)
       case "function_call" => CallAdded(StrAt(item, "call_id", ""), StrAt(item, "name", ""))
       case "reasoning" => ReasoningAdded
       case _ => Noise)
    case "response.content_part.added" =>
      if TypeOf(Get(v, "part").GetOr(Null)) == "output_text" then TextPartAdded else Noise
    case "response.output_text.delta" => TextFragment(AsStr(Get(v, "delta")))
    case "response.output_text.done" => TextDone
    case "response.function_call_arguments.delta" => ArgsFragment(AsStr(Get(v, "delta")))
    case "response.output_item.done" => ItemDone
    case "response.reasoning_summary_text.delta" => ReasoningFragment(AsStr(Get(v, "delta")))
    case "response.reasoning_text.delta" => ReasoningFragment(AsStr(Get(v, "delta")))
    case "response.reasoning_summary_text.done" => ReasoningDone
    case "response.completed" => Finished(Get(v, "response").GetOr(Null), false)
    case "response.incomplete" => Finished(Get(v, "response").GetOr(Null), true)
    case "response.failed" =>
      Failed(AsStr(GetIn(GetIn(Get(v, "response"), "error"), "message")).GetOr("response failed"))
    case "error" => Failed(StrAt(v, "message", "stream error"))
    case _ => Noise
  }

  // ---------------------------------------------------------------------------------------------
  // The open-block state machine
  // ---------------------------------------------------------------------------------------------

  datatype Open = Closed | InText | InThinking | InTool

  datatype State = State(started: bool, open: Open, sawCall: bool)

  const START := State(false, Closed, false)

  function CloseIf(open: bool): seq<StreamEvent> { if open then [BlockStop] else [] }

  /** Makes `want` the open block, closing another one first. */
  function Ensure(s: State, want: Open, block: Block): seq<StreamEvent> {
    if s.open == want then [] else CloseIf(s.open != Closed) + [BlockStart(block)]
  }

  function HasCall(resp: Json): bool {
    exists i :: 0 <= i < |AsArr(Get(resp, "output")).GetOr([])|
                && TypeOf(AsArr(Get(resp, "output")).GetOr([])[i]) == "function_call"
  }

  function StopReason(s: State, resp: Json, incomplete: bool): FinishReason {
    if incomplete then MapIncomplete(IncompleteReason(resp))
    else if s.sawCall || HasCall(resp) then ToolCalls
    else Stop
  }

  /** The events one signal yields. */
  function Emit(s: State, g: Signal): seq<StreamEvent> {
    match g
    case Created => if s.started then [] else [MessageStart]
    case CallAdded(id, name) => CloseIf(s.open != Closed) + [BlockStart(ToolUse(id, name))]
    case ReasoningAdded => CloseIf(s.open != Closed) + [BlockStart(ThinkingBlock)]
    case TextPartAdded => Ensure(s, InText, TextBlock)
    case TextFragment(t) =>
      Ensure(s, InText, TextBlock) + (if t.Some? then [BlockDelta(TextDelta(t.value))] else [])
    case TextDone => CloseIf(s.open == InText)
    case ArgsFragment(p) => if p.Some? then [BlockDelta(InputJsonDelta(p.value))] else []
    case ItemDone => CloseIf(s.open == InTool || s.open == InThinking)
    case ReasoningFragment(t) =>
      Ensure(s, InThinking, ThinkingBlock) + (if t.Some? then [BlockDelta(ThinkingDelta(t.value))] else [])
    case ReasoningDone => CloseIf(s.open == InThinking)
    case Finished(resp, incomplete) =>
      CloseIf(s.open != Closed)
      + [MessageDelta(Some(StopReason(s, resp, incomplete)), UsageOf(resp)), MessageStop]
    case Failed(_) => []
    case Noise => []
  }

  function Next(s: State, g: Signal): State {
    match g
    case Created => s.(started := true)
    case CallAdded(_, _) => s.(open := InTool, sawCall := true)
    case ReasoningAdded => s.(open := InThinking)
    case TextPartAdded => s.(open := InText)
    case TextFragment(_) => s.(open := InText)
    case TextDone => if s.open == InText then s.(open := Closed) else s
    case ArgsFragment(_) => s
    case ItemDone => if s.open == InTool || s.open == InThinking then s.(open := Closed) else s
    case ReasoningFragment(_) => s.(open := InThinking)
    case ReasoningDone => if s.open == InThinking then s.(open := Closed) else s
    case Finished(_, _) => s.(open := Closed)
    case Failed(_) => s
    case Noise => s
  }

  type JsonFrameItem = Result<JsonFrame, string>

  /** The error that ends the stream at this item, if it does. */
  function Fault(item: JsonFrameItem): Option<string> {
    match item
    case Err(e) => Some(e)
    case Ok(f) => if SignalOf(f).Failed? then Some(SignalOf(f).message) else None
  }

  datatype Output = Output(events: seq<StreamEvent>, error: Option<string>)

  function Parsed(frames: seq<JsonFrameItem>, s: State): Output {
    if frames == [] then Output([], None)
    else if Fault(frames[0]).Some? then Output([], Fault(frames[0]))
    else
      var g := SignalOf(frames[0].value);
      var tail := Parsed(frames[1..], Next(s, g));
      Output(Emit(s, g) + tail.events, tail.error)
  }

  /** Closes the open block unless it is `want`, and opens `want`. */
  method OpenBlock(open: Open, want: Open, block: Block) returns (out: seq<StreamEvent>)
    ensures out == Ensure(State(true, open, true), want, block)
  {
    out := [];
    if open != want {
      if open != Closed { out := out + [BlockStop]; }
      out := out + [BlockStart(block)];
    }
  }

  method TakeSignal(s: State, g: Signal) returns (out: seq<StreamEvent>, next: State)
    ensures out == Emit(s, g) && next == Next(s, g)
  {
    out := [];
    var started, open, sawCall := s.started, s.open, s.sawCall;
    match g {
      case Created =>
        if !started { out := [MessageStart]; started := true; }
      case CallAdded(id, name) =>
        if open != Closed { out := out + [BlockStop]; }
        sawCall := true;
        out := out + [BlockStart(ToolUse(id, name))];
        open := InTool;
      case ReasoningAdded =>
        if open != Closed { out := out + [BlockStop]; }
        out := out + [BlockStart(ThinkingBlock)];
        open := InThinking;
      case TextPartAdded =>
        out := OpenBlock(open, InText, TextBlock);
        open := InText;
      case TextFragment(t) =>
        out := OpenBlock(open, InText, TextBlock);
        open := InText;
        if t.Some? { out := out + [BlockDelta(TextDelta(t.value))]; }
      case TextDone =>
        if open == InText { out := [BlockStop]; open := Closed; }
      case ArgsFragment(p) =>
        if p.Some? { out := [BlockDelta(InputJsonDelta(p.value))]; }
      case ItemDone =>
        if open == InTool || open == InThinking { out := [BlockStop]; open := Closed; }
      case ReasoningFragment(t) =>
        out := OpenBlock(open, InThinking, ThinkingBlock);
        open := InThinking;
        if t.Some? { out := out + [BlockDelta(ThinkingDelta(t.value))]; }
      case ReasoningDone =>
        if open == InThinking { out := [BlockStop]; open := Closed; }
      case Finished(resp, incomplete) =>
        if open != Closed { out := [BlockStop]; open := Closed; }
        var stop := StopReason(s, resp, incomplete);
        out := out + [MessageDelta(Some(stop), UsageOf(resp)), MessageStop];
      case Failed(_) =>
      case Noise =>
    }
    next := State(started, open, sawCall);
  }

  method ParseResponsesSse(frames: seq<JsonFrameItem>) returns (events: seq<StreamEvent>, error: Option<string>)
    ensures Output(events, error) == Parsed(frames, START)
  {
    events, error := [], None;
    var s, i := START, 0;
    assert frames[0..] == frames;
    while i < |frames|
      invariant i <= |frames|
      invariant Parsed(frames, START).events == events + Parsed(frames[i..], s).events
      invariant Parsed(frames, START).error == Parsed(frames[i..], s).error
    {
      assert frames[i..][0] == frames[i] && frames[i..][1..] == frames[i + 1..];
      if Fault(frames[i]).Some? {
        return events, Fault(frames[i]);
      }
      var out, next := TakeSignal(s, SignalOf(frames[i].value));
      Assoc(events, out, Parsed(frames[i + 1..], next).events);
      events, s, i := events + out, next, i + 1;
    }
  }

  // ---------------------------------------------------------------------------------------------
  // Bracketing, for every frame sequence
  // ---------------------------------------------------------------------------------------------

  datatype BlockKind = KText | KThinking | KTool

  function KindOf(b: Block): BlockKind {
    match b
    case TextBlock => KText
    case ThinkingBlock => KThinking
    case ToolUse(_, _) => KTool
  }

  /** A reader of block events that knows nothing of the parser: at most one block is open, text and
      thinking arrive in their own kind of block, and MessageStop comes right after a MessageDelta that
      found no block open. A strict reader also wants argument fragments inside a tool block. */
  datatype Reader = Reader(strict: bool, begun: bool, open: Option<BlockKind>, ending: bool)

  function Read(r: Reader, e: StreamEvent): Option<Reader> {
    if r.ending then (if e == MessageStop then Some(r.(ending := false)) else None)
    else
      match e
      case MessageStart => if r.begun then None else Some(r.(begun := true))
      case BlockStart(b) => if r.open.Some? then None else Some(r.(open := Some(KindOf(b))))
      case BlockDelta(TextDelta(_)) => if r.open == Some(KText) then Some(r) else None
      case BlockDelta(ThinkingDelta(_)) => if r.open == Some(KThinking) then Some(r) else None
      case BlockDelta(InputJsonDelta(_)) => if r.strict && r.open != Some(KTool) then None else Some(r)
      case BlockStop => if r.open.Some? then Some(r.(open := None)) else None
      case MessageDelta(_, _) => if r.open.Some? then None else Some(r.(ending := true))
      case MessageStop => None
  }

  function ReadAll(r: Reader, es: seq<StreamEvent>): Option<Reader>
    decreases |es|
  {
    if es == [] then Some(r)
    else
      match Read(r, es[0])
      case Some(r') => ReadAll(r', es[1..])
      case None => None
  }

  lemma {:induction false} ReadAppend(r: Reader, a: seq<StreamEvent>, b: seq<StreamEvent>)
    ensures ReadAll(r, a + b) == if ReadAll(r, a).Some? then ReadAll(ReadAll(r, a).value, b) else None
    decreases |a|
  {
    if a == [] {
      assert a + b == b;
    } else {
      assert (a + b)[0] == a[0] && (a + b)[1..] == a[1..] + b;
      if Read(r, a[0]).Some? {
        ReadAppend(Read(r, a[0]).value, a[1..], b);
      }
    }
  }

  /** The reader's view of a parser state. */
  function Seen(strict: bool, s: State): Reader {
    Reader(strict, s.started,
           match s.open
           case Closed => None
           case InText => Some(KText)
           case InThinking => Some(KThinking)
           case InTool => Some(KTool),
           false)
  }

  /** An argument fragment that no tool block is open for. */
  predicate Stray(s: State, g: Signal) { g.ArgsFragment? && g.partial.Some? && s.open != InTool }

  predicate Strays(frames: seq<JsonFrameItem>, s: State) {
    frames != [] && Fault(frames[0]).None?
    && (Stray(s, SignalOf(frames[0].value)) || Strays(frames[1..], Next(s, SignalOf(frames[0].value))))
  }

  lemma ReadOne(r: Reader, e: StreamEvent)
    ensures ReadAll(r, [e]) == Read(r, e)
  {
    assert [e][1..] == [];
  }

  lemma ReadTwo(r: Reader, e: StreamEvent, e': StreamEvent)
    ensures ReadAll(r, [e, e']) == if Read(r, e).Some? then Read(Read(r, e).value, e') else None
  {
    assert [e, e'][1..] == [e'];
    if Read(r, e).Some? {
      ReadOne(Read(r, e).value, e');
    }
  }

  lemma CloseReads(strict: bool, s: State)
    ensures ReadAll(Seen(strict, s), CloseIf(s.open != Closed)) == Some(Seen(strict, s.(open := Closed)))
  {
    ReadOne(Seen(strict, s), BlockStop);
  }

  lemma OpenReads(strict: bool, s: State, want: Open, block: Block)
    requires want != Closed && Seen(strict, s.(open := want)).open == Some(KindOf(block))
    ensures ReadAll(Seen(strict, s), CloseIf(s.open != Closed) + [BlockStart(block)])
         == Some(Seen(strict, s.(open := want)))
    ensures ReadAll(Seen(strict, s), Ensure(s, want, block)) == Some(Seen(strict, s.(open := want)))
  {
    CloseReads(strict, s);
    ReadAppend(Seen(strict, s), CloseIf(s.open != Closed), [BlockStart(block)]);
    ReadOne(Seen(strict, s.(open := Closed)), BlockStart(block));
  }

  lemma FragmentReads(strict: bool, s: State, want: Open, block: Block, delta: Delta)
    requires want != Closed && Seen(strict, s.(open := want)).open == Some(KindOf(block))
    requires (want == InText && delta.TextDelta?) || (want == InThinking && delta.ThinkingDelta?)
    ensures ReadAll(Seen(strict, s), Ensure(s, want, block) + [BlockDelta(delta)])
         == Some(Seen(strict, s.(open := want)))
    ensures ReadAll(Seen(strict, s), Ensure(s, want, block) + []) == Some(Seen(strict, s.(open := want)))
  {
    OpenReads(strict, s, want, block);
    ReadAppend(Seen(strict, s), Ensure(s, want, block), [BlockDelta(delta)]);
    ReadOne(Seen(strict, s.(open := want)), BlockDelta(delta));
    assert Ensure(s, want, block) + [] == Ensure(s, want, block);
  }

  lemma EmitReads(strict: bool, s: State, g: Signal)
    ensures ReadAll(Seen(strict, s), Emit(s, g))
            == if strict && Stray(s, g) then None else Some(Seen(strict, Next(s, g)))
  {
    match g {
      case Created => ReadOne(Seen(strict, s), MessageStart);
      case CallAdded(id, name) => OpenReads(strict, s, InTool, ToolUse(id, name));
      case ReasoningAdded => OpenReads(strict, s, InThinking, ThinkingBlock);
      case TextPartAdded => OpenReads(strict, s, InText, TextBlock);
      case TextFragment(t) => FragmentReads(strict, s, InText, TextBlock, TextDelta(t.GetOr("")));
      case ArgsFragment(p) => ReadOne(Seen(strict, s), BlockDelta(InputJsonDelta(p.GetOr(""))));
      case ReasoningFragment(t) => FragmentReads(strict, s, InThinking, ThinkingBlock, ThinkingDelta(t.GetOr("")));
      case Finished(resp, incomplete) =>
        CloseReads(strict, s);
        var last := MessageDelta(Some(StopReason(s, resp, incomplete)), UsageOf(resp));
        ReadAppend(Seen(strict, s), CloseIf(s.open != Closed), [last, MessageStop]);
        ReadTwo(Seen(strict, s.(open := Closed)), last, MessageStop);
      case _ => CloseReads(strict, s);
    }
  }

  /** Whatever frames arrive, the events are well bracketed; and argument fragments stay inside tool blocks
      exactly when no fragment was received while another kind of block, or none, was open. */
  lemma {:induction false} AlwaysBracketed(strict: bool, frames: seq<JsonFrameItem>, s: State)
    ensures var end := ReadAll(Seen(strict, s), Parsed(frames, s).events);
            (end.Some? <==> !(strict && Strays(frames, s))) && (end.Some? ==> !end.value.ending)
  {
    if frames != [] && Fault(frames[0]).None? {
      var g := SignalOf(frames[0].value);
      EmitReads(strict, s, g);
      AlwaysBracketed(strict, frames[1..], Next(s, g));
      ReadAppend(Seen(strict, s), Emit(s, g), Parsed(frames[1..], Next(s, g)).events);
    }
  }

  /** It can happen: the parser does not check where an argument fragment arrives. */
  lemma ArgumentsMayStray(partial: string)
    ensures var f := JsonFrame(Some("response.function_call_arguments.delta"), Obj(map["delta" := Str(partial)]));
            Strays([Ok(f)], START) && Parsed([Ok(f)], START).events == [BlockDelta(InputJsonDelta(partial))]
  {
    var f := JsonFrame(Some("response.function_call_arguments.delta"), Obj(map["delta" := Str(partial)]));
    assert SignalOf(f) == ArgsFragment(Some(partial));
    var frames: seq<JsonFrameItem> := [Ok(f)];
    assert frames[1..] == [];
  }

  // ---------------------------------------------------------------------------------------------
  // What a consumer of the events ends up with
  // ---------------------------------------------------------------------------------------------

  datatype Call = Call(id: string, name: string, arguments: string)

  datatype Heard = Heard(text: string, calls: seq<Call>, finish: Option<FinishReason>, usage: Option<Usage>)

  const SILENCE := Heard("", [], None, None)

  function AddArguments(calls: seq<Call>, partial: string): seq<Call> {
    if calls == [] then []
    else
      var n := |calls| - 1;
      calls[n := calls[n].(arguments := calls[n].arguments + partial)]
  }

  function Hear(h: Heard, e: StreamEvent): Heard {
    match e
    case BlockStart(ToolUse(id, name)) => h.(calls := h.calls + [Call(id, name, "")])
    case BlockDelta(TextDelta(t)) => h.(text := h.text + t)
    case BlockDelta(InputJsonDelta(p)) => h.(calls := AddArguments(h.calls, p))
    case MessageDelta(stop, usage) => h.(finish := stop, usage := usage)
    case _ => h
  }

  function HearAll(h: Heard, es: seq<StreamEvent>): Heard
    decreases |es|
  {
    if es == [] then h else HearAll(Hear(h, es[0]), es[1..])
  }

  lemma {:induction false} HearAppend(h: Heard, a: seq<StreamEvent>, b: seq<StreamEvent>)
    ensures HearAll(h, a + b) == HearAll(HearAll(h, a), b)
    decreases |a|
  {
    if a == [] {
      assert a + b == b;
    } else {
      assert (a + b)[0] == a[0] && (a + b)[1..] == a[1..] + b;
      HearAppend(Hear(h, a[0]), a[1..], b);
    }
  }

  lemma HearOne(h: Heard, e: StreamEvent)
    ensures HearAll(h, [e]) == Hear(h, e)
  {
    assert [e][1..] == [];
  }

  /** The consumer's view of one signal: block boundaries other than a tool's say nothing. */
  function Gist(h: Heard, s: State, g: Signal): Heard {
    match g
    case CallAdded(id, name) => h.(calls := h.calls + [Call(id, name, "")])
    case TextFragment(t) => h.(text := h.text + t.GetOr(""))
    case ArgsFragment(p) => if p.Some? then h.(calls := AddArguments(h.calls, p.value)) else h
    case Finished(resp, incomplete) => h.(finish := Some(StopReason(s, resp, incomplete)), usage := UsageOf(resp))
    case _ => h
  }

  lemma EnsureIsSilent(h: Heard, s: State, want: Open, block: Block)
    requires !block.ToolUse?
    ensures HearAll(h, Ensure(s, want, block)) == h
    ensures HearAll(h, CloseIf(s.open != Closed) + [BlockStart(block)]) == h
  {
    CloseIsSilent(h, s.open != Closed);
    HearAppend(h, CloseIf(s.open != Closed), [BlockStart(block)]);
    HearOne(h, BlockStart(block));
  }

  lemma CloseIsSilent(h: Heard, open: bool)
    ensures HearAll(h, CloseIf(open)) == h
  {
    HearOne(h, BlockStop);
  }

  lemma FragmentHeard(h: Heard, s: State, want: Open, block: Block, delta: Delta)
    requires !block.ToolUse?
    ensures HearAll(h, Ensure(s, want, block) + [BlockDelta(delta)]) == Hear(h, BlockDelta(delta))
    ensures HearAll(h, Ensure(s, want, block) + []) == h
  {
    EnsureIsSilent(h, s, want, block);
    HearAppend(h, Ensure(s, want, block), [BlockDelta(delta)]);
    HearOne(h, BlockDelta(delta));
    assert Ensure(s, want, block) + [] == Ensure(s, want, block);
  }

  lemma EmitIsGist(h: Heard, s: State, g: Signal)
    ensures HearAll(h, Emit(s, g)) == Gist(h, s, g)
  {
    CloseIsSilent(h, true);
    match g {
      case Created => HearOne(h, MessageStart);
      case CallAdded(id, name) =>
        HearAppend(h, CloseIf(s.open != Closed), [BlockStart(ToolUse(id, name))]);
        HearOne(h, BlockStart(ToolUse(id, name)));
      case ReasoningAdded => EnsureIsSilent(h, s, InThinking, ThinkingBlock);
      case TextPartAdded => EnsureIsSilent(h, s, InText, TextBlock);
      case TextFragment(t) =>
        FragmentHeard(h, s, InText, TextBlock, TextDelta(t.GetOr("")));
        assert h.text + "" == h.text;
      case ArgsFragment(p) => HearOne(h, BlockDelta(InputJsonDelta(p.GetOr(""))));
      case ReasoningFragment(t) => FragmentHeard(h, s, InThinking, ThinkingBlock, ThinkingDelta(t.GetOr("")));
      case Finished(resp, incomplete) =>
        var last := MessageDelta(Some(StopReason(s, resp, incomplete)), UsageOf(resp));
        HearAppend(h, CloseIf(s.open != Closed), [last, MessageStop]);
        assert [last, MessageStop][1..] == [MessageStop];
        HearOne(Hear(h, last), MessageStop);
      case _ =>
    }
  }

  /** The text of all text fragments before the stream ends or fails. */
  function FragmentText(frames: seq<JsonFrameItem>): string {
    if frames == [] || Fault(frames[0]).Some? then ""
    else
      (match SignalOf(frames[0].value) case TextFragment(t) => t.GetOr("") case _ => "") + FragmentText(frames[1..])
  }

  /** No text fragment is lost, repeated or moved, whatever else arrives between them. */
  lemma {:induction false} TextIsKept(frames: seq<JsonFrameItem>, s: State, h: Heard)
    ensures HearAll(h, Parsed(frames, s).events).text == h.text + FragmentText(frames)
  {
    if frames != [] && Fault(frames[0]).None? {
      var g := SignalOf(frames[0].value);
      EmitIsGist(h, s, g);
      HearAppend(h, Emit(s, g), Parsed(frames[1..], Next(s, g)).events);
      TextIsKept(frames[1..], Next(s, g), Gist(h, s, g));
      var now := match g case TextFragment(t) => t.GetOr("") case _ => "";
      assert h.text + "" == h.text;
      Assoc(h.text, now, FragmentText(frames[1..]));
    } else {
      assert h.text + "" == h.text;
    }
  }

  // ---------------------------------------------------------------------------------------------
  // Thoughts, the start of the message, and errors
  // ---------------------------------------------------------------------------------------------

  function ThinkingPart(e: StreamEvent): string {
    if e.BlockDelta? && e.delta.ThinkingDelta? then e.delta.text else ""
  }

  function StartPart(e: StreamEvent): seq<StreamEvent> { if e.MessageStart? then [e] else [] }

  function Thought(g: Signal): string { if g.ReasoningFragment? then g.text.GetOr("") else "" }

  lemma CloseShowsNothing<T>(f: StreamEvent -> seq<T>, close: bool)
    requires f(BlockStop) == []
    ensures FlatMap(f, CloseIf(close)) == []
  {
    FlatMapOne(f, BlockStop);
  }

  /** A projection that looks past block boundaries sees what follows them. */
  lemma AfterBoundary<T>(f: StreamEvent -> seq<T>, close: bool, start: seq<StreamEvent>, rest: seq<StreamEvent>)
    requires f(BlockStop) == [] && FlatMap(f, start) == []
    ensures FlatMap(f, CloseIf(close) + start) == []
    ensures FlatMap(f, CloseIf(close) + start + rest) == FlatMap(f, rest)
  {
    CloseShowsNothing(f, close);
    FlatMapAppend(f, CloseIf(close), start);
    FlatMapAppend(f, CloseIf(close) + start, rest);
  }

  lemma EnsureShowsNothing<T>(f: StreamEvent -> seq<T>, s: State, want: Open, block: Block, rest: seq<StreamEvent>)
    requires f(BlockStop) == [] && f(BlockStart(block)) == []
    ensures FlatMap(f, Ensure(s, want, block)) == []
    ensures FlatMap(f, Ensure(s, want, block) + rest) == FlatMap(f, rest)
  {
    FlatMapOne(f, BlockStart(block));
    AfterBoundary(f, s.open != Closed, [BlockStart(block)], rest);
    if s.open == want {
      assert [] + rest == rest;
    }
  }

  lemma EndingShowsNothing<T>(f: StreamEvent -> seq<T>, close: bool, last: StreamEvent)
    requires f(BlockStop) == [] && f(last) == [] && f(MessageStop) == []
    ensures FlatMap(f, CloseIf(close) + [last, MessageStop]) == []
  {
    FlatMapOne(f, MessageStop);
    FlatMapCons(f, last, [MessageStop]);
    AfterBoundary(f, close, [last, MessageStop], []);
    assert [last] + [MessageStop] == [last, MessageStop];
  }

  lemma EmitThinks(s: State, g: Signal)
    ensures FlatMap(ThinkingPart, Emit(s, g)) == Thought(g)
  {
    match g {
      case Created => FlatMapOne(ThinkingPart, MessageStart);
      case CallAdded(id, name) =>
        FlatMapOne(ThinkingPart, BlockStart(ToolUse(id, name)));
        AfterBoundary(ThinkingPart, s.open != Closed, [BlockStart(ToolUse(id, name))], []);
      case ReasoningAdded =>
        FlatMapOne(ThinkingPart, BlockStart(ThinkingBlock));
        AfterBoundary(ThinkingPart, s.open != Closed, [BlockStart(ThinkingBlock)], []);
      case TextPartAdded => EnsureShowsNothing(ThinkingPart, s, InText, TextBlock, []);
      case TextFragment(t) =>
        var rest := if t.Some? then [BlockDelta(TextDelta(t.value))] else [];
        FlatMapOne(ThinkingPart, BlockDelta(TextDelta(t.GetOr(""))));
        EnsureShowsNothing(ThinkingPart, s, InText, TextBlock, rest);
      case ArgsFragment(p) => FlatMapOne(ThinkingPart, BlockDelta(InputJsonDelta(p.GetOr(""))));
      case ReasoningFragment(t) =>
        var rest := if t.Some? then [BlockDelta(ThinkingDelta(t.value))] else [];
        FlatMapOne(ThinkingPart, BlockDelta(ThinkingDelta(t.GetOr(""))));
        EnsureShowsNothing(ThinkingPart, s, InThinking, ThinkingBlock, rest);
      case Finished(resp, incomplete) =>
        EndingShowsNothing(ThinkingPart, s.open != Closed,
                           MessageDelta(Some(StopReason(s, resp, incomplete)), UsageOf(resp)));
      case _ => CloseShowsNothing(ThinkingPart, true);
    }
  }

  lemma EmitStarts(s: State, g: Signal)
    ensures FlatMap(StartPart, Emit(s, g)) == if g.Created? && !s.started then [MessageStart] else []
  {
    match g {
      case Created => FlatMapOne(StartPart, MessageStart);
      case CallAdded(id, name) =>
        FlatMapOne(StartPart, BlockStart(ToolUse(id, name)));
        AfterBoundary(StartPart, s.open != Closed, [BlockStart(ToolUse(id, name))], []);
      case ReasoningAdded =>
        FlatMapOne(StartPart, BlockStart(ThinkingBlock));
        AfterBoundary(StartPart, s.open != Closed, [BlockStart(ThinkingBlock)], []);
      case TextPartAdded => EnsureShowsNothing(StartPart, s, InText, TextBlock, []);
      case TextFragment(t) =>
        var rest := if t.Some? then [BlockDelta(TextDelta(t.value))] else [];
        FlatMapOne(StartPart, BlockDelta(TextDelta(t.GetOr(""))));
        EnsureShowsNothing(StartPart, s, InText, TextBlock, rest);
      case ArgsFragment(p) => FlatMapOne(StartPart, BlockDelta(InputJsonDelta(p.GetOr(""))));
      case ReasoningFragment(t) =>
        var rest := if t.Some? then [BlockDelta(ThinkingDelta(t.value))] else [];
        FlatMapOne(StartPart, BlockDelta(ThinkingDelta(t.GetOr(""))));
        EnsureShowsNothing(StartPart, s, InThinking, ThinkingBlock, rest);
      case Finished(resp, incomplete) =>
        EndingShowsNothing(StartPart, s.open != Closed,
                           MessageDelta(Some(StopReason(s, resp, incomplete)), UsageOf(resp)));
      case _ => CloseShowsNothing(StartPart, true);
    }
  }

  /** What the frames before the first fault say. */
  function Before(frames: seq<JsonFrameItem>): seq<Signal> {
    if frames == [] || Fault(frames[0]).Some? then [] else [SignalOf(frames[0].value)] + Before(frames[1..])
  }

  lemma OneFrame<T>(f: StreamEvent -> seq<T>, frames: seq<JsonFrameItem>, s: State, g: Signal)
    requires frames != [] && Fault(frames[0]).None? && g == SignalOf(frames[0].value)
    ensures FlatMap(f, Parsed(frames, s).events)
         == FlatMap(f, Emit(s, g)) + FlatMap(f, Parsed(frames[1..], Next(s, g)).events)
  {
    FlatMapAppend(f, Emit(s, g), Parsed(frames[1..], Next(s, g)).events);
  }

  /** The reasoning comes out as it was sent, whatever else arrives between its fragments. */
  lemma {:induction false} ThoughtsAreKept(frames: seq<JsonFrameItem>, s: State)
    ensures FlatMap(ThinkingPart, Parsed(frames, s).events) == FlatMap(Thought, Before(frames))
  {
    if frames != [] && Fault(frames[0]).None? {
      var g := SignalOf(frames[0].value);
      ThoughtsAreKept(frames[1..], Next(s, g));
      OneFrame(ThinkingPart, frames, s, g);
      EmitThinks(s, g);
      FlatMapCons(Thought, g, Before(frames[1..]));
    }
  }

  lemma StartedBy(s: State, g: Signal)
    ensures Next(s, g).started <==> s.started || g == Created
  {
  }

  /** The message starts once, if the stream says that it does. */
  lemma {:induction false} StartsOnce(frames: seq<JsonFrameItem>, s: State)
    ensures FlatMap(StartPart, Parsed(frames, s).events)
         == if !s.started && Created in Before(frames) then [MessageStart] else []
  {
    if frames != [] && Fault(frames[0]).None? {
      var g := SignalOf(frames[0].value);
      StartsOnce(frames[1..], Next(s, g));
      OneFrame(StartPart, frames, s, g);
      EmitStarts(s, g);
      StartedBy(s, g);
    }
  }

  /** A stream fails exactly if some frame is in error or says that it failed, with the first such message. */
  lemma {:induction false} FailsWithTheFirstFault(frames: seq<JsonFrameItem>, s: State, k: nat)
    ensures Parsed(frames, s).error.None? <==> forall i :: 0 <= i < |frames| ==> Fault(frames[i]).None?
    ensures k < |frames| && Fault(frames[k]).Some? && (forall i :: 0 <= i < k ==> Fault(frames[i]).None?) ==>
              Parsed(frames, s).error == Fault(frames[k])
  {
    if frames != [] && Fault(frames[0]).None? {
      FailsWithTheFirstFault(frames[1..], Next(s, SignalOf(frames[0].value)), if k > 0 then k - 1 else 0);
      assert forall i :: 1 <= i < |frames| ==> frames[i] == frames[1..][i - 1];
      assert forall i :: 0 <= i < |frames| - 1 ==> frames[1..][i] == frames[i + 1];
    }
  }

  // ---------------------------------------------------------------------------------------------
  // The stream and the final object tell the same story
  // ---------------------------------------------------------------------------------------------

  function NextAll(s: State, gs: seq<Signal>): State
    decreases |gs|
  {
    if gs == [] then s else NextAll(Next(s, gs[0]), gs[1..])
  }

  function GistAll(h: Heard, s: State, gs: seq<Signal>): Heard
    decreases |gs|
  {
    if gs == [] then h else GistAll(Gist(h, s, gs[0]), Next(s, gs[0]), gs[1..])
  }

  lemma {:induction false} GistAppend(h: Heard, s: State, a: seq<Signal>, b: seq<Signal>)
    ensures GistAll(h, s, a + b) == GistAll(GistAll(h, s, a), NextAll(s, a), b)
    ensures NextAll(s, a + b) == NextAll(NextAll(s, a), b)
    decreases |a|
  {
    if a == [] {
      assert a + b == b;
    } else {
      assert (a + b)[0] == a[0] && (a + b)[1..] == a[1..] + b;
      GistAppend(Gist(h, s, a[0]), Next(s, a[0]), a[1..], b);
    }
  }

  lemma GistOne(h: Heard, s: State, g: Signal)
    ensures GistAll(h, s, [g]) == Gist(h, s, g) && NextAll(s, [g]) == Next(s, g)
  {
    assert [g][1..] == [];
  }

  function Received(frames: seq<JsonFrame>): seq<JsonFrameItem> { Map((f: JsonFrame) => Ok(f), frames) }

  /** Signals that say nothing to a consumer are dropped. */
  function Audible(frames: seq<JsonFrame>): seq<Signal> {
    if frames == [] then []
    else
      var g := SignalOf(frames[0]);
      (if g == Noise || g == Created then [] else [g]) + Audible(frames[1..])
  }

  predicate Unfailing(frames: seq<JsonFrame>) { forall k :: 0 <= k < |frames| ==> !SignalOf(frames[k]).Failed? }

  lemma {:induction false} StreamIsSignals(h: Heard, s: State, frames: seq<JsonFrame>)
    requires Unfailing(frames)
    ensures HearAll(h, Parsed(Received(frames), s).events) == GistAll(h, s, Map(SignalOf, frames))
    ensures Parsed(Received(frames), s).error == None
    decreases |frames|
  {
    if frames != [] {
      var g := SignalOf(frames[0]);
      assert Received(frames)[1..] == Received(frames[1..]);
      assert Map(SignalOf, frames)[1..] == Map(SignalOf, frames[1..]);
      StreamIsSignals(Gist(h, s, g), Next(s, g), frames[1..]);
      EmitIsGist(h, s, g);
      HearAppend(h, Emit(s, g), Parsed(Received(frames[1..]), Next(s, g)).events);
    }
  }

  lemma {:induction false} StartedIsUnheard(h: Heard, s: State, gs: seq<Signal>)
    ensures GistAll(h, s, gs) == GistAll(h, s.(started := true), gs)
    decreases |gs|
  {
    if gs != [] {
      StartedIsUnheard(Gist(h, s, gs[0]), Next(s, gs[0]), gs[1..]);
      assert Next(s.(started := true), gs[0]) == Next(s, gs[0]).(started := true);
    }
  }

  lemma {:induction false} NoiseIsUnheard(h: Heard, s: State, frames: seq<JsonFrame>)
    ensures GistAll(h, s, Map(SignalOf, frames)) == GistAll(h, s, Audible(frames))
    decreases |frames|
  {
    if frames != [] {
      var g, tail := SignalOf(frames[0]), Audible(frames[1..]);
      assert Map(SignalOf, frames)[1..] == Map(SignalOf, frames[1..]);
      NoiseIsUnheard(Gist(h, s, g), Next(s, g), frames[1..]);
      if g == Noise || g == Created {
        assert Audible(frames) == tail;
        StartedIsUnheard(h, s, tail);
      } else {
        assert Audible(frames)[1..] == tail;
      }
    }
  }

  lemma {:induction false} InaudibleFailure(frames: seq<JsonFrame>)
    requires forall k :: 0 <= k < |Audible(frames)| ==> !Audible(frames)[k].Failed?
    ensures Unfailing(frames)
  {
    if frames != [] {
      var g, all, tail := SignalOf(frames[0]), Audible(frames), Audible(frames[1..]);
      var skip := if g == Noise || g == Created then 0 else 1;
      assert all[skip..] == tail;
      assert skip == 1 ==> all[0] == g;
      forall k | 0 <= k < |tail| ensures !tail[k].Failed? {
        assert tail[k] == all[k + skip];
      }
      InaudibleFailure(frames[1..]);
      forall k | 0 <= k < |frames| ensures !SignalOf(frames[k]).Failed? {
        assert k > 0 ==> frames[k] == frames[1..][k - 1];
      }
    }
  }

  function Concat(fragments: seq<string>): string {
    if fragments == [] then "" else fragments[0] + Concat(fragments[1..])
  }

  /** One text part: announced or not, any fragments, closed or not. */
  datatype Part = Part(announced: bool, fragments: seq<string>, closed: bool)

  /** How a stream may spell out one output item; of one of another kind only the end may be heard. */
  datatype Spelling =
    | MessageSpelt(parts: seq<Part>, done: bool)
    | ReasoningSpelt(announced: bool, fragments: seq<string>, closed: bool, done: bool)
    | CallSpelt(id: string, name: string, fragments: seq<string>, done: bool)
    | Unspelt(done: bool)

  function Maybe(b: bool, g: Signal): seq<Signal> { if b then [g] else [] }

  function PartSignals(p: Part): seq<Signal> {
    Maybe(p.announced, TextPartAdded) + Map((t: string) => TextFragment(Some(t)), p.fragments)
    + Maybe(p.closed, TextDone)
  }

  function SpeltSignals(sp: Spelling): seq<Signal> {
    match sp
    case MessageSpelt(parts, done) => FlatMap(PartSignals, parts) + Maybe(done, ItemDone)
    case ReasoningSpelt(announced, fragments, closed, done) =>
      Maybe(announced, ReasoningAdded) + Map((t: string) => ReasoningFragment(Some(t)), fragments)
      + Maybe(closed, ReasoningDone) + Maybe(done, ItemDone)
    case CallSpelt(id, name, fragments, done) =>
      [CallAdded(id, name)] + Map((t: string) => ArgsFragment(Some(t)), fragments) + Maybe(done, ItemDone)
    case Unspelt(done) => Maybe(done, ItemDone)
  }

  function SpeltText(sp: Spelling): string {
    if sp.MessageSpelt? then FlatMap((p: Part) => Concat(p.fragments), sp.parts) else ""
  }

  function SpeltCalls(sp: Spelling): seq<Call> {
    if sp.CallSpelt? then [Call(sp.id, sp.name, Concat(sp.fragments))] else []
  }

  /** The spelling carries exactly what the finished item says. */
  ghost predicate Spells(sp: Spelling, item: Json) {
    match sp
    case MessageSpelt(_, _) => TypeOf(item) == "message" && MessageText(item) == SpeltText(sp)
    case ReasoningSpelt(_, _, _, _) => TypeOf(item) == "reasoning"
    case CallSpelt(id, name, fragments, _) =>
      TypeOf(item) == "function_call" && Get(item, "call_id") == Some(Str(id)) && Get(item, "name") == Some(Str(name))
      && Get(item, "arguments") == Some(Str(Concat(fragments)))
    case Unspelt(_) => TypeOf(item) !in ["message", "reasoning", "function_call"]
  }

  lemma {:induction false} TextFragmentsHeard(h: Heard, s: State, ts: seq<string>)
    ensures GistAll(h, s, Map((t: string) => TextFragment(Some(t)), ts)) == h.(text := h.text + Concat(ts))
    ensures NextAll(s, Map((t: string) => TextFragment(Some(t)), ts)).sawCall == s.sawCall
    decreases |ts|
  {
    var gs := Map((t: string) => TextFragment(Some(t)), ts);
    if ts == [] {
      assert h.text + "" == h.text;
    } else {
      assert gs[1..] == Map((t: string) => TextFragment(Some(t)), ts[1..]);
      TextFragmentsHeard(Gist(h, s, gs[0]), Next(s, gs[0]), ts[1..]);
      Assoc(h.text, ts[0], Concat(ts[1..]));
    }
  }

  lemma {:induction false} ReasoningFragmentsUnheard(h: Heard, s: State, ts: seq<string>)
    ensures GistAll(h, s, Map((t: string) => ReasoningFragment(Some(t)), ts)) == h
    ensures NextAll(s, Map((t: string) => ReasoningFragment(Some(t)), ts)).sawCall == s.sawCall
    decreases |ts|
  {
    var gs := Map((t: string) => ReasoningFragment(Some(t)), ts);
    if ts != [] {
      assert gs[1..] == Map((t: string) => ReasoningFragment(Some(t)), ts[1..]);
      ReasoningFragmentsUnheard(h, Next(s, gs[0]), ts[1..]);
    }
  }

  lemma {:induction false} ArgsFragmentsHeard(h: Heard, s: State, ts: seq<string>)
    requires h.calls != []
    ensures GistAll(h, s, Map((t: string) => ArgsFragment(Some(t)), ts))
            == h.(calls := AddArguments(h.calls, Concat(ts)))
    ensures NextAll(s, Map((t: string) => ArgsFragment(Some(t)), ts)) == s
    decreases |ts|
  {
    var gs, n := Map((t: string) => ArgsFragment(Some(t)), ts), |h.calls| - 1;
    if ts == [] {
      assert h.calls[n].arguments + "" == h.calls[n].arguments;
      assert AddArguments(h.calls, "") == h.calls;
    } else {
      assert gs[1..] == Map((t: string) => ArgsFragment(Some(t)), ts[1..]);
      ArgsFragmentsHeard(Gist(h, s, gs[0]), s, ts[1..]);
      Assoc(h.calls[n].arguments, ts[0], Concat(ts[1..]));
      assert AddArguments(AddArguments(h.calls, ts[0]), Concat(ts[1..])) == AddArguments(h.calls, Concat(ts));
    }
  }

  /** A boundary signal is neither text nor call. */
  lemma BoundaryUnheard(h: Heard, s: State, b: bool, g: Signal)
    requires g in [TextPartAdded, TextDone, ItemDone, ReasoningAdded, ReasoningDone]
    ensures GistAll(h, s, Maybe(b, g)) == h && NextAll(s, Maybe(b, g)).sawCall == s.sawCall
  {
    GistOne(h, s, g);
  }

  lemma PartHeard(h: Heard, s: State, p: Part)
    ensures GistAll(h, s, PartSignals(p)) == h.(text := h.text + Concat(p.fragments))
    ensures NextAll(s, PartSignals(p)).sawCall == s.sawCall
  {
    var a, z := Maybe(p.announced, TextPartAdded), Maybe(p.closed, TextDone);
    var gs := Map((t: string) => TextFragment(Some(t)), p.fragments);
    GistAppend(h, s, a + gs, z);
    GistAppend(h, s, a, gs);
    BoundaryUnheard(h, s, p.announced, TextPartAdded);
    TextFragmentsHeard(h, NextAll(s, a), p.fragments);
    BoundaryUnheard(h.(text := h.text + Concat(p.fragments)), NextAll(s, a + gs), p.closed, TextDone);
  }

  lemma {:induction false} PartsHeard(h: Heard, s: State, parts: seq<Part>)
    ensures GistAll(h, s, FlatMap(PartSignals, parts))
            == h.(text := h.text + FlatMap((p: Part) => Concat(p.fragments), parts))
    ensures NextAll(s, FlatMap(PartSignals, parts)).sawCall == s.sawCall
    decreases |parts|
  {
    if parts == [] {
      assert h.text + "" == h.text;
    } else {
      var head, tail := PartSignals(parts[0]), FlatMap(PartSignals, parts[1..]);
      PartHeard(h, s, parts[0]);
      GistAppend(h, s, head, tail);
      PartsHeard(GistAll(h, s, head), NextAll(s, head), parts[1..]);
      Assoc(h.text, Concat(parts[0].fragments), FlatMap((p: Part) => Concat(p.fragments), parts[1..]));
    }
  }

  lemma CallHeard(h: Heard, s: State, id: string, name: string, ts: seq<string>, done: bool)
    ensures GistAll(h, s, SpeltSignals(CallSpelt(id, name, ts, done)))
            == h.(calls := h.calls + [Call(id, name, Concat(ts))])
    ensures NextAll(s, SpeltSignals(CallSpelt(id, name, ts, done))).sawCall
  {
    var a, gs, z := [CallAdded(id, name)], Map((t: string) => ArgsFragment(Some(t)), ts), Maybe(done, ItemDone);
    var h1, s1 := Gist(h, s, a[0]), Next(s, a[0]);
    GistAppend(h, s, a + gs, z);
    GistAppend(h, s, a, gs);
    GistOne(h, s, a[0]);
    ArgsFragmentsHeard(h1, s1, ts);
    BoundaryUnheard(GistAll(h1, s1, gs), s1, done, ItemDone);
    assert "" + Concat(ts) == Concat(ts);
    assert AddArguments(h1.calls, Concat(ts)) == h.calls + [Call(id, name, Concat(ts))];
  }

  lemma ReasoningHeard(h: Heard, s: State, sp: Spelling)
    requires sp.ReasoningSpelt?
    ensures GistAll(h, s, SpeltSignals(sp)) == h && NextAll(s, SpeltSignals(sp)).sawCall == s.sawCall
  {
    var a, gs := Maybe(sp.announced, ReasoningAdded), Map((t: string) => ReasoningFragment(Some(t)), sp.fragments);
    var y, z := Maybe(sp.closed, ReasoningDone), Maybe(sp.done, ItemDone);
    GistAppend(h, s, a + gs + y, z);
    GistAppend(h, s, a + gs, y);
    GistAppend(h, s, a, gs);
    BoundaryUnheard(h, s, sp.announced, ReasoningAdded);
    ReasoningFragmentsUnheard(h, NextAll(s, a), sp.fragments);
    BoundaryUnheard(h, NextAll(s, a + gs), sp.closed, ReasoningDone);
    BoundaryUnheard(h, NextAll(s, a + gs + y), sp.done, ItemDone);
  }

  lemma SpellingHeard(h: Heard, s: State, sp: Spelling)
    ensures GistAll(h, s, SpeltSignals(sp)) == h.(text := h.text + SpeltText(sp), calls := h.calls + SpeltCalls(sp))
    ensures NextAll(s, SpeltSignals(sp)).sawCall == (s.sawCall || sp.CallSpelt?)
  {
    assert h.text + "" == h.text && h.calls + [] == h.calls;
    match sp {
      case MessageSpelt(parts, done) =>
        var gs := FlatMap(PartSignals, parts);
        PartsHeard(h, s, parts);
        GistAppend(h, s, gs, Maybe(done, ItemDone));
        BoundaryUnheard(GistAll(h, s, gs), NextAll(s, gs), done, ItemDone);
      case ReasoningSpelt(_, _, _, _) => ReasoningHeard(h, s, sp);
      case CallSpelt(id, name, ts, done) => CallHeard(h, s, id, name, ts, done);
      case Unspelt(done) => BoundaryUnheard(h, s, done, ItemDone);
    }
  }

  function ReadCall(c: ToolCall): Call { Call(c.id.GetOr(""), c.name, c.arguments) }

  /** One item more in front of what the rest adds. */
  lemma ItemAdds(h: Heard, item: Json, rest: seq<Json>)
    ensures h.(text := h.text + ItemText(item) + OutputText(rest),
               calls := h.calls + Map(ReadCall, ItemCall(item)) + Map(ReadCall, OutputCalls(rest)))
         == h.(text := h.text + (ItemText(item) + OutputText(rest)),
               calls := h.calls + Map(ReadCall, ItemCall(item) + OutputCalls(rest)))
  {
    var calls, more := ItemCall(item), OutputCalls(rest);
    assert Map(ReadCall, calls + more) == Map(ReadCall, calls) + Map(ReadCall, more);
    Assoc(h.text, ItemText(item), OutputText(rest));
    Assoc(h.calls, Map(ReadCall, calls), Map(ReadCall, more));
  }

  /** The items spelt out one after the other are heard as the answer's text and calls. */
  lemma {:induction false} SpellingsHeard(h: Heard, s: State, sps: seq<Spelling>, output: seq<Json>)
    requires |sps| == |output| && forall k :: 0 <= k < |sps| ==> Spells(sps[k], output[k])
    ensures GistAll(h, s, FlatMap(SpeltSignals, sps))
            == h.(text := h.text + OutputText(output), calls := h.calls + Map(ReadCall, OutputCalls(output)))
    ensures NextAll(s, FlatMap(SpeltSignals, sps)).sawCall == (s.sawCall || OutputCalls(output) != [])
    decreases |sps|
  {
    if sps == [] {
      assert h.text + "" == h.text && h.calls + [] == h.calls;
    } else {
      var head, tail := SpeltSignals(sps[0]), FlatMap(SpeltSignals, sps[1..]);
      SpellingHeard(h, s, sps[0]);
      ItemHeard(sps[0], output[0]);
      GistAppend(h, s, head, tail);
      SpellingsHeard(GistAll(h, s, head), NextAll(s, head), sps[1..], output[1..]);
      ItemAdds(h, output[0], output[1..]);
    }
  }

  lemma ItemHeard(sp: Spelling, item: Json)
    requires Spells(sp, item)
    ensures SpeltText(sp) == ItemText(item) && SpeltCalls(sp) == Map(ReadCall, ItemCall(item))
    ensures sp.CallSpelt? <==> ItemCall(item) != []
  {
  }

  lemma {:induction false} CallsAreSeen(output: seq<Json>)
    ensures OutputCalls(output) != [] <==> exists i :: 0 <= i < |output| && TypeOf(output[i]) == "function_call"
  {
    if output != [] {
      CallsAreSeen(output[1..]);
      if TypeOf(output[0]) != "function_call" {
        assert forall i :: 0 <= i < |output[1..]| ==> output[1..][i] == output[i + 1];
        assert forall i :: 1 <= i < |output| ==> output[i] == output[1..][i - 1];
      }
    }
  }

  /** Folding the stream of a finished answer gives what reading the final object gives: the same text, the
      same calls in the same order, the same usage; and the same finish reason, except exactly when the
      answer is incomplete and yet carries calls. */
  lemma StreamAgreesWithObject(frames: seq<JsonFrame>, sps: seq<Spelling>, output: seq<Json>, resp: Json,
                               incomplete: bool)
    requires Get(resp, "output") == Some(Arr(output)) && |sps| == |output|
    requires forall k :: 0 <= k < |sps| ==> Spells(sps[k], output[k])
    requires Audible(frames) == FlatMap(SpeltSignals, sps) + [Finished(resp, incomplete)]
    requires incomplete <==> StrAt(resp, "status", "completed") == "incomplete"
    ensures Normalized(resp).Ok? && Parsed(Received(frames), START).error == None
    ensures var heard, answer := HearAll(SILENCE, Parsed(Received(frames), START).events), Normalized(resp).value;
            heard.text == answer.content.GetOr("")
            && heard.calls == Map(ReadCall, answer.toolCalls.GetOr([]))
            && heard.usage == answer.usage
            && (heard.finish == Some(answer.finish) <==> !(incomplete && OutputCalls(output) != []))
  {
    SpeltStreamHeard(frames, sps, output, resp, incomplete);
    SpeltAnswerHeard(sps, output, resp, incomplete);
    CallsAreSeen(output);
  }

  lemma SpeltStreamHeard(frames: seq<JsonFrame>, sps: seq<Spelling>, output: seq<Json>, resp: Json, incomplete: bool)
    requires |sps| == |output| && forall k :: 0 <= k < |sps| ==> Spells(sps[k], output[k])
    requires Audible(frames) == FlatMap(SpeltSignals, sps) + [Finished(resp, incomplete)]
    ensures Parsed(Received(frames), START).error == None
    ensures HearAll(SILENCE, Parsed(Received(frames), START).events)
            == GistAll(SILENCE, START, FlatMap(SpeltSignals, sps) + [Finished(resp, incomplete)])
  {
    SpeltNeverFails(sps);
    InaudibleFailure(frames);
    StreamIsSignals(SILENCE, START, frames);
    NoiseIsUnheard(SILENCE, START, frames);
  }

  lemma SpeltAnswerHeard(sps: seq<Spelling>, output: seq<Json>, resp: Json, incomplete: bool)
    requires |sps| == |output| && forall k :: 0 <= k < |sps| ==> Spells(sps[k], output[k])
    ensures GistAll(SILENCE, START, FlatMap(SpeltSignals, sps) + [Finished(resp, incomplete)])
            == Heard(OutputText(output), Map(ReadCall, OutputCalls(output)),
                     Some(StopReason(State(true, Closed, OutputCalls(output) != []), resp, incomplete)), UsageOf(resp))
  {
    SpellingsHeard(SILENCE, START, sps, output);
    var text, calls := OutputText(output), Map(ReadCall, OutputCalls(output));
    assert "" + text == text && [] + calls == calls;
    FinishHeard(FlatMap(SpeltSignals, sps), Heard(text, calls, None, None), resp, incomplete);
  }

  lemma FinishHeard(gs: seq<Signal>, h: Heard, resp: Json, incomplete: bool)
    requires GistAll(SILENCE, START, gs) == h
    ensures GistAll(SILENCE, START, gs + [Finished(resp, incomplete)])
            == h.(finish := Some(StopReason(NextAll(START, gs), resp, incomplete)), usage := UsageOf(resp))
  {
    GistAppend(SILENCE, START, gs, [Finished(resp, incomplete)]);
    GistOne(h, NextAll(START, gs), Finished(resp, incomplete));
  }

  lemma {:induction false} SpeltNeverFails(sps: seq<Spelling>)
    ensures forall k :: 0 <= k < |FlatMap(SpeltSignals, sps)| ==> !FlatMap(SpeltSignals, sps)[k].Failed?
  {
    if sps != [] {
      SpeltNeverFails(sps[1..]);
      if sps[0].MessageSpelt? {
        PartsNeverFail(sps[0].parts);
      }
    }
  }

  lemma {:induction false} PartsNeverFail(parts: seq<Part>)
    ensures forall k :: 0 <= k < |FlatMap(PartSignals, parts)| ==> !FlatMap(PartSignals, parts)[k].Failed?
  {
    if parts != [] {
      PartsNeverFail(parts[1..]);
    }
  }
}
