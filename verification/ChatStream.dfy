/** The chat-completions event stream (qcue-rs/llm-api/src/chat_sse.rs): content becomes block events as it
    arrives, tool-call fragments are gathered by index and flushed once the stream has ended. */
module ChatStream {
  import opened Common
  import opened Json
  import opened Protocol
  import R = ResponsesStream
  import Text

  // ---------------------------------------------------------------------------------------------
  // What a frame says
  // ---------------------------------------------------------------------------------------------

  datatype Fragment = Fragment(index: nat, id: Option<string>, name: Option<string>, args: Option<string>)

  /** One thing to act on: a stretch of reasoning, a stretch of text, or a tool-call fragment. */
  datatype Atom = Think(t: string) | Say(t: string) | Piece(f: Fragment)

  function FragmentOf(tc: Json): Fragment {
    var call := Get(tc, "function");
    Fragment(AsU64(Get(tc, "index")).GetOr(0), AsStr(Get(tc, "id")), AsStr(GetIn(call, "name")),
             AsStr(GetIn(call, "arguments")))
  }

  function ChoiceOf(v: Json): Option<Json> {
    var choices := AsArr(Get(v, "choices")).GetOr([]);
    if choices == [] then None else Some(choices[0])
  }

  /** `reasoning` is looked at only when there is no `reasoning_content`, not when that one is no string. */
  function ThinkingIn(delta: Json): string {
    AsStr(if Get(delta, "reasoning_content").Some? then Get(delta, "reasoning_content") else Get(delta, "reasoning"))
      .GetOr("")
  }

  function TextIn(scrub: string -> string, delta: Json): string {
    var content := StrAt(delta, "content", "");
    if content == "" then "" else scrub(content)
  }

  function CallsIn(delta: Json): seq<Json> { AsArr(Get(delta, "tool_calls")).GetOr([]) }

  function PieceOf(tc: Json): Atom { Piece(FragmentOf(tc)) }

  function WithThinking(atoms: seq<Atom>, t: string): seq<Atom> { if t == "" then atoms else atoms + [Think(t)] }

  function WithText(atoms: seq<Atom>, t: string): seq<Atom> { if t == "" then atoms else atoms + [Say(t)] }

  lemma WordsInOrder(atoms: seq<Atom>, thinking: string, text: string)
    ensures WithText(WithThinking(atoms, thinking), text) == atoms + WithText(WithThinking([], thinking), text)
  {
  }

  function WordsIn(scrub: string -> string, delta: Json): seq<Atom> {
    WithText(WithThinking([], ThinkingIn(delta)), TextIn(scrub, delta))
  }

  function AtomsIn(scrub: string -> string, delta: Json): seq<Atom> {
    WordsIn(scrub, delta) + Map(PieceOf, CallsIn(delta))
  }

  function MapFinish(raw: string): FinishReason {
    match raw
    case "tool_calls" => ToolCalls
    case "length" => Length
    case "content_filter" => ContentFilter
    case _ => Stop
  }

  // ---------------------------------------------------------------------------------------------
  // The parser's state
  // ---------------------------------------------------------------------------------------------

  datatype Open = Closed | InText | InThinking

  datatype Gathered = Gathered(id: Option<string>, name: Option<string>, args: string)

  datatype State = State(open: Open, tools: map<nat, Gathered>, started: set<nat>)

  const START := State(Closed, map[], {})

  function Decimal(n: nat): string {
    if n < 10 then ["0123456789"[n]] else Decimal(n / 10) + ["0123456789"[n % 10]]
  }

  function Later<T>(now: Option<T>, before: Option<T>): Option<T> { if now.Some? then now else before }

  function ToolAt(tools: map<nat, Gathered>, i: nat): Gathered {
    if i in tools then tools[i] else Gathered(None, None, "")
  }

  function Grown(t: Gathered, f: Fragment): Gathered {
    Gathered(Later(f.id, t.id), Later(f.name, t.name), t.args + f.args.GetOr(""))
  }

  function IdOr(id: Option<string>, index: nat): string { id.GetOr("call_" + Decimal(index)) }

  function DigitsRead(s: string): nat {
    if s == "" then 0
    else DigitsRead(s[..|s| - 1]) * 10 + if '0' <= s[|s| - 1] <= '9' then s[|s| - 1] as nat - '0' as nat else 0
  }

  lemma {:induction false} DecimalReads(n: nat)
    ensures DigitsRead(Decimal(n)) == n
  {
    if n >= 10 {
      DecimalReads(n / 10);
      var d := Decimal(n);
      assert d[..|d| - 1] == Decimal(n / 10);
    } else {
      assert Decimal(n)[..0] == "";
    }
  }

  /** Calls that come without an id are told apart: each gets one that says its index. */
  lemma NamelessIdsDiffer(i: nat, j: nat)
    ensures "call_" <= IdOr(None, i) && DigitsRead(IdOr(None, i)[5..]) == i
    ensures IdOr(None, i) == IdOr(None, j) ==> i == j
  {
    DecimalReads(i);
    DecimalReads(j);
    assert IdOr(None, i)[5..] == Decimal(i) && IdOr(None, j)[5..] == Decimal(j);
  }

  function Ensure(open: Open, want: Open, block: Block): seq<StreamEvent> {
    if open == want then [] else R.CloseIf(open != Closed) + [BlockStart(block)]
  }

  function Emit(s: State, a: Atom): seq<StreamEvent> {
    match a
    case Think(t) => Ensure(s.open, InThinking, ThinkingBlock) + [BlockDelta(ThinkingDelta(t))]
    case Say(t) => Ensure(s.open, InText, TextBlock) + [BlockDelta(TextDelta(t))]
    case Piece(f) =>
      var t := Grown(ToolAt(s.tools, f.index), f);
      if f.index in s.started || t.name.None? then []
      else R.CloseIf(s.open != Closed) + [BlockStart(ToolUse(IdOr(t.id, f.index), t.name.value))]
  }

  function Next(s: State, a: Atom): State {
    match a
    case Think(_) => s.(open := InThinking)
    case Say(_) => s.(open := InText)
    case Piece(f) =>
      var t := Grown(ToolAt(s.tools, f.index), f);
      if f.index in s.started || t.name.None? then s.(tools := s.tools[f.index := t])
      else State(Closed, s.tools[f.index := t.(id := Some(IdOr(t.id, f.index)))], s.started + {f.index})
  }

  function Final(atoms: seq<Atom>): State {
    if atoms == [] then START else Next(Final(atoms[..|atoms| - 1]), atoms[|atoms| - 1])
  }

  function Emitted(atoms: seq<Atom>): seq<StreamEvent> {
    if atoms == [] then []
    else
      var before := atoms[..|atoms| - 1];
      Emitted(before) + Emit(Final(before), atoms[|atoms| - 1])
  }

  lemma OneMore(atoms: seq<Atom>, a: Atom)
    ensures Final(atoms + [a]) == Next(Final(atoms), a)
    ensures Emitted(atoms + [a]) == Emitted(atoms) + Emit(Final(atoms), a)
  {
    assert (atoms + [a])[..|atoms|] == atoms;
  }

  // ---------------------------------------------------------------------------------------------
  // Indices in ascending order, as the source's ordered map yields them
  // ---------------------------------------------------------------------------------------------

  lemma {:induction false} LeastExists(s: set<nat>, x: nat)
    requires x in s
    ensures exists m :: m in s && forall y :: y in s ==> m <= y
  {
    if y :| y in s && y < x {
      LeastExists(s, y);
    }
  }

  function Least(s: set<nat>): (m: nat)
    requires s != {}
    ensures m in s && forall x :: x in s ==> m <= x
  {
    var x :| x in s;
    LeastExists(s, x);
    var m :| m in s && forall x :: x in s ==> m <= x;
    m
  }

  function Ascending(s: set<nat>): (keys: seq<nat>)
    ensures forall x :: x in keys <==> x in s
    ensures forall i, j :: 0 <= i < j < |keys| ==> keys[i] < keys[j]
    decreases |s|
  {
    if s == {} then [] else [Least(s)] + Ascending(s - {Least(s)})
  }

  function ArgsEvent(args: string): seq<StreamEvent> {
    if args == "" then [] else [BlockDelta(InputJsonDelta(args))]
  }

  function FlushOne(tools: map<nat, Gathered>): nat -> seq<StreamEvent> { (i: nat) => ArgsEvent(ToolAt(tools, i).args) }

  function Flush(tools: map<nat, Gathered>): seq<StreamEvent> { FlatMap(FlushOne(tools), Ascending(tools.Keys)) }

  // ---------------------------------------------------------------------------------------------
  // Whole streams
  // ---------------------------------------------------------------------------------------------

  type FrameItem = Result<string, string>

  predicate Ends(item: FrameItem) { item.Err? || Text.Trim(item.value) == "[DONE]" }

  /** The first item that ends the stream. */
  function EndAt(items: seq<FrameItem>): (n: nat)
    ensures n <= |items|
    ensures forall k :: 0 <= k < n ==> !Ends(items[k])
    ensures n < |items| ==> Ends(items[n])
  {
    if items == [] || Ends(items[0]) then 0 else 1 + EndAt(items[1..])
  }

  datatype Provider = Provider(codec: Codec, scrub: string -> string)

  /** What the frames read so far amount to. */
  datatype Reading = Reading(atoms: seq<Atom>, finish: Option<FinishReason>, usage: Option<Usage>)

  const NOTHING := Reading([], None, None)

  function WithUsage(r: Reading, v: Json): Reading {
    match Get(v, "usage")
    case Some(u) => r.(usage := UsageFromChat(u))
    case None => r
  }

  function WithChoice(p: Provider, r: Reading, choice: Json): Reading {
    var raw := AsStr(Get(choice, "finish_reason"));
    r.(atoms := r.atoms + AtomsIn(p.scrub, Get(choice, "delta").GetOr(Null)),
       finish := if raw.Some? then Some(MapFinish(raw.value)) else r.finish)
  }

  /** One more frame: data that is no JSON is skipped; usage is taken from any frame, the rest from the
      first choice. */
  function ReadFrame(p: Provider, r: Reading, data: string): Reading {
    match p.codec.fromText(data)
    case None => r
    case Some(v) =>
      var r' := WithUsage(r, v);
      match ChoiceOf(v)
      case None => r'
      case Some(choice) => WithChoice(p, r', choice)
  }

  function ReadFrames(p: Provider, items: seq<FrameItem>): Reading {
    if items == [] then NOTHING
    else
      var n := |items| - 1;
      if items[n].Err? then ReadFrames(p, items[..n]) else ReadFrame(p, ReadFrames(p, items[..n]), items[n].value)
  }

  function Closing(s: State, r: Reading): seq<StreamEvent> {
    Flush(s.tools) + R.CloseIf(s.open != Closed || r.finish.Some?) + [MessageDelta(r.finish, r.usage), MessageStop]
  }

  function Parsed(p: Provider, items: seq<FrameItem>): R.Output {
    var n := EndAt(items);
    var r := ReadFrames(p, items[..n]);
    var body := [MessageStart] + Emitted(r.atoms);
    if n < |items| && items[n].Err? then R.Output(body, Some(items[n].error))
    else R.Output(body + Closing(Final(r.atoms), r), None)
  }

  // ---------------------------------------------------------------------------------------------
  // The parser
  // ---------------------------------------------------------------------------------------------

  method SwitchBlock(open: Open, want: Open, block: Block) returns (out: seq<StreamEvent>)
    requires want != Closed
    ensures out == Ensure(open, want, block)
  {
    out := [];
    if open != Closed && open != want { out := [BlockStop]; }
    if open != want { out := out + [BlockStart(block)]; }
  }

  /** Where the parser stands once it has acted on these. */
  ghost predicate At(atoms: seq<Atom>, s: State, out: seq<StreamEvent>) {
    s == Final(atoms) && out == [MessageStart] + Emitted(atoms)
  }

  lemma Advance(atoms: seq<Atom>, a: Atom, s: State, out: seq<StreamEvent>)
    requires At(atoms, s, out)
    ensures At(atoms + [a], Next(s, a), out + Emit(s, a))
  {
    OneMore(atoms, a);
    Assoc([MessageStart], Emitted(atoms), Emit(s, a));
  }

  method TakeThinking(ghost before: seq<Atom>, t: string, s: State, out: seq<StreamEvent>)
    returns (s': State, out': seq<StreamEvent>)
    requires At(before, s, out)
    ensures At(WithThinking(before, t), s', out')
  {
    s', out' := s, out;
    if t != "" {
      Advance(before, Think(t), s, out);
      var opening := SwitchBlock(s.open, InThinking, ThinkingBlock);
      s' := s.(open := InThinking);
      out' := out + (opening + [BlockDelta(ThinkingDelta(t))]);
    }
  }

  method TakeText(ghost before: seq<Atom>, t: string, s: State, out: seq<StreamEvent>)
    returns (s': State, out': seq<StreamEvent>)
    requires At(before, s, out)
    ensures At(WithText(before, t), s', out')
  {
    s', out' := s, out;
    if t != "" {
      Advance(before, Say(t), s, out);
      var opening := SwitchBlock(s.open, InText, TextBlock);
      s' := s.(open := InText);
      out' := out + (opening + [BlockDelta(TextDelta(t))]);
    }
  }

  /** Reasoning, then content. */
  method TakeWords(p: Provider, ghost before: seq<Atom>, delta: Json, s: State, out: seq<StreamEvent>)
    returns (s': State, out': seq<StreamEvent>)
    requires At(before, s, out)
    ensures At(before + WordsIn(p.scrub, delta), s', out')
  {
    s', out' := TakeThinking(before, ThinkingIn(delta), s, out);
    var content, text := StrAt(delta, "content", ""), "";
    if content != "" {
      text := p.scrub(content);
    }
    s', out' := TakeText(WithThinking(before, ThinkingIn(delta)), text, s', out');
    WordsInOrder(before, ThinkingIn(delta), text);
  }

  /** Stores a fragment under its index and opens the block on first sight of a name. */
  method TakeFragment(tc: Json, s: State) returns (s': State, out: seq<StreamEvent>)
    ensures s' == Next(s, PieceOf(tc)) && out == Emit(s, PieceOf(tc))
  {
    out := [];
    var f := FragmentOf(tc);
    var open, started, entry := s.open, s.started, ToolAt(s.tools, f.index);
    if f.id.Some? { entry := entry.(id := f.id); }
    if f.name.Some? { entry := entry.(name := f.name); }
    if f.args.Some? { entry := entry.(args := entry.args + f.args.value); }
    assert entry.args == ToolAt(s.tools, f.index).args + f.args.GetOr("");
    if f.index !in started && entry.name.Some? {
      if open != Closed { out := [BlockStop]; open := Closed; }
      var id := entry.id.GetOr("call_" + Decimal(f.index));
      entry := entry.(id := Some(id));
      out := out + [BlockStart(ToolUse(id, entry.name.value))];
      started := started + {f.index};
    }
    s' := State(open, s.tools[f.index := entry], started);
  }

  method TakeCall(ghost before: seq<Atom>, tc: Json, s: State, out: seq<StreamEvent>)
    returns (s': State, out': seq<StreamEvent>)
    requires At(before, s, out)
    ensures At(before + [PieceOf(tc)], s', out')
  {
    Advance(before, PieceOf(tc), s, out);
    var events;
    s', events := TakeFragment(tc, s);
    out' := out + events;
  }

  lemma PieceAdded(before: seq<Atom>, calls: seq<Json>, i: nat)
    requires i < |calls|
    ensures before + Map(PieceOf, calls)[..i] + [PieceOf(calls[i])] == before + Map(PieceOf, calls)[..i + 1]
  {
  }

  lemma AllPieces(before: seq<Atom>, calls: seq<Json>)
    ensures before + Map(PieceOf, calls)[..0] == before
    ensures before + Map(PieceOf, calls)[..|calls|] == before + Map(PieceOf, calls)
  {
  }

  method TakeCalls(ghost before: seq<Atom>, calls: seq<Json>, s: State, out: seq<StreamEvent>)
    returns (s': State, out': seq<StreamEvent>)
    requires At(before, s, out)
    ensures At(before + Map(PieceOf, calls), s', out')
  {
    s', out' := s, out;
    ghost var atoms := before;
    AllPieces(before, calls);
    for i := 0 to |calls|
      invariant atoms == before + Map(PieceOf, calls)[..i] && At(atoms, s', out')
    {
      s', out' := TakeCall(atoms, calls[i], s', out');
      atoms := atoms + [PieceOf(calls[i])];
      PieceAdded(before, calls, i);
    }
  }

  method FlushArgs(tools: map<nat, Gathered>) returns (out: seq<StreamEvent>)
    ensures out == Flush(tools)
  {
    out := [];
    var keys := Ascending(tools.Keys);
    for i := 0 to |keys|
      invariant out == FlatMap(FlushOne(tools), keys[..i])
    {
      FlatMapPrefix(FlushOne(tools), keys, i);
      assert keys[i] in tools;
      if tools[keys[i]].args != "" {
        out := out + [BlockDelta(InputJsonDelta(tools[keys[i]].args))];
      }
    }
    assert keys[..|keys|] == keys;
  }

  method TakeChoice(p: Provider, ghost before: seq<Atom>, choice: Json, s: State, out: seq<StreamEvent>)
    returns (s': State, out': seq<StreamEvent>)
    requires At(before, s, out)
    ensures At(before + AtomsIn(p.scrub, Get(choice, "delta").GetOr(Null)), s', out')
  {
    var delta := Get(choice, "delta").GetOr(Null);
    s', out' := TakeWords(p, before, delta, s, out);
    s', out' := TakeCalls(before + WordsIn(p.scrub, delta), CallsIn(delta), s', out');
    Assoc(before, WordsIn(p.scrub, delta), Map(PieceOf, CallsIn(delta)));
  }

  method TakeFrame(p: Provider, ghost r: Reading, data: string, finish: Option<FinishReason>, usage: Option<Usage>,
                   s: State, out: seq<StreamEvent>)
    returns (finish': Option<FinishReason>, usage': Option<Usage>, s': State, out': seq<StreamEvent>)
    requires At(r.atoms, s, out) && finish == r.finish && usage == r.usage
    ensures var r' := ReadFrame(p, r, data); At(r'.atoms, s', out') && finish' == r'.finish && usage' == r'.usage
  {
    finish', usage', s', out' := finish, usage, s, out;
    var v := p.codec.fromText(data);
    if v.Some? {
      var u := Get(v.value, "usage");
      if u.Some? { usage' := UsageFromChat(u.value); }
      var choice := ChoiceOf(v.value);
      if choice.Some? {
        s', out' := TakeChoice(p, r.atoms, choice.value, s, out);
        var raw := AsStr(Get(choice.value, "finish_reason"));
        if raw.Some? { finish' := Some(MapFinish(raw.value)); }
      }
    }
  }

  lemma EndIsFirst(items: seq<FrameItem>, i: nat)
    requires i <= EndAt(items)
    ensures i < |items| ==> (Ends(items[i]) <==> i == EndAt(items))
  {
  }

  /** Where the parser stands before item `i`. */
  ghost predicate Stands(p: Provider, items: seq<FrameItem>, i: nat, finish: Option<FinishReason>, usage: Option<Usage>,
                         s: State, out: seq<StreamEvent>)
  {
    i <= |items|
    && var r := ReadFrames(p, items[..i]);
       At(r.atoms, s, out) && finish == r.finish && usage == r.usage
  }

  method TakeItem(p: Provider, items: seq<FrameItem>, i: nat, finish: Option<FinishReason>, usage: Option<Usage>,
                  s: State, out: seq<StreamEvent>)
    returns (finish': Option<FinishReason>, usage': Option<Usage>, s': State, out': seq<StreamEvent>)
    requires i < |items| && items[i].Ok? && Stands(p, items, i, finish, usage, s, out)
    ensures Stands(p, items, i + 1, finish', usage', s', out')
  {
    assert items[..i + 1][..i] == items[..i];
    finish', usage', s', out' := TakeFrame(p, ReadFrames(p, items[..i]), items[i].value, finish, usage, s, out);
  }

  /** The frames up to the first that ends the stream. */
  method ReadStream(p: Provider, items: seq<FrameItem>)
    returns (i: nat, finish: Option<FinishReason>, usage: Option<Usage>, s: State, out: seq<StreamEvent>)
    ensures i == EndAt(items) && Stands(p, items, i, finish, usage, s, out)
  {
    i, finish, usage, s, out := 0, None, None, START, [MessageStart];
    while i < |items| && !Ends(items[i])
      invariant i <= EndAt(items) && Stands(p, items, i, finish, usage, s, out)
    {
      EndIsFirst(items, i);
      finish, usage, s, out := TakeItem(p, items, i, finish, usage, s, out);
      i := i + 1;
    }
    EndIsFirst(items, i);
  }

  method ParseChatSse(p: Provider, items: seq<FrameItem>) returns (out: seq<StreamEvent>, error: Option<string>)
    ensures R.Output(out, error) == Parsed(p, items)
  {
    var i, finish, usage, s;
    error := None;
    i, finish, usage, s, out := ReadStream(p, items);
    if i < |items| && items[i].Err? {
      return out, Some(items[i].error);
    }
    var flushed := FlushArgs(s.tools);
    var stop := if s.open != Closed || finish.Some? then [BlockStop] else [];
    Assoc(out, flushed + stop, [MessageDelta(finish, usage), MessageStop]);
    out := out + (flushed + stop + [MessageDelta(finish, usage), MessageStop]);
  }

  // ---------------------------------------------------------------------------------------------
  // Fragments are gathered by index
  // ---------------------------------------------------------------------------------------------

  /** The fragments of one index, in order of arrival. */
  function PiecesOf(atoms: seq<Atom>, i: nat): seq<Fragment> {
    if atoms == [] then []
    else
      var before, a := atoms[..|atoms| - 1], atoms[|atoms| - 1];
      if a.Piece? && a.f.index == i then PiecesOf(before, i) + [a.f] else PiecesOf(before, i)
  }

  function ArgsText(fs: seq<Fragment>): string {
    if fs == [] then "" else ArgsText(fs[..|fs| - 1]) + fs[|fs| - 1].args.GetOr("")
  }

  function LastId(fs: seq<Fragment>): Option<string> {
    if fs == [] then None else Later(fs[|fs| - 1].id, LastId(fs[..|fs| - 1]))
  }

  /** The block an index opens: at its first name, under the last id seen by then. */
  function OpeningOf(fs: seq<Fragment>, i: nat): Option<Block> {
    if fs == [] then None
    else
      var before := fs[..|fs| - 1];
      if OpeningOf(before, i).Some? then OpeningOf(before, i)
      else
        match fs[|fs| - 1].name
        case Some(name) => Some(ToolUse(IdOr(LastId(fs), i), name))
        case None => None
  }

  lemma {:induction false} ToolsHoldTheirPieces(atoms: seq<Atom>, i: nat)
    ensures var s, fs := Final(atoms), PiecesOf(atoms, i);
            && (i in s.tools <==> fs != [])
            && ToolAt(s.tools, i).args == ArgsText(fs)
            && (i in s.started <==> OpeningOf(fs, i).Some?)
            && (i !in s.started ==> ToolAt(s.tools, i).name.None? && ToolAt(s.tools, i).id == LastId(fs))
  {
    if atoms != [] {
      var before, a := atoms[..|atoms| - 1], atoms[|atoms| - 1];
      ToolsHoldTheirPieces(before, i);
      if a.Piece? && a.f.index == i {
        assert PiecesOf(atoms, i)[..|PiecesOf(atoms, i)| - 1] == PiecesOf(before, i);
      }
    }
  }

  function ArgDelta(e: StreamEvent): seq<string> {
    if e.BlockDelta? && e.delta.InputJsonDelta? then [e.delta.partial] else []
  }

  function ToolStart(e: StreamEvent): seq<Block> {
    if e.BlockStart? && e.block.ToolUse? then [e.block] else []
  }

  function TextPart(e: StreamEvent): string {
    if e.BlockDelta? && e.delta.TextDelta? then e.delta.text else ""
  }

  function ThinkingPart(e: StreamEvent): string {
    if e.BlockDelta? && e.delta.ThinkingDelta? then e.delta.text else ""
  }

  function SaidBy(a: Atom): string { if a.Say? then a.t else "" }

  function ThoughtBy(a: Atom): string { if a.Think? then a.t else "" }

  lemma AfterClose<T>(f: StreamEvent -> seq<T>, close: bool, e: StreamEvent)
    requires f(BlockStop) == []
    ensures FlatMap(f, R.CloseIf(close)) == []
    ensures FlatMap(f, R.CloseIf(close) + [e]) == f(e)
  {
    FlatMapOne(f, BlockStop);
    FlatMapOne(f, e);
    FlatMapAppend(f, R.CloseIf(close), [e]);
  }

  lemma AfterOpen<T>(f: StreamEvent -> seq<T>, open: Open, want: Open, block: Block, e: StreamEvent)
    requires f(BlockStop) == [] && f(BlockStart(block)) == []
    ensures FlatMap(f, Ensure(open, want, block) + [e]) == f(e)
  {
    AfterClose(f, open != Closed, BlockStart(block));
    FlatMapOne(f, e);
    FlatMapAppend(f, Ensure(open, want, block), [e]);
  }

  /** What an atom adds to the events, for a projection that looks past block ends and word blocks. */
  lemma EmitAdds<T>(f: StreamEvent -> seq<T>, s: State, a: Atom)
    requires f(BlockStop) == [] && f(BlockStart(TextBlock)) == [] && f(BlockStart(ThinkingBlock)) == []
    ensures a.Think? ==> FlatMap(f, Emit(s, a)) == f(BlockDelta(ThinkingDelta(a.t)))
    ensures a.Say? ==> FlatMap(f, Emit(s, a)) == f(BlockDelta(TextDelta(a.t)))
    ensures a.Piece? ==>
              FlatMap(f, Emit(s, a)) == if Emit(s, a) == [] then [] else f(Emit(s, a)[|Emit(s, a)| - 1])
  {
    match a
    case Think(t) => AfterOpen(f, s.open, InThinking, ThinkingBlock, BlockDelta(ThinkingDelta(t)));
    case Say(t) => AfterOpen(f, s.open, InText, TextBlock, BlockDelta(TextDelta(t)));
    case Piece(p) =>
      if Emit(s, a) != [] {
        AfterClose(f, s.open != Closed, Emit(s, a)[|Emit(s, a)| - 1]);
      }
  }

  lemma EmittedAdds<T>(f: StreamEvent -> seq<T>, atoms: seq<Atom>)
    requires atoms != []
    ensures FlatMap(f, Emitted(atoms))
         == FlatMap(f, Emitted(atoms[..|atoms| - 1]))
            + FlatMap(f, Emit(Final(atoms[..|atoms| - 1]), atoms[|atoms| - 1]))
  {
    FlatMapAppend(f, Emitted(atoms[..|atoms| - 1]), Emit(Final(atoms[..|atoms| - 1]), atoms[|atoms| - 1]));
  }

  /** Nothing is said or thought that was not sent, nothing sent is lost, and no arguments go out early. */
  lemma {:induction false} WordsAreKept(atoms: seq<Atom>)
    ensures FlatMap(TextPart, Emitted(atoms)) == FlatMap(SaidBy, atoms)
    ensures FlatMap(ThinkingPart, Emitted(atoms)) == FlatMap(ThoughtBy, atoms)
    ensures FlatMap(ArgDelta, Emitted(atoms)) == []
    decreases |atoms|
  {
    if atoms != [] {
      var n := |atoms| - 1;
      WordsAreKept(atoms[..n]);
      assert atoms[..n + 1] == atoms;
      FlatMapPrefix(SaidBy, atoms, n);
      FlatMapPrefix(ThoughtBy, atoms, n);
      var s := Final(atoms[..n]);
      EmittedAdds(TextPart, atoms);
      EmittedAdds(ThinkingPart, atoms);
      EmittedAdds(ArgDelta, atoms);
      EmitAdds(TextPart, s, atoms[n]);
      EmitAdds(ThinkingPart, s, atoms[n]);
      EmitAdds(ArgDelta, s, atoms[n]);
    }
  }

  /** The indices that open a block, in the order of their first names. */
  function StartOrder(atoms: seq<Atom>): seq<nat> {
    if atoms == [] then []
    else
      var before, a := StartOrder(atoms[..|atoms| - 1]), atoms[|atoms| - 1];
      if a.Piece? && a.f.name.Some? && a.f.index !in before then before + [a.f.index] else before
  }

  predicate Opens(atoms: seq<Atom>, order: seq<nat>, blocks: seq<Block>) {
    && |blocks| == |order|
    && forall k :: 0 <= k < |order| ==> OpeningOf(PiecesOf(atoms, order[k]), order[k]) == Some(blocks[k])
  }

  lemma {:induction false} OrderHasNoRepeats(atoms: seq<Atom>, i: nat)
    ensures i in StartOrder(atoms) <==> i in Final(atoms).started
    ensures forall j, k :: 0 <= j < k < |StartOrder(atoms)| ==> StartOrder(atoms)[j] != StartOrder(atoms)[k]
  {
    if atoms != [] {
      var before, a := atoms[..|atoms| - 1], atoms[|atoms| - 1];
      OrderHasNoRepeats(before, i);
      if a.Piece? {
        OrderHasNoRepeats(before, a.f.index);
        ToolsHoldTheirPieces(before, a.f.index);
      }
    }
  }

  /** An opening does not change once it is there. */
  lemma OpeningStays(atoms: seq<Atom>, i: nat)
    requires atoms != [] && OpeningOf(PiecesOf(atoms[..|atoms| - 1], i), i).Some?
    ensures OpeningOf(PiecesOf(atoms, i), i) == OpeningOf(PiecesOf(atoms[..|atoms| - 1], i), i)
  {
    var before, now := PiecesOf(atoms[..|atoms| - 1], i), PiecesOf(atoms, i);
    if now != before {
      assert now[..|now| - 1] == before;
    }
  }

  lemma OpensStays(atoms: seq<Atom>, order: seq<nat>, blocks: seq<Block>)
    requires atoms != [] && Opens(atoms[..|atoms| - 1], order, blocks)
    ensures Opens(atoms, order, blocks)
  {
    forall k | 0 <= k < |order|
      ensures OpeningOf(PiecesOf(atoms, order[k]), order[k]) == Some(blocks[k])
    {
      OpeningStays(atoms, order[k]);
    }
  }

  lemma OpensGrows(atoms: seq<Atom>, order: seq<nat>, blocks: seq<Block>, i: nat, block: Block)
    requires Opens(atoms, order, blocks) && OpeningOf(PiecesOf(atoms, i), i) == Some(block)
    ensures Opens(atoms, order + [i], blocks + [block])
  {
  }

  /** What the next atom does to the order of starts and to the starts. */
  lemma NextStart(before: seq<Atom>, a: Atom)
    ensures var all, order := before + [a], StartOrder(before);
            var starts := FlatMap(ToolStart, Emit(Final(before), a));
            if a.Piece? && a.f.name.Some? && a.f.index !in order then
              StartOrder(all) == order + [a.f.index]
              && OpeningOf(PiecesOf(all, a.f.index), a.f.index).Some?
              && starts == [OpeningOf(PiecesOf(all, a.f.index), a.f.index).value]
            else StartOrder(all) == order && starts == []
  {
    assert (before + [a])[..|before|] == before;
    EmitAdds(ToolStart, Final(before), a);
    if a.Piece? {
      OrderHasNoRepeats(before, a.f.index);
      NewOpening(before, a.f);
      OpeningsAreTools(PiecesOf(before + [a], a.f.index), a.f.index);
    }
  }

  lemma {:induction false} OpeningsAreTools(fs: seq<Fragment>, i: nat)
    ensures OpeningOf(fs, i).Some? ==> OpeningOf(fs, i).value.ToolUse?
  {
    if fs != [] {
      OpeningsAreTools(fs[..|fs| - 1], i);
    }
  }

  /** The tool-use starts, in order: one per named index, with the name and id that index's own fragments give. */
  lemma {:induction false} StartsAreTheOpenings(atoms: seq<Atom>)
    ensures Opens(atoms, StartOrder(atoms), FlatMap(ToolStart, Emitted(atoms)))
  {
    if atoms != [] {
      var before, a := atoms[..|atoms| - 1], atoms[|atoms| - 1];
      var order, blocks := StartOrder(before), FlatMap(ToolStart, Emitted(before));
      assert before + [a] == atoms;
      StartsAreTheOpenings(before);
      OpensStays(atoms, order, blocks);
      EmittedAdds(ToolStart, atoms);
      NextStart(before, a);
      if StartOrder(atoms) != order {
        OpensGrows(atoms, order, blocks, a.f.index, OpeningOf(PiecesOf(atoms, a.f.index), a.f.index).value);
      }
    }
  }

  /** A fragment opens a block exactly if it is the first of its index to bear a name. */
  lemma NewOpening(before: seq<Atom>, f: Fragment)
    ensures var events, i := Emit(Final(before), Piece(f)), f.index;
            if i !in Final(before).started && f.name.Some?
            then events != []
                 && OpeningOf(PiecesOf(before + [Piece(f)], i), i).Some?
                 && events[|events| - 1] == BlockStart(OpeningOf(PiecesOf(before + [Piece(f)], i), i).value)
            else events == []
  {
    var all := before + [Piece(f)];
    assert all[..|all| - 1] == before;
    ToolsHoldTheirPieces(before, f.index);
    var fs := PiecesOf(all, f.index);
    assert fs[..|fs| - 1] == PiecesOf(before, f.index);
  }

  // ---------------------------------------------------------------------------------------------
  // What a whole stream yields
  // ---------------------------------------------------------------------------------------------

  /** What the parser acts on: the frames up to the first that ends the stream. */
  function Acted(p: Provider, items: seq<FrameItem>): Reading { ReadFrames(p, items[..EndAt(items)]) }

  predicate Completes(items: seq<FrameItem>) { EndAt(items) < |items| ==> items[EndAt(items)].Ok? }

  function IndexOf(a: Atom): seq<nat> { if a.Piece? then [a.f.index] else [] }

  function Indices(atoms: seq<Atom>): set<nat> { set i | i in FlatMap(IndexOf, atoms) }

  /** The arguments an index is to send: its fragments joined, unless they are all empty. */
  function Joined(atoms: seq<Atom>): nat -> seq<string> {
    (i: nat) => if ArgsText(PiecesOf(atoms, i)) == "" then [] else [ArgsText(PiecesOf(atoms, i))]
  }

  lemma {:induction false} IndicesAreTheKeys(atoms: seq<Atom>)
    ensures Final(atoms).tools.Keys == Indices(atoms)
    decreases |atoms|
  {
    if atoms != [] {
      var n := |atoms| - 1;
      IndicesAreTheKeys(atoms[..n]);
      assert atoms[..n + 1] == atoms;
      FlatMapPrefix(IndexOf, atoms, n);
    }
  }

  lemma {:induction false} FlushedArgs(atoms: seq<Atom>, keys: seq<nat>)
    ensures FlatMap(ArgDelta, FlatMap(FlushOne(Final(atoms).tools), keys)) == FlatMap(Joined(atoms), keys)
  {
    if keys != [] {
      var one := FlushOne(Final(atoms).tools)(keys[0]);
      ToolsHoldTheirPieces(atoms, keys[0]);
      if one != [] {
        FlatMapOne(ArgDelta, one[0]);
        assert one == [one[0]];
      }
      FlatMapAppend(ArgDelta, one, FlatMap(FlushOne(Final(atoms).tools), keys[1..]));
      FlushedArgs(atoms, keys[1..]);
    }
  }

  lemma {:induction false} FlushIsQuiet<T>(f: StreamEvent -> seq<T>, tools: map<nat, Gathered>, keys: seq<nat>)
    requires forall args :: f(BlockDelta(InputJsonDelta(args))) == []
    ensures FlatMap(f, FlatMap(FlushOne(tools), keys)) == []
  {
    if keys != [] {
      var one := FlushOne(tools)(keys[0]);
      if one != [] {
        FlatMapOne(f, one[0]);
        assert one == [one[0]];
      }
      FlatMapAppend(f, one, FlatMap(FlushOne(tools), keys[1..]));
      FlushIsQuiet(f, tools, keys[1..]);
    }
  }

  /** A projection that sees neither block ends nor the message's frame. */
  predicate Inner<T(==)>(f: StreamEvent -> seq<T>, r: Reading) {
    f(MessageStart) == [] && f(BlockStop) == [] && f(MessageDelta(r.finish, r.usage)) == [] && f(MessageStop) == []
  }

  lemma TailIsQuiet<T>(f: StreamEvent -> seq<T>, r: Reading)
    requires Inner(f, r)
    ensures FlatMap(f, [MessageDelta(r.finish, r.usage), MessageStop]) == []
  {
    var tail := [MessageDelta(r.finish, r.usage), MessageStop];
    FlatMapOne(f, MessageStop);
    assert tail[1..] == [MessageStop];
  }

  lemma ClosingAdds<T>(f: StreamEvent -> seq<T>, s: State, r: Reading)
    requires Inner(f, r)
    ensures FlatMap(f, Closing(s, r)) == FlatMap(f, Flush(s.tools))
  {
    var stop := R.CloseIf(s.open != Closed || r.finish.Some?);
    FlatMapOne(f, BlockStop);
    TailIsQuiet(f, r);
    FlatMapThree(f, Flush(s.tools), stop, [MessageDelta(r.finish, r.usage), MessageStop]);
  }

  /** An output that opens with something silent shows the rest of it. */
  lemma SilentStart<T>(f: StreamEvent -> seq<T>, first: StreamEvent, body: seq<StreamEvent>, end: seq<StreamEvent>)
    requires f(first) == []
    ensures FlatMap(f, [first] + body + end) == FlatMap(f, body) + FlatMap(f, end)
  {
    FlatMapOne(f, first);
    FlatMapThree(f, [first], body, end);
  }

  lemma CompleteOutput(p: Provider, items: seq<FrameItem>)
    requires Completes(items)
    ensures var r := Acted(p, items);
            Parsed(p, items).events == [MessageStart] + Emitted(r.atoms) + Closing(Final(r.atoms), r)
  {
  }

  lemma OutputShows<T>(f: StreamEvent -> seq<T>, p: Provider, items: seq<FrameItem>)
    requires Inner(f, Acted(p, items)) && Completes(items)
    ensures var atoms := Acted(p, items).atoms;
            FlatMap(f, Parsed(p, items).events) == FlatMap(f, Emitted(atoms)) + FlatMap(f, Flush(Final(atoms).tools))
  {
    var r := Acted(p, items);
    var body, state := Emitted(r.atoms), Final(r.atoms);
    CompleteOutput(p, items);
    SilentStart(f, MessageStart, body, Closing(state, r));
    ClosingAdds(f, state, r);
  }

  /** In an error-free stream the argument deltas are, in ascending order of index, each index's fragments
      joined in order of arrival, once. */
  lemma ArgumentsGoOutOnce(p: Provider, items: seq<FrameItem>)
    requires Completes(items)
    ensures var atoms := Acted(p, items).atoms;
            FlatMap(ArgDelta, Parsed(p, items).events) == FlatMap(Joined(atoms), Ascending(Indices(atoms)))
  {
    var atoms := Acted(p, items).atoms;
    OutputShows(ArgDelta, p, items);
    WordsAreKept(atoms);
    FlushedArgs(atoms, Ascending(Final(atoms).tools.Keys));
    IndicesAreTheKeys(atoms);
  }

  lemma OnlyTheBodyShows<T>(f: StreamEvent -> seq<T>, p: Provider, items: seq<FrameItem>)
    requires Inner(f, Acted(p, items)) && Completes(items)
    requires forall args :: f(BlockDelta(InputJsonDelta(args))) == []
    ensures FlatMap(f, Parsed(p, items).events) == FlatMap(f, Emitted(Acted(p, items).atoms))
  {
    var tools := Final(Acted(p, items).atoms).tools;
    OutputShows(f, p, items);
    FlushIsQuiet(f, tools, Ascending(tools.Keys));
  }

  lemma AtomNeverStops(s: State, a: Atom)
    ensures MessageStop !in Emit(s, a)
  {
  }

  lemma InEither<T>(x: T, a: seq<T>, b: seq<T>)
    ensures x in a + b <==> x in a || x in b
  {
  }

  lemma {:induction false} BodyNeverStops(atoms: seq<Atom>)
    ensures MessageStop !in Emitted(atoms)
  {
    if atoms != [] {
      var before, a := atoms[..|atoms| - 1], atoms[|atoms| - 1];
      BodyNeverStops(before);
      AtomNeverStops(Final(before), a);
      InEither(MessageStop, Emitted(before), Emit(Final(before), a));
    }
  }

  lemma ErrorIsFirst(items: seq<FrameItem>, k: nat)
    requires k < |items| && items[k].Err? && forall j :: 0 <= j < k ==> !Ends(items[j])
    ensures EndAt(items) == k
  {
  }

  /** A stream that breaks off gives what it had said and thought until then, and the error: no arguments, no stop. */
  lemma ErrorsEndTheStream(p: Provider, items: seq<FrameItem>, k: nat)
    requires k < |items| && items[k].Err?
    requires forall j :: 0 <= j < k ==> items[j].Ok? && Text.Trim(items[j].value) != "[DONE]"
    ensures var out := Parsed(p, items);
            && out.error == Some(items[k].error)
            && out.events != [] && out.events[0] == MessageStart && MessageStop !in out.events
            && FlatMap(TextPart, out.events) == FlatMap(SaidBy, ReadFrames(p, items[..k]).atoms)
            && FlatMap(ThinkingPart, out.events) == FlatMap(ThoughtBy, ReadFrames(p, items[..k]).atoms)
            && FlatMap(ArgDelta, out.events) == []
  {
    ErrorIsFirst(items, k);
    var atoms := ReadFrames(p, items[..k]).atoms;
    BodyNeverStops(atoms);
    WordsAreKept(atoms);
    FlatMapCons(TextPart, MessageStart, Emitted(atoms));
    FlatMapCons(ThinkingPart, MessageStart, Emitted(atoms));
    FlatMapCons(ArgDelta, MessageStart, Emitted(atoms));
  }

  /** Its text and its reasoning are those of the frames. */
  lemma WordsGoOutOnce(p: Provider, items: seq<FrameItem>)
    requires Completes(items)
    ensures FlatMap(TextPart, Parsed(p, items).events) == FlatMap(SaidBy, Acted(p, items).atoms)
    ensures FlatMap(ThinkingPart, Parsed(p, items).events) == FlatMap(ThoughtBy, Acted(p, items).atoms)
  {
    OnlyTheBodyShows(TextPart, p, items);
    OnlyTheBodyShows(ThinkingPart, p, items);
    WordsAreKept(Acted(p, items).atoms);
  }

  /** Its tool-use starts are one for each index that is ever named, with that index's own name and id. */
  lemma EachIndexOpensOnce(p: Provider, items: seq<FrameItem>)
    requires Completes(items)
    ensures var atoms := Acted(p, items).atoms;
            var order := StartOrder(atoms);
            && Opens(atoms, order, FlatMap(ToolStart, Parsed(p, items).events))
            && (forall j, k :: 0 <= j < k < |order| ==> order[j] != order[k])
            && (forall i: nat :: i in order <==> OpeningOf(PiecesOf(atoms, i), i).Some?)
  {
    OnlyTheBodyShows(ToolStart, p, items);
    StartsAreTheOpenings(Acted(p, items).atoms);
    OrderNamesTheNamed(Acted(p, items).atoms);
  }

  lemma OrderNamesTheNamed(atoms: seq<Atom>)
    ensures forall j, k :: 0 <= j < k < |StartOrder(atoms)| ==> StartOrder(atoms)[j] != StartOrder(atoms)[k]
    ensures forall i: nat :: i in StartOrder(atoms) <==> OpeningOf(PiecesOf(atoms, i), i).Some?
  {
    OrderHasNoRepeats(atoms, 0);
    forall i: nat
      ensures i in StartOrder(atoms) <==> OpeningOf(PiecesOf(atoms, i), i).Some?
    {
      OrderHasNoRepeats(atoms, i);
      ToolsHoldTheirPieces(atoms, i);
    }
  }

  lemma {:induction false} SameJoined(a: seq<Atom>, b: seq<Atom>, keys: seq<nat>)
    requires forall i: nat :: PiecesOf(a, i) == PiecesOf(b, i)
    ensures FlatMap(Joined(a), keys) == FlatMap(Joined(b), keys)
  {
    if keys != [] {
      assert Joined(a)(keys[0]) == Joined(b)(keys[0]);
      SameJoined(a, b, keys[1..]);
    }
  }

  /** How the fragments of different indices are interleaved, among each other and with the text, does not
      matter: the same arguments go out in the same order, and the same blocks are opened. */
  lemma InterleavingIsInvisible(p: Provider, items: seq<FrameItem>, items': seq<FrameItem>)
    requires Completes(items) && Completes(items')
    requires forall i: nat :: PiecesOf(Acted(p, items).atoms, i) == PiecesOf(Acted(p, items').atoms, i)
    ensures FlatMap(ArgDelta, Parsed(p, items).events) == FlatMap(ArgDelta, Parsed(p, items').events)
    ensures forall b :: b in FlatMap(ToolStart, Parsed(p, items).events)
                   <==> b in FlatMap(ToolStart, Parsed(p, items').events)
  {
    var a, b := Acted(p, items).atoms, Acted(p, items').atoms;
    ArgumentsGoOutOnce(p, items);
    ArgumentsGoOutOnce(p, items');
    forall i: nat
      ensures i in Indices(a) <==> i in Indices(b)
    {
      IndicesAreTheKeys(a);
      IndicesAreTheKeys(b);
      ToolsHoldTheirPieces(a, i);
      ToolsHoldTheirPieces(b, i);
      assert PiecesOf(a, i) == PiecesOf(b, i);
    }
    assert Indices(a) == Indices(b);
    SameJoined(a, b, Ascending(Indices(a)));
    StartsIncluded(p, items, items');
    StartsIncluded(p, items', items);
  }

  lemma StartsIncluded(p: Provider, items: seq<FrameItem>, items': seq<FrameItem>)
    requires Completes(items) && Completes(items')
    requires forall i: nat :: PiecesOf(Acted(p, items).atoms, i) == PiecesOf(Acted(p, items').atoms, i)
    ensures forall b :: b in FlatMap(ToolStart, Parsed(p, items).events)
                    ==> b in FlatMap(ToolStart, Parsed(p, items').events)
  {
    EachIndexOpensOnce(p, items);
    EachIndexOpensOnce(p, items');
    var atoms, atoms' := Acted(p, items).atoms, Acted(p, items').atoms;
    var order, order' := StartOrder(atoms), StartOrder(atoms');
    var blocks, blocks' := FlatMap(ToolStart, Parsed(p, items).events), FlatMap(ToolStart, Parsed(p, items').events);
    forall k | 0 <= k < |blocks|
      ensures blocks[k] in blocks'
    {
      assert PiecesOf(atoms, order[k]) == PiecesOf(atoms', order[k]);
      assert order[k] in order';
      var j :| 0 <= j < |order'| && order'[j] == order[k];
      assert blocks'[j] == blocks[k];
    }
  }

  // ---------------------------------------------------------------------------------------------
  // Which streams are well bracketed
  // ---------------------------------------------------------------------------------------------

  /** The places where the parser opens or fills a block. */
  datatype Mark = Words | Opening

  function Marks(atoms: seq<Atom>): seq<Mark> {
    if atoms == [] then []
    else
      var before, a := atoms[..|atoms| - 1], atoms[|atoms| - 1];
      Marks(before)
      + (if !a.Piece? then [Words] else if a.f.name.Some? && a.f.index !in StartOrder(before) then [Opening] else [])
  }

  /** No tool, and the end mark has a block to close; or one tool, opened last, and an end mark. */
  predicate Bracketable(marks: seq<Mark>, finished: bool) {
    || (Opening !in marks && (marks == [] ==> !finished))
    || (marks != [] && Opening !in marks[..|marks| - 1] && marks[|marks| - 1] == Opening && finished)
  }

  const READER := R.Reader(false, false, None, false)

  /** What a reader of the events makes of the atoms so far: a tool block is never closed by what follows. */
  function Seen(marks: seq<Mark>, open: Open): Option<R.Reader> {
    if Opening !in marks then
      Some(R.Reader(false, true, match open case Closed => None case InText => Some(R.KText)
                                  case InThinking => Some(R.KThinking),
                    false))
    else if Opening !in marks[..|marks| - 1] then Some(R.Reader(false, true, Some(R.KTool), false))
    else None
  }

  lemma OpeningReads(r: R.Reader, close: bool, block: Block)
    requires !r.ending && close == r.open.Some?
    ensures R.ReadAll(r, R.CloseIf(close) + [BlockStart(block)]) == Some(r.(open := Some(R.KindOf(block))))
  {
    var closed := r.(open := None);
    R.ReadOne(r, BlockStop);
    R.ReadAppend(r, R.CloseIf(close), [BlockStart(block)]);
    R.ReadOne(closed, BlockStart(block));
    assert R.CloseIf(false) == [];
  }

  /** After a tool block nothing can be opened, for the parser does not close it. */
  lemma OverToolFails(r: R.Reader, block: Block)
    requires !r.ending && r.open.Some?
    ensures R.ReadAll(r, [BlockStart(block)]) == None
    ensures R.ReadAll(r, R.CloseIf(false) + [BlockStart(block)]) == None
  {
    assert R.CloseIf(false) + [BlockStart(block)] == [BlockStart(block)];
    R.ReadOne(r, BlockStart(block));
  }

  lemma WordReads(r: R.Reader, open: Open, want: Open, block: Block, e: StreamEvent)
    requires !r.ending && want != Closed
    requires (want == InText && block == TextBlock && e.BlockDelta? && e.delta.TextDelta?)
          || (want == InThinking && block == ThinkingBlock && e.BlockDelta? && e.delta.ThinkingDelta?)
    requires r == Seen([], open).value || (open == Closed && r == Seen([Opening], Closed).value)
    ensures R.ReadAll(r, Ensure(open, want, block) + [e])
         == if r.open == Some(R.KTool) then None else Seen([], want)
  {
    R.ReadAppend(r, Ensure(open, want, block), [e]);
    if r.open == Some(R.KTool) {
      OverToolFails(r, block);
    } else {
      if open != want {
        OpeningReads(r, open != Closed, block);
      }
      R.ReadOne(Seen([], want).value, e);
    }
  }

  predicate Tracks(marks: seq<Mark>, s: State) {
    && (Opening !in marks ==> (s.open == Closed <==> marks == []))
    && (marks != [] && marks[|marks| - 1] == Opening ==> s.open == Closed)
  }

  lemma AtomReads(marks: seq<Mark>, s: State, a: Atom)
    requires Tracks(marks, s)
    ensures var opens := a.Piece? && Emit(s, a) != [];
            var marks' := marks + (if !a.Piece? then [Words] else if opens then [Opening] else []);
            && Tracks(marks', Next(s, a))
            && (Seen(marks, s.open).Some? ==>
                 R.ReadAll(Seen(marks, s.open).value, Emit(s, a)) == Seen(marks', Next(s, a).open))
            && (Seen(marks, s.open).None? ==> Seen(marks', Next(s, a).open).None?)
  {
    var opens := a.Piece? && Emit(s, a) != [];
    var added := if !a.Piece? then [Words] else if opens then [Opening] else [];
    SeenGrows(marks, added, s, Next(s, a).open);
    if Seen(marks, s.open).Some? {
      var r := Seen(marks, s.open).value;
      match a
      case Think(t) => WordReads(r, s.open, InThinking, ThinkingBlock, BlockDelta(ThinkingDelta(t)));
      case Say(t) => WordReads(r, s.open, InText, TextBlock, BlockDelta(TextDelta(t)));
      case Piece(f) =>
        if opens {
          var block := Emit(s, a)[|Emit(s, a)| - 1].block;
          if r.open == Some(R.KTool) {
            OverToolFails(r, block);
          } else {
            OpeningReads(r, s.open != Closed, block);
          }
        }
    }
  }

  lemma SeenGrows(marks: seq<Mark>, added: seq<Mark>, s: State, open: Open)
    requires |added| <= 1 && Tracks(marks, s)
    ensures added == [] ==> marks + added == marks
    ensures added != [] ==> (marks + added)[..|marks + added| - 1] == marks
    ensures added != [] && Opening in marks ==> Seen(marks + added, open) == None
    ensures added != [] && Opening !in marks ==> Seen(marks + added, open) == Seen(added, open)
    ensures added == [Words] ==> Seen(added, open) == Seen([], open)
    ensures Opening !in marks ==> Seen(marks, open) == Seen([], open)
    ensures Opening in marks && Seen(marks, s.open).Some? ==>
              s.open == Closed && Seen(marks, s.open) == Seen([Opening], Closed)
  {
    if added != [] {
      assert (marks + added)[..|marks + added| - 1] == marks;
    } else {
      assert marks + added == marks;
    }
    if Opening in marks {
      assert marks == marks[..|marks| - 1] + [marks[|marks| - 1]];
    }
  }

  lemma {:induction false} BodyReads(atoms: seq<Atom>)
    ensures Tracks(Marks(atoms), Final(atoms))
    ensures R.ReadAll(READER.(begun := true), Emitted(atoms)) == Seen(Marks(atoms), Final(atoms).open)
  {
    if atoms != [] {
      var before, a := atoms[..|atoms| - 1], atoms[|atoms| - 1];
      BodyReads(before);
      R.ReadAppend(READER.(begun := true), Emitted(before), Emit(Final(before), a));
      if a.Piece? {
        NewOpening(before, a.f);
        OrderHasNoRepeats(before, a.f.index);
      }
      AtomReads(Marks(before), Final(before), a);
    }
  }

  lemma {:induction false} FlushReads(r: R.Reader, tools: map<nat, Gathered>, keys: seq<nat>)
    requires !r.strict && !r.ending
    ensures R.ReadAll(r, FlatMap(FlushOne(tools), keys)) == Some(r)
  {
    if keys != [] {
      var one := FlushOne(tools)(keys[0]);
      R.ReadAppend(r, one, FlatMap(FlushOne(tools), keys[1..]));
      if one != [] {
        R.ReadOne(r, one[0]);
        assert one == [one[0]];
      }
      FlushReads(r, tools, keys[1..]);
    }
  }

  lemma ClosingReads(r: R.Reader, s: State, t: Reading)
    requires !r.strict && !r.ending
    ensures R.ReadAll(r, Closing(s, t)).Some? <==> (r.open.Some? <==> (s.open != Closed || t.finish.Some?))
  {
    var stop, ends := R.CloseIf(s.open != Closed || t.finish.Some?), [MessageDelta(t.finish, t.usage), MessageStop];
    FlushReads(r, s.tools, Ascending(s.tools.Keys));
    R.ReadAppend(r, Flush(s.tools) + stop, ends);
    R.ReadAppend(r, Flush(s.tools), stop);
    R.ReadOne(r, BlockStop);
    R.ReadTwo(r, MessageDelta(t.finish, t.usage), MessageStop);
    R.ReadTwo(r.(open := None), MessageDelta(t.finish, t.usage), MessageStop);
  }

  lemma OpeningReadsBody(atoms: seq<Atom>)
    ensures R.ReadAll(READER, [MessageStart] + Emitted(atoms)) == Seen(Marks(atoms), Final(atoms).open)
  {
    R.ReadAppend(READER, [MessageStart], Emitted(atoms));
    R.ReadOne(READER, MessageStart);
    BodyReads(atoms);
  }

  /** The bracketing condition, by what the reader has seen. */
  lemma BracketableBySight(marks: seq<Mark>, open: Open, finished: bool)
    requires Opening !in marks ==> (open == Closed <==> marks == [])
    requires marks != [] && marks[|marks| - 1] == Opening ==> open == Closed
    ensures Bracketable(marks, finished)
       <==> Seen(marks, open).Some? && (Seen(marks, open).value.open.Some? <==> (open != Closed || finished))
  {
    if Opening in marks {
      assert marks == marks[..|marks| - 1] + [marks[|marks| - 1]];
    } else {
      assert marks != [] ==> marks[|marks| - 1] in marks;
    }
  }

  lemma EndReads(marks: seq<Mark>, s: State, r: Reading)
    requires Tracks(marks, s)
    ensures Bracketable(marks, r.finish.Some?)
       <==> Seen(marks, s.open).Some? && R.ReadAll(Seen(marks, s.open).value, Closing(s, r)).Some?
  {
    BracketableBySight(marks, s.open, r.finish.Some?);
    if Seen(marks, s.open).Some? {
      ClosingReads(Seen(marks, s.open).value, s, r);
    }
  }

  /** Exactly when the events of an error-free stream are well bracketed. */
  lemma BracketedExactlyIf(p: Provider, items: seq<FrameItem>)
    requires Completes(items)
    ensures R.ReadAll(READER, Parsed(p, items).events).Some?
       <==> Bracketable(Marks(Acted(p, items).atoms), Acted(p, items).finish.Some?)
  {
    var r := Acted(p, items);
    R.ReadAppend(READER, [MessageStart] + Emitted(r.atoms), Closing(Final(r.atoms), r));
    OpeningReadsBody(r.atoms);
    BodyReads(r.atoms);
    EndReads(Marks(r.atoms), Final(r.atoms), r);
  }
}
