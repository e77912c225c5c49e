/** What the vendors put on the wire, written out key by key, and that the readers make of it what it says: token
    usage (qcue-rs/llm-api/src/usage_norm.rs), chat chunks (qcue-rs/llm-api/src/chat_sse.rs), Responses answers
    (qcue-rs/router/src/transport_responses.rs) and Responses events (qcue-rs/llm-api/src/responses_sse.rs). */
module Vendors {
  import opened Common
  import opened Json
  import opened Protocol
  import opened ResponsesWire
  import opened ResponsesStream
  import C = ChatStream
  import R = ResponsesStream
  import Text

  /** The field, if there is something to put in it. */
  function Field(key: string, v: Option<Json>): map<string, Json> { if v.Some? then map[key := v.value] else map[] }

  function Quoted(s: Option<string>): Option<Json> { if s.Some? then Some(Str(s.value)) else None }

  // ---------------------------------------------------------------------------------------------
  // Token usage
  // ---------------------------------------------------------------------------------------------

  function ChatUsage(u: Usage): Json {
    Obj(map["prompt_tokens" := Num(u.input), "completion_tokens" := Num(u.output),
            "prompt_tokens_details" := Obj(map["cached_tokens" := Num(u.cacheRead)]),
            "completion_tokens_details" := Obj(map["reasoning_tokens" := Num(u.reasoning)])])
  }

  function ResponsesUsage(u: Usage): Json {
    Obj(map["input_tokens" := Num(u.input), "output_tokens" := Num(u.output),
            "input_tokens_details" := Obj(map["cached_tokens" := Num(u.cacheRead)]),
            "output_tokens_details" := Obj(map["reasoning_tokens" := Num(u.reasoning)])])
  }

  lemma OneKey(v: Json, key: string)
    ensures U64At(v, [key]) == AsU64(Get(v, key)).GetOr(0)
  {
    assert [key][1..] == [];
    assert U64At(v, [key][1..]) == 0;
  }

  lemma TwoKeys(v: Json, first: string, second: string)
    ensures U64At(v, [first, second]) == AsU64(Get(v, first)).GetOr(AsU64(Get(v, second)).GetOr(0))
  {
    assert [first, second][1..] == [second];
    OneKey(v, second);
  }

  lemma DetailIsRead(key: string, n: nat)
    ensures U64At(Obj(map[key := Num(n)]), [key]) == n
  {
    OneKey(Obj(map[key := Num(n)]), key);
  }

  lemma UsageKeys(v: Json)
    ensures U64At(v, ["prompt_tokens", "input_tokens"])
         == AsU64(Get(v, "prompt_tokens")).GetOr(AsU64(Get(v, "input_tokens")).GetOr(0))
    ensures U64At(v, ["completion_tokens", "output_tokens"])
         == AsU64(Get(v, "completion_tokens")).GetOr(AsU64(Get(v, "output_tokens")).GetOr(0))
    ensures U64At(v, ["reasoning_tokens"]) == AsU64(Get(v, "reasoning_tokens")).GetOr(0)
  {
    TwoKeys(v, "prompt_tokens", "input_tokens");
    TwoKeys(v, "completion_tokens", "output_tokens");
    OneKey(v, "reasoning_tokens");
  }

  /** Both spellings of a usage report are read as what they report. */
  lemma UsageIsRead(u: Usage)
    requires u.cacheWrite == 0
    ensures UsageFromChat(ChatUsage(u)) == Some(u) && UsageFromChat(ResponsesUsage(u)) == Some(u)
  {
    ChatUsageIsRead(u);
    ResponsesUsageIsRead(u);
  }

  lemma ChatUsageIsRead(u: Usage)
    requires u.cacheWrite == 0
    ensures UsageFromChat(ChatUsage(u)) == Some(u)
  {
    UsageKeys(ChatUsage(u));
    DetailIsRead("cached_tokens", u.cacheRead);
    DetailIsRead("reasoning_tokens", u.reasoning);
  }

  lemma ResponsesUsageIsRead(u: Usage)
    requires u.cacheWrite == 0
    ensures UsageFromChat(ResponsesUsage(u)) == Some(u)
  {
    UsageKeys(ResponsesUsage(u));
    DetailIsRead("cached_tokens", u.cacheRead);
    DetailIsRead("reasoning_tokens", u.reasoning);
  }

  // ---------------------------------------------------------------------------------------------
  // Chat chunks
  // ---------------------------------------------------------------------------------------------

  /** What one chunk says. A chunk may have no usage report, an empty one (`null`), or one with numbers. */
  datatype Chunk = Chunk(thought: string, short: bool, text: string, pieces: seq<C.Fragment>,
                         finish: Option<FinishReason>, usage: Option<Option<Usage>>)

  function FinishName(f: FinishReason): string {
    match f
    case Stop => "stop"
    case ToolCalls => "tool_calls"
    case Length => "length"
    case ContentFilter => "content_filter"
  }

  function PieceJson(f: C.Fragment): Json {
    Obj(map["index" := Num(f.index),
            "function" := Obj(Field("name", Quoted(f.name)) + Field("arguments", Quoted(f.args)))]
        + Field("id", Quoted(f.id)))
  }

  function DeltaJson(c: Chunk): Json {
    Obj(map["content" := Str(c.text), "tool_calls" := Arr(Map(PieceJson, c.pieces)),
            if c.short then "reasoning" else "reasoning_content" := Str(c.thought)])
  }

  function UsageField(u: Option<Option<Usage>>): map<string, Json> {
    match u
    case None => map[]
    case Some(None) => map["usage" := Null]
    case Some(Some(u)) => map["usage" := ChatUsage(u)]
  }

  function ChoiceJson(c: Chunk): Json {
    Obj(map["delta" := DeltaJson(c),
            "finish_reason" := if c.finish.Some? then Str(FinishName(c.finish.value)) else Null])
  }

  function ChunkJson(c: Chunk): Json { Obj(map["choices" := Arr([ChoiceJson(c)])] + UsageField(c.usage)) }

  lemma PieceIsRead(f: C.Fragment)
    ensures C.FragmentOf(PieceJson(f)) == f
  {
  }

  /** The atoms of a chunk: its thought, its text with the forged wrappers taken out, its fragments. */
  function Spoken(scrub: string -> string): Chunk -> seq<C.Atom> {
    (c: Chunk) =>
      (if c.thought == "" then [] else [C.Think(c.thought)])
      + (if c.text == "" || scrub(c.text) == "" then [] else [C.Say(scrub(c.text))])
      + Map((f: C.Fragment) => C.Piece(f), c.pieces)
  }

  lemma DeltaIsRead(scrub: string -> string, c: Chunk)
    ensures C.AtomsIn(scrub, DeltaJson(c)) == Spoken(scrub)(c)
  {
    var delta := DeltaJson(c);
    assert C.CallsIn(delta) == Map(PieceJson, c.pieces);
    forall i | 0 <= i < |c.pieces|
      ensures C.PieceOf(C.CallsIn(delta)[i]) == C.Piece(c.pieces[i])
    {
      PieceIsRead(c.pieces[i]);
    }
    assert Map(C.PieceOf, C.CallsIn(delta)) == Map((f: C.Fragment) => C.Piece(f), c.pieces);
    assert C.ThinkingIn(delta) == c.thought;
    assert C.WordsIn(scrub, delta) == (if c.thought == "" then [] else [C.Think(c.thought)])
                                      + (if c.text == "" || scrub(c.text) == "" then [] else [C.Say(scrub(c.text))]);
  }

  /** What the last chunk that says something of it says. */
  function LastFinish(cs: seq<Chunk>): Option<FinishReason> {
    if cs == [] then None else C.Later(cs[|cs| - 1].finish, LastFinish(cs[..|cs| - 1]))
  }

  function LastUsage(cs: seq<Chunk>): Option<Usage> {
    if cs == [] then None else cs[|cs| - 1].usage.GetOr(LastUsage(cs[..|cs| - 1]))
  }

  predicate Plain(c: Chunk) { c.usage.Some? && c.usage.value.Some? ==> c.usage.value.value.cacheWrite == 0 }

  lemma ChunkFields(c: Chunk)
    requires Plain(c)
    ensures C.ChoiceOf(ChunkJson(c)) == Some(ChoiceJson(c))
    ensures Get(ChunkJson(c), "usage").Some? <==> c.usage.Some?
    ensures c.usage.Some? ==> UsageFromChat(Get(ChunkJson(c), "usage").value) == c.usage.value
    ensures Get(ChoiceJson(c), "delta") == Some(DeltaJson(c))
    ensures AsStr(Get(ChoiceJson(c), "finish_reason"))
         == if c.finish.Some? then Some(FinishName(c.finish.value)) else None
    ensures c.finish.Some? ==> C.MapFinish(FinishName(c.finish.value)) == c.finish.value
  {
    if c.usage.Some? && c.usage.value.Some? {
      UsageIsRead(c.usage.value.value);
    }
  }

  lemma ChunkIsRead(p: C.Provider, r: C.Reading, c: Chunk)
    requires Faithful(p.codec) && Plain(c)
    ensures C.ReadFrame(p, r, p.codec.toText(ChunkJson(c)))
         == C.Reading(r.atoms + Spoken(p.scrub)(c), C.Later(c.finish, r.finish), c.usage.GetOr(r.usage))
  {
    assert p.codec.fromText(p.codec.toText(ChunkJson(c))) == Some(ChunkJson(c));
    ChunkFields(c);
    DeltaIsRead(p.scrub, c);
  }

  /** The items of a stream of chunks, `[DONE]` at its end. */
  function ChunkItems(p: C.Provider, cs: seq<Chunk>): seq<C.FrameItem> {
    Map((c: Chunk) => Ok(p.codec.toText(ChunkJson(c))), cs)
  }

  /** `[DONE]` is no JSON. */
  ghost predicate NoneSaysDone(c: Codec) { forall s :: Text.Trim(s) == "[DONE]" ==> c.fromText(s) == None }

  lemma {:induction false} ChunksAreReadSoFar(p: C.Provider, cs: seq<Chunk>)
    requires Faithful(p.codec) && forall k :: 0 <= k < |cs| ==> Plain(cs[k])
    ensures C.ReadFrames(p, ChunkItems(p, cs))
         == C.Reading(FlatMap(Spoken(p.scrub), cs), LastFinish(cs), LastUsage(cs))
    decreases |cs|
  {
    if cs != [] {
      var n := |cs| - 1;
      ChunksAreReadSoFar(p, cs[..n]);
      assert ChunkItems(p, cs)[..n] == ChunkItems(p, cs[..n]);
      ChunkIsRead(p, C.ReadFrames(p, ChunkItems(p, cs[..n])), cs[n]);
      FlatMapPrefix(Spoken(p.scrub), cs, n);
      assert cs[..n + 1] == cs;
    }
  }

  lemma ChunksEndAtDone(p: C.Provider, cs: seq<Chunk>, done: string)
    requires Faithful(p.codec) && NoneSaysDone(p.codec) && Text.Trim(done) == "[DONE]"
    ensures C.EndAt(ChunkItems(p, cs) + [Ok(done)]) == |cs|
  {
    var items: seq<C.FrameItem> := ChunkItems(p, cs) + [Ok(done)];
    forall k | 0 <= k < |cs|
      ensures !C.Ends(items[k])
    {
      assert p.codec.fromText(p.codec.toText(ChunkJson(cs[k]))) == Some(ChunkJson(cs[k]));
    }
    assert C.Ends(items[|cs|]);
  }

  /** A stream of chunks is read as what they say: every thought, text and fragment in its order, the last finish
      reason and the last usage report. */
  lemma ChunksAreRead(p: C.Provider, cs: seq<Chunk>, done: string)
    requires Faithful(p.codec) && NoneSaysDone(p.codec) && Text.Trim(done) == "[DONE]"
    requires forall k :: 0 <= k < |cs| ==> Plain(cs[k])
    ensures C.Acted(p, ChunkItems(p, cs) + [Ok(done)])
         == C.Reading(FlatMap(Spoken(p.scrub), cs), LastFinish(cs), LastUsage(cs))
    ensures C.Completes(ChunkItems(p, cs) + [Ok(done)])
  {
    ChunksEndAtDone(p, cs, done);
    ChunksAreReadSoFar(p, cs);
    assert (ChunkItems(p, cs) + [Ok(done)])[..|cs|] == ChunkItems(p, cs);
  }

  lemma MapCons<A, B>(f: A -> B, xs: seq<A>)
    requires xs != []
    ensures Map(f, xs) == [f(xs[0])] + Map(f, xs[1..])
  {
  }

  function Scrubbed(scrub: string -> string): Chunk -> string {
    (c: Chunk) => if c.text == "" then "" else scrub(c.text)
  }

  lemma {:induction false} PiecesSayNothing(fs: seq<C.Fragment>)
    ensures FlatMap(C.SaidBy, Map((f: C.Fragment) => C.Piece(f), fs)) == ""
    ensures FlatMap(C.ThoughtBy, Map((f: C.Fragment) => C.Piece(f), fs)) == ""
  {
    if fs != [] {
      PiecesSayNothing(fs[1..]);
      MapCons((f: C.Fragment) => C.Piece(f), fs);
      FlatMapCons(C.SaidBy, C.Piece(fs[0]), Map((f: C.Fragment) => C.Piece(f), fs[1..]));
      FlatMapCons(C.ThoughtBy, C.Piece(fs[0]), Map((f: C.Fragment) => C.Piece(f), fs[1..]));
    }
  }

  lemma ChunkSays(scrub: string -> string, c: Chunk)
    ensures FlatMap(C.SaidBy, Spoken(scrub)(c)) == Scrubbed(scrub)(c)
    ensures FlatMap(C.ThoughtBy, Spoken(scrub)(c)) == c.thought
  {
    var thought := if c.thought == "" then [] else [C.Think(c.thought)];
    var text := if c.text == "" || scrub(c.text) == "" then [] else [C.Say(scrub(c.text))];
    var pieces := Map((f: C.Fragment) => C.Piece(f), c.pieces);
    PiecesSayNothing(c.pieces);
    FlatMapThree(C.SaidBy, thought, text, pieces);
    FlatMapThree(C.ThoughtBy, thought, text, pieces);
    FlatMapOne(C.SaidBy, C.Think(c.thought));
    FlatMapOne(C.ThoughtBy, C.Think(c.thought));
    FlatMapOne(C.SaidBy, C.Say(scrub(c.text)));
    FlatMapOne(C.ThoughtBy, C.Say(scrub(c.text)));
  }

  lemma {:induction false} ChunksSay(scrub: string -> string, cs: seq<Chunk>)
    ensures FlatMap(C.SaidBy, FlatMap(Spoken(scrub), cs)) == FlatMap(Scrubbed(scrub), cs)
    ensures FlatMap(C.ThoughtBy, FlatMap(Spoken(scrub), cs)) == FlatMap((c: Chunk) => c.thought, cs)
  {
    if cs != [] {
      ChunksSay(scrub, cs[1..]);
      ChunkSays(scrub, cs[0]);
      FlatMapAppend(C.SaidBy, Spoken(scrub)(cs[0]), FlatMap(Spoken(scrub), cs[1..]));
      FlatMapAppend(C.ThoughtBy, Spoken(scrub)(cs[0]), FlatMap(Spoken(scrub), cs[1..]));
    }
  }

  lemma EndsWithItsDelta(p: C.Provider, items: seq<C.FrameItem>)
    requires C.Completes(items)
    ensures var out := C.Parsed(p, items);
            && out.error == None && |out.events| >= 2 && out.events[0] == MessageStart
            && out.events[|out.events| - 2..]
               == [MessageDelta(C.Acted(p, items).finish, C.Acted(p, items).usage), MessageStop]
  {
  }

  /** What a consumer of the stream gets: every thought, every text with the forged wrappers taken out, and at the
      end the last finish reason and the last usage report. */
  lemma ChunksAreHeard(p: C.Provider, cs: seq<Chunk>, done: string)
    requires Faithful(p.codec) && NoneSaysDone(p.codec) && Text.Trim(done) == "[DONE]"
    requires forall k :: 0 <= k < |cs| ==> Plain(cs[k])
    ensures var out := C.Parsed(p, ChunkItems(p, cs) + [Ok(done)]);
            && FlatMap(C.TextPart, out.events) == FlatMap(Scrubbed(p.scrub), cs)
            && FlatMap(C.ThinkingPart, out.events) == FlatMap((c: Chunk) => c.thought, cs)
            && out.error == None && |out.events| >= 2 && out.events[0] == MessageStart
            && out.events[|out.events| - 2..] == [MessageDelta(LastFinish(cs), LastUsage(cs)), MessageStop]
  {
    ChunksAreRead(p, cs, done);
    ChunksSay(p.scrub, cs);
    C.WordsGoOutOnce(p, ChunkItems(p, cs) + [Ok(done)]);
    EndsWithItsDelta(p, ChunkItems(p, cs) + [Ok(done)]);
  }

  // ---------------------------------------------------------------------------------------------
  // Responses answers
  // ---------------------------------------------------------------------------------------------

  datatype Words = Words(text: string) | Refusal(why: string)

  /** What one output item says. */
  datatype Item =
    | Thought(id: string, summary: seq<string>)
    | Saying(parts: seq<Words>)
    | Calling(id: string, name: string, arguments: string)
    | Search(id: string)

  function SummaryJson(t: string): Json { Obj(map["type" := Str("summary_text"), "text" := Str(t)]) }

  function WordsJson(w: Words): Json {
    match w
    case Words(t) => Obj(map["type" := Str("output_text"), "text" := Str(t)])
    case Refusal(why) => Obj(map["type" := Str("refusal"), "refusal" := Str(why)])
  }

  function ItemJson(i: Item): Json {
    match i
    case Thought(id, summary) =>
      Obj(map["type" := Str("reasoning"), "id" := Str(id), "summary" := Arr(Map(SummaryJson, summary))])
    case Saying(parts) =>
      Obj(map["type" := Str("message"), "role" := Str("assistant"), "content" := Arr(Map(WordsJson, parts))])
    case Calling(id, name, arguments) =>
      Obj(map["type" := Str("function_call"), "call_id" := Str(id), "name" := Str(name), "arguments" := Str(arguments)])
    case Search(id) => Obj(map["type" := Str("web_search_call"), "id" := Str(id)])
  }

  /** A whole answer: its items, why it was cut short if it was, and what it cost. */
  datatype Body = Body(id: string, items: seq<Item>, cut: Option<string>, usage: Option<Usage>)

  function UsageJson(u: Option<Usage>): Option<Json> { if u.Some? then Some(ResponsesUsage(u.value)) else None }

  function BodyJson(b: Body): Json {
    Obj(map["id" := Str(b.id), "output" := Arr(Map(ItemJson, b.items)),
            "status" := Str(if b.cut.Some? then "incomplete" else "completed"),
            "incomplete_details" := if b.cut.Some? then Obj(map["reason" := Str(b.cut.value)]) else Null]
        + Field("usage", UsageJson(b.usage)))
  }

  function Uttered(w: Words): string { if w.Words? then w.text else "" }

  function SaidIn(i: Item): string { if i.Saying? then FlatMap(Uttered, i.parts) else "" }

  function CalledIn(i: Item): seq<ToolCall> {
    if i.Calling? then [ToolCall(Some(i.id), i.name, i.arguments)] else []
  }

  function ThoughtIn(i: Item): seq<Json> { if i.Thought? then [ItemJson(i)] else [] }

  /** The summary of the last thought that has one. */
  function LastThought(items: seq<Item>): Option<string> {
    if items == [] then None
    else
      var i := items[|items| - 1];
      if i.Thought? && Concat(i.summary) != "" then Some(Concat(i.summary)) else LastThought(items[..|items| - 1])
  }

  lemma {:induction false} SummaryIsRead(summary: seq<string>)
    ensures FlatMap((part: Json) => StrAt(part, "text", ""), Map(SummaryJson, summary)) == Concat(summary)
  {
    if summary != [] {
      SummaryIsRead(summary[1..]);
      MapCons(SummaryJson, summary);
      FlatMapCons((part: Json) => StrAt(part, "text", ""), SummaryJson(summary[0]), Map(SummaryJson, summary[1..]));
      assert StrAt(SummaryJson(summary[0]), "text", "") == summary[0];
    }
  }

  lemma {:induction false} PartsAreRead(parts: seq<Words>)
    ensures FlatMap(PartText, Map(WordsJson, parts)) == FlatMap(Uttered, parts)
  {
    if parts != [] {
      PartsAreRead(parts[1..]);
      MapCons(WordsJson, parts);
      FlatMapCons(PartText, WordsJson(parts[0]), Map(WordsJson, parts[1..]));
    }
  }

  lemma ItemIsRead(i: Item)
    ensures ItemText(ItemJson(i)) == SaidIn(i) && ItemCall(ItemJson(i)) == CalledIn(i)
    ensures ItemReasoning(ItemJson(i)) == ThoughtIn(i)
    ensures TypeOf(ItemJson(i)) == "reasoning" <==> i.Thought?
    ensures i.Thought? ==> SummaryOf(ItemJson(i)) == Concat(i.summary)
  {
    match i
    case Thought(_, summary) => SummaryIsRead(summary);
    case Saying(parts) => PartsAreRead(parts);
    case Calling(_, _, _) =>
    case Search(_) =>
  }

  lemma {:induction false} ItemsAreRead(items: seq<Item>)
    ensures OutputText(Map(ItemJson, items)) == FlatMap(SaidIn, items)
    ensures OutputCalls(Map(ItemJson, items)) == FlatMap(CalledIn, items)
    ensures ReasoningItems(Map(ItemJson, items)) == FlatMap(ThoughtIn, items)
  {
    if items != [] {
      var rest := Map(ItemJson, items[1..]);
      ItemsAreRead(items[1..]);
      ItemIsRead(items[0]);
      MapCons(ItemJson, items);
      FlatMapCons(ItemText, ItemJson(items[0]), rest);
      FlatMapCons(ItemCall, ItemJson(items[0]), rest);
      FlatMapCons(ItemReasoning, ItemJson(items[0]), rest);
    }
  }

  lemma {:induction false} ThoughtsAreRead(items: seq<Item>)
    ensures ReasoningText(Map(ItemJson, items)) == LastThought(items)
  {
    if items != [] {
      var n := |items| - 1;
      ThoughtsAreRead(items[..n]);
      ItemIsRead(items[n]);
      assert Map(ItemJson, items)[..n] == Map(ItemJson, items[..n]);
    }
  }

  /** Why an answer ended: for its calls before all else; cut for length or for its content; else by itself. */
  predicate EndsFor(b: Body, finish: FinishReason) {
    match finish
    case ToolCalls => FlatMap(CalledIn, b.items) != []
    case Length => FlatMap(CalledIn, b.items) == [] && b.cut == Some("max_output_tokens")
    case ContentFilter => FlatMap(CalledIn, b.items) == [] && b.cut == Some("content_filter")
    case Stop => FlatMap(CalledIn, b.items) == [] && b.cut !in [Some("max_output_tokens"), Some("content_filter")]
  }

  lemma BodyFields(b: Body)
    ensures Get(BodyJson(b), "output") == Some(Arr(Map(ItemJson, b.items)))
    ensures Get(BodyJson(b), "id") == Some(Str(b.id)) && Get(BodyJson(b), "usage") == UsageJson(b.usage)
    ensures StrAt(BodyJson(b), "status", "completed") == if b.cut.Some? then "incomplete" else "completed"
    ensures IncompleteReason(BodyJson(b)) == b.cut.GetOr("")
  {
  }

  lemma UsageFieldIsRead(b: Body)
    requires b.usage.Some? ==> b.usage.value.cacheWrite == 0
    ensures UsageOf(BodyJson(b)) == b.usage
  {
    BodyFields(b);
    if b.usage.Some? {
      UsageIsRead(b.usage.value);
    }
  }

  lemma NormalizedIs(raw: Json, output: seq<Json>)
    requires Get(raw, "output") == Some(Arr(output))
    ensures Normalized(raw)
         == Ok(Answer(if OutputText(output) == "" then None else Some(OutputText(output)),
                      if OutputCalls(output) == [] then None else Some(OutputCalls(output)),
                      FinishOf(raw, OutputCalls(output) != []), ReasoningText(output), UsageOf(raw),
                      Stash(raw, ReasoningItems(output))))
  {
  }

  lemma EndIsRead(b: Body)
    ensures EndsFor(b, FinishOf(BodyJson(b), FlatMap(CalledIn, b.items) != []))
  {
    BodyFields(b);
  }

  lemma StashIsRead(raw: Json, id: string, items: seq<Json>)
    requires Get(raw, "id") == Some(Str(id))
    ensures GetIn(Stash(raw, items), "response_id") == Some(Str(id))
    ensures AsArr(GetIn(Stash(raw, items), "responses_reasoning_items")) == Some(items)
  {
  }

  lemma EntryKeepsTheStash(a: Answer)
    ensures StashedReasoning(AssistantMessage(a))
         == AsArr(GetIn(a.providerData, "responses_reasoning_items")).GetOr([])
  {
  }

  /** An answer is read as what it says: the text of its messages in order, its calls, the last summary, its cost,
      why it ended; and every reasoning item is stashed as it came, for the transcript entry to hold. */
  lemma AnswerIsRead(b: Body)
    requires b.usage.Some? ==> b.usage.value.cacheWrite == 0
    ensures Normalized(BodyJson(b)).Ok?
    ensures var a, words, calls := Normalized(BodyJson(b)).value, FlatMap(SaidIn, b.items), FlatMap(CalledIn, b.items);
            && a.content == (if words == "" then None else Some(words))
            && a.toolCalls == (if calls == [] then None else Some(calls))
            && a.reasoning == LastThought(b.items) && a.usage == b.usage && EndsFor(b, a.finish)
            && StashedReasoning(AssistantMessage(a)) == FlatMap(ThoughtIn, b.items)
            && GetIn(a.providerData, "response_id") == Some(Str(b.id))
  {
    var raw, output := BodyJson(b), Map(ItemJson, b.items);
    BodyFields(b);
    ItemsAreRead(b.items);
    ThoughtsAreRead(b.items);
    UsageFieldIsRead(b);
    EndIsRead(b);
    Reads(b, raw, output);
  }

  lemma Reads(b: Body, raw: Json, output: seq<Json>)
    requires Get(raw, "output") == Some(Arr(output)) && Get(raw, "id") == Some(Str(b.id))
    ensures Normalized(raw).Ok?
    ensures var a := Normalized(raw).value;
            && a.content == (if OutputText(output) == "" then None else Some(OutputText(output)))
            && a.toolCalls == (if OutputCalls(output) == [] then None else Some(OutputCalls(output)))
            && a.reasoning == ReasoningText(output) && a.usage == UsageOf(raw)
            && a.finish == FinishOf(raw, OutputCalls(output) != [])
            && StashedReasoning(AssistantMessage(a)) == ReasoningItems(output)
            && GetIn(a.providerData, "response_id") == Some(Str(b.id))
  {
    NormalizedIs(raw, output);
    StashIsRead(raw, b.id, ReasoningItems(output));
    EntryKeepsTheStash(Normalized(raw).value);
  }

  // ---------------------------------------------------------------------------------------------
  // Responses events
  // ---------------------------------------------------------------------------------------------

  /** The event that says this; `raw` picks the other of two events that say the same. */
  function EventName(g: Signal, raw: bool): string {
    match g
    case Created => "response.created"
    case CallAdded(_, _) => "response.output_item.added"
    case ReasoningAdded => "response.output_item.added"
    case TextPartAdded => "response.content_part.added"
    case TextFragment(_) => "response.output_text.delta"
    case TextDone => "response.output_text.done"
    case ArgsFragment(_) => "response.function_call_arguments.delta"
    case ItemDone => "response.output_item.done"
    case ReasoningFragment(_) =>
      if raw then "response.reasoning_text.delta" else "response.reasoning_summary_text.delta"
    case ReasoningDone => "response.reasoning_summary_text.done"
    case Finished(_, incomplete) => if incomplete then "response.incomplete" else "response.completed"
    case Failed(_) => if raw then "error" else "response.failed"
    case Noise => "response.in_progress"
  }

  function EventFields(g: Signal, raw: bool): map<string, Json> {
    match g
    case CallAdded(id, name) =>
      map["item" := Obj(map["type" := Str("function_call"), "call_id" := Str(id), "name" := Str(name)])]
    case ReasoningAdded => map["item" := Obj(map["type" := Str("reasoning")])]
    case TextPartAdded => map["part" := Obj(map["type" := Str("output_text")])]
    case TextFragment(t) => Field("delta", Quoted(t))
    case ArgsFragment(t) => Field("delta", Quoted(t))
    case ReasoningFragment(t) => Field("delta", Quoted(t))
    case Finished(resp, _) => map["response" := resp]
    case Failed(m) =>
      if raw then map["message" := Str(m)]
      else map["response" := Obj(map["error" := Obj(map["message" := Str(m)])])]
    case _ => map[]
  }

  /** The frame that says this, with the event's name on its own line or in the data. */
  function EventFrame(g: Signal, raw: bool, named: bool): JsonFrame {
    JsonFrame(if named then Some(EventName(g, raw)) else None,
              Obj(EventFields(g, raw)["type" := Str(EventName(g, raw))]))
  }

  lemma KindIsTheName(g: Signal, raw: bool, named: bool)
    ensures Kind(EventFrame(g, raw, named)) == EventName(g, raw)
  {
  }

  lemma FieldIsThere(g: Signal, raw: bool, named: bool, key: string)
    requires key != "type"
    ensures Get(EventFrame(g, raw, named).data, key)
         == if key in EventFields(g, raw) then Some(EventFields(g, raw)[key]) else None
  {
  }

  lemma ItemEventIsRead(g: Signal, raw: bool, named: bool)
    requires g.CallAdded? || g.ReasoningAdded? || g.TextPartAdded?
    ensures SignalOf(EventFrame(g, raw, named)) == g
  {
    KindIsTheName(g, raw, named);
  }

  lemma FragmentIs(f: JsonFrame, t: Option<string>)
    requires AsStr(Get(f.data, "delta")) == t
    ensures Kind(f) == "response.output_text.delta" ==> SignalOf(f) == TextFragment(t)
    ensures Kind(f) == "response.function_call_arguments.delta" ==> SignalOf(f) == ArgsFragment(t)
    ensures Kind(f) in ["response.reasoning_summary_text.delta", "response.reasoning_text.delta"] ==>
              SignalOf(f) == ReasoningFragment(t)
  {
  }

  lemma FragmentEventIsRead(g: Signal, raw: bool, named: bool)
    requires g.TextFragment? || g.ArgsFragment? || g.ReasoningFragment?
    ensures SignalOf(EventFrame(g, raw, named)) == g
  {
    KindIsTheName(g, raw, named);
    FieldIsThere(g, raw, named, "delta");
    FragmentIs(EventFrame(g, raw, named), if g.ArgsFragment? then g.partial else g.text);
  }

  lemma FinishIs(f: JsonFrame, resp: Json)
    requires Get(f.data, "response") == Some(resp)
    ensures Kind(f) == "response.completed" ==> SignalOf(f) == Finished(resp, false)
    ensures Kind(f) == "response.incomplete" ==> SignalOf(f) == Finished(resp, true)
  {
  }

  lemma FinishEventIsRead(g: Signal, raw: bool, named: bool)
    requires g.Finished?
    ensures SignalOf(EventFrame(g, raw, named)) == g
  {
    KindIsTheName(g, raw, named);
    FieldIsThere(g, raw, named, "response");
    FinishIs(EventFrame(g, raw, named), g.resp);
  }

  lemma FailureIs(f: JsonFrame, m: string)
    requires Kind(f) == "response.failed" && GetIn(GetIn(Get(f.data, "response"), "error"), "message") == Some(Str(m))
    ensures SignalOf(f) == Failed(m)
  {
  }

  lemma ErrorIs(f: JsonFrame, m: string)
    requires Kind(f) == "error" && Get(f.data, "message") == Some(Str(m))
    ensures SignalOf(f) == Failed(m)
  {
  }

  lemma FailureIsRead(m: string, named: bool)
    ensures SignalOf(EventFrame(Failed(m), false, named)) == Failed(m)
  {
    var error := Obj(map["message" := Str(m)]);
    KindIsTheName(Failed(m), false, named);
    FieldIsThere(Failed(m), false, named, "response");
    assert Get(Obj(map["error" := error]), "error") == Some(error) && Get(error, "message") == Some(Str(m));
    FailureIs(EventFrame(Failed(m), false, named), m);
  }

  lemma ErrorIsRead(m: string, named: bool)
    ensures SignalOf(EventFrame(Failed(m), true, named)) == Failed(m)
  {
    KindIsTheName(Failed(m), true, named);
    FieldIsThere(Failed(m), true, named, "message");
    ErrorIs(EventFrame(Failed(m), true, named), m);
  }

  lemma BareIs(f: JsonFrame)
    ensures Kind(f) == "response.created" ==> SignalOf(f) == Created
    ensures Kind(f) == "response.output_text.done" ==> SignalOf(f) == TextDone
    ensures Kind(f) == "response.output_item.done" ==> SignalOf(f) == ItemDone
    ensures Kind(f) == "response.reasoning_summary_text.done" ==> SignalOf(f) == ReasoningDone
    ensures Kind(f) == "response.in_progress" ==> SignalOf(f) == Noise
  {
  }

  lemma BareEventIsRead(g: Signal, raw: bool, named: bool)
    requires g in {Created, TextDone, ItemDone, ReasoningDone, Noise}
    ensures SignalOf(EventFrame(g, raw, named)) == g
  {
    KindIsTheName(g, raw, named);
    BareIs(EventFrame(g, raw, named));
  }

  /** Every event is read as what it says. */
  lemma EventIsRead(g: Signal, raw: bool, named: bool)
    ensures SignalOf(EventFrame(g, raw, named)) == g
  {
    if g.CallAdded? || g.ReasoningAdded? || g.TextPartAdded? {
      ItemEventIsRead(g, raw, named);
    } else if g.TextFragment? || g.ArgsFragment? || g.ReasoningFragment? {
      FragmentEventIsRead(g, raw, named);
    } else if g.Finished? {
      FinishEventIsRead(g, raw, named);
    } else if g.Failed? {
      FailureIsRead(g.message, named);
      ErrorIsRead(g.message, named);
    } else {
      BareEventIsRead(g, raw, named);
    }
  }

  const HEARD := [
    "response.created", "response.output_item.added", "response.content_part.added", "response.output_text.delta",
    "response.output_text.done", "response.function_call_arguments.delta", "response.output_item.done",
    "response.reasoning_summary_text.delta", "response.reasoning_text.delta",
    "response.reasoning_summary_text.done", "response.completed", "response.incomplete", "response.failed", "error"]

  /** And an event of any other name as nothing. */
  lemma OtherEventsAreNoise(f: JsonFrame)
    requires Kind(f) !in HEARD
    ensures SignalOf(f) == Noise
  {
  }

  predicate Says(f: JsonFrame, g: Signal) { exists raw, named :: f == EventFrame(g, raw, named) }

  /** The frames say these things one by one. */
  predicate Tell(frames: seq<JsonFrame>, gs: seq<Signal>) {
    |frames| == |gs| && forall k :: 0 <= k < |gs| ==> Says(frames[k], gs[k])
  }

  lemma {:induction false} TellingIsHeard(frames: seq<JsonFrame>, gs: seq<Signal>)
    requires Tell(frames, gs) && forall k :: 0 <= k < |gs| ==> gs[k] != Noise && gs[k] != Created
    ensures Audible(frames) == gs
  {
    if gs != [] {
      assert Says(frames[0], gs[0]);
      var raw, named :| frames[0] == EventFrame(gs[0], raw, named);
      EventIsRead(gs[0], raw, named);
      forall k | 0 <= k < |gs[1..]|
        ensures Says(frames[1..][k], gs[1..][k])
      {
        assert Says(frames[k + 1], gs[k + 1]);
      }
      TellingIsHeard(frames[1..], gs[1..]);
    }
  }

  /** An answer that is told event by event is heard as what it says: its text, its calls and its cost; and as ending
      for the same reason as the answer read whole, unless it is cut short and yet has calls. */
  lemma ToldAnswerIsHeard(b: Body, sps: seq<Spelling>, frames: seq<JsonFrame>)
    requires b.usage.Some? ==> b.usage.value.cacheWrite == 0
    requires |sps| == |b.items| && forall k :: 0 <= k < |sps| ==> Spells(sps[k], ItemJson(b.items[k]))
    requires Tell(frames, FlatMap(SpeltSignals, sps) + [Finished(BodyJson(b), b.cut.Some?)])
    ensures var heard := HearAll(SILENCE, R.Parsed(Received(frames), START).events);
            && R.Parsed(Received(frames), START).error == None
            && heard.text == FlatMap(SaidIn, b.items) && heard.calls == Map(ReadCall, FlatMap(CalledIn, b.items))
            && heard.usage == b.usage
            && (heard.finish.Some? && EndsFor(b, heard.finish.value) <==>
                b.cut.None? || FlatMap(CalledIn, b.items) == [])
  {
    var raw, output := BodyJson(b), Map(ItemJson, b.items);
    BodyFields(b);
    ToldObjectIsHeard(raw, output, b.cut.Some?, sps, frames);
    ItemsAreRead(b.items);
    AnswerIsRead(b);
    HeardAs(b, HearAll(SILENCE, R.Parsed(Received(frames), START).events), Normalized(raw).value);
  }

  lemma ToldObjectIsHeard(raw: Json, output: seq<Json>, cut: bool, sps: seq<Spelling>, frames: seq<JsonFrame>)
    requires Get(raw, "output") == Some(Arr(output)) && (cut <==> StrAt(raw, "status", "completed") == "incomplete")
    requires |sps| == |output| && forall k :: 0 <= k < |sps| ==> Spells(sps[k], output[k])
    requires Tell(frames, FlatMap(SpeltSignals, sps) + [Finished(raw, cut)])
    ensures Normalized(raw).Ok? && R.Parsed(Received(frames), START).error == None
    ensures var heard, answer := HearAll(SILENCE, R.Parsed(Received(frames), START).events), Normalized(raw).value;
            && heard.text == answer.content.GetOr("") && heard.calls == Map(ReadCall, answer.toolCalls.GetOr([]))
            && heard.usage == answer.usage
            && (heard.finish == Some(answer.finish) <==> !(cut && OutputCalls(output) != []))
  {
    SpeltAreAudible(sps);
    TellingIsHeard(frames, FlatMap(SpeltSignals, sps) + [Finished(raw, cut)]);
    StreamAgreesWithObject(frames, sps, output, raw, cut);
  }

  lemma HeardAs(b: Body, heard: Heard, a: Answer)
    requires a.content == var words := FlatMap(SaidIn, b.items); if words == "" then None else Some(words)
    requires a.toolCalls == var calls := FlatMap(CalledIn, b.items); if calls == [] then None else Some(calls)
    requires EndsFor(b, a.finish) && a.usage == b.usage
    requires heard.text == a.content.GetOr("") && heard.calls == Map(ReadCall, a.toolCalls.GetOr([]))
    requires heard.usage == a.usage
    requires heard.finish == Some(a.finish) <==> !(b.cut.Some? && FlatMap(CalledIn, b.items) != [])
    ensures heard.text == FlatMap(SaidIn, b.items) && heard.calls == Map(ReadCall, FlatMap(CalledIn, b.items))
    ensures heard.usage == b.usage
    ensures heard.finish.Some? && EndsFor(b, heard.finish.value) <==> b.cut.None? || FlatMap(CalledIn, b.items) == []
  {
  }

  lemma {:induction false} SpeltAreAudible(sps: seq<Spelling>)
    ensures forall k :: 0 <= k < |FlatMap(SpeltSignals, sps)| ==>
                          FlatMap(SpeltSignals, sps)[k] != Noise && FlatMap(SpeltSignals, sps)[k] != Created
  {
    if sps != [] {
      SpeltAreAudible(sps[1..]);
      SpellingIsAudible(sps[0]);
      assert FlatMap(SpeltSignals, sps) == SpeltSignals(sps[0]) + FlatMap(SpeltSignals, sps[1..]);
    }
  }

  lemma SpellingIsAudible(sp: Spelling)
    ensures forall k :: 0 <= k < |SpeltSignals(sp)| ==> SpeltSignals(sp)[k] != Noise && SpeltSignals(sp)[k] != Created
  {
    if sp.MessageSpelt? {
      PartsAreAudible(sp.parts);
    }
  }

  lemma {:induction false} PartsAreAudible(parts: seq<Part>)
    ensures forall k :: 0 <= k < |FlatMap(PartSignals, parts)| ==>
                          FlatMap(PartSignals, parts)[k] != Noise && FlatMap(PartSignals, parts)[k] != Created
  {
    if parts != [] {
      PartsAreAudible(parts[1..]);
    }
  }
}
