/** Framing of a server-sent-event byte stream (qcue-rs/http/src/sse.rs).
    A chunk is either a piece of text, already decoded, or the transport error that ends the stream. */
module Sse {
  import opened Common
  import opened Text

  const MAX_SSE_BUFFER: nat := 10 * 1024 * 1024

  const SEPARATOR: string := ['\n', '\n']

  datatype Frame = Frame(event: Option<string>, data: string)

  datatype SseError = Overflow | Io(message: string)

  datatype Chunk = Piece(text: string) | Broken(message: string)

  type Item = Result<Frame, SseError>

  // ---------------------------------------------------------------------------------------------
  // Cutting text at blank lines
  // ---------------------------------------------------------------------------------------------

  predicate BlankAt(s: string, i: int) {
    0 <= i && i + 2 <= |s| && s[i] == '\n' && s[i + 1] == '\n'
  }

  /** Position of the first blank line at or after `i`, or |s|. */
  function FindBlank(s: string, i: nat): (r: nat)
    requires i <= |s|
    ensures i <= r <= |s|
    ensures r < |s| ==> BlankAt(s, r)
    ensures forall j :: i <= j < r ==> !BlankAt(s, j)
    decreases |s| - i
  {
    if i == |s| || BlankAt(s, i) then i else FindBlank(s, i + 1)
  }

  /** The raw frames of a text, without their separators, and what is left after the last separator. */
  datatype Cut = Cut(raws: seq<string>, rest: string)

  function CutFrames(s: string): Cut
    decreases |s|
  {
    var i := FindBlank(s, 0);
    if i == |s| then Cut([], s)
    else
      var tail := CutFrames(s[i + 2..]);
      Cut([s[..i]] + tail.raws, tail.rest)
  }

  /** Puts the separators back. */
  function Uncut(c: Cut): string
    decreases |c.raws|
  {
    if c.raws == [] then c.rest else c.raws[0] + SEPARATOR + Uncut(Cut(c.raws[1..], c.rest))
  }

  ghost predicate HasBlank(s: string) { exists i :: BlankAt(s, i) }

  /** No frame reaches past its own separator and no separator is left over. */
  ghost predicate CleanCut(c: Cut) {
    (forall k :: 0 <= k < |c.raws| ==> !HasBlank(c.raws[k] + ['\n'])) && !HasBlank(c.rest)
  }

  /** How a text with a first separator is cut. */
  lemma CutHead(raw: string, tail: string)
    requires !HasBlank(raw + ['\n'])
    ensures FindBlank(raw + SEPARATOR + tail, 0) == |raw|
    ensures CutFrames(raw + SEPARATOR + tail) == Cut([raw] + CutFrames(tail).raws, CutFrames(tail).rest)
  {
    var s := raw + SEPARATOR + tail;
    assert BlankAt(s, |raw|);
    forall j | 0 <= j < |raw| ensures !BlankAt(s, j) {
      assert BlankAt(s, j) ==> BlankAt(raw + ['\n'], j);
    }
    var r := FindBlank(s, 0);
    assert r == |raw|;
    assert s[..r] == raw;
    assert s[r + 2..] == tail;
  }

  /** A text without separator is all residue; any other text has a first separator. */
  lemma SplitFirst(s: string) returns (raw: string, tail: string)
    requires HasBlank(s)
    ensures !HasBlank(raw + ['\n']) && s == raw + SEPARATOR + tail
  {
    var r := FindBlank(s, 0);
    assert r < |s| by {
      var i :| BlankAt(s, i);
      assert r <= i;
    }
    raw, tail := s[..r], s[r + 2..];
    forall j ensures !BlankAt(raw + ['\n'], j) {
      assert BlankAt(raw + ['\n'], j) ==> BlankAt(s, j) && j < r;
    }
  }

  lemma CutNone(s: string)
    requires !HasBlank(s)
    ensures CutFrames(s) == Cut([], s)
  {
    var r := FindBlank(s, 0);
    assert !BlankAt(s, r);
  }

  lemma {:induction false} CutIsClean(s: string)
    ensures CleanCut(CutFrames(s)) && Uncut(CutFrames(s)) == s
    decreases |s|
  {
    if HasBlank(s) {
      var raw, tail := SplitFirst(s);
      CutHead(raw, tail);
      CutIsClean(tail);
      var c, t := CutFrames(s), CutFrames(tail);
      assert c.raws == [raw] + t.raws;
      assert c.raws[1..] == t.raws;
    } else {
      CutNone(s);
    }
  }

  /** CutFrames loses nothing, and it is the only clean way to cut the text. */
  lemma {:induction false} CutIsTheCleanCut(s: string, c: Cut)
    ensures CleanCut(c) && Uncut(c) == s <==> c == CutFrames(s)
    decreases |c.raws|
  {
    CutIsClean(s);
    if CleanCut(c) && Uncut(c) == s {
      if c.raws == [] {
        CutNone(s);
      } else {
        var tail := Cut(c.raws[1..], c.rest);
        assert CleanCut(tail) by {
          forall k | 0 <= k < |tail.raws| ensures !HasBlank(tail.raws[k] + ['\n']) {
            assert tail.raws[k] == c.raws[k + 1];
          }
        }
        CutIsTheCleanCut(Uncut(tail), tail);
        CutHead(c.raws[0], Uncut(tail));
        assert [c.raws[0]] + tail.raws == c.raws;
      }
    }
  }

  /** Cutting can be resumed: only the residue of the first part matters for the second. */
  lemma {:induction false} CutResumes(a: string, b: string)
    ensures CutFrames(a + b) ==
            Cut(CutFrames(a).raws + CutFrames(CutFrames(a).rest + b).raws, CutFrames(CutFrames(a).rest + b).rest)
    decreases |a|
  {
    if HasBlank(a) {
      var raw, tail := SplitFirst(a);
      CutHead(raw, tail);
      CutHead(raw, tail + b);
      Assoc(raw + SEPARATOR, tail, b);
      CutResumes(tail, b);
      Assoc([raw], CutFrames(tail).raws, CutFrames(CutFrames(tail).rest + b).raws);
    } else {
      CutNone(a);
      assert [] + CutFrames(a + b).raws == CutFrames(a + b).raws;
    }
  }

  /** The residue is the end of the text. */
  lemma {:induction false} RestIsSuffix(s: string) returns (before: string)
    ensures s == before + CutFrames(s).rest
    decreases |s|
  {
    if HasBlank(s) {
      var raw, tail := SplitFirst(s);
      CutHead(raw, tail);
      var inner := RestIsSuffix(tail);
      before := raw + SEPARATOR + inner;
      assert s == raw + SEPARATOR + (inner + CutFrames(tail).rest);
    } else {
      CutNone(s);
      before := "";
    }
  }

  // ---------------------------------------------------------------------------------------------
  // One frame
  // ---------------------------------------------------------------------------------------------

  /** Rust's `str::lines`: a final newline adds no line, and a carriage return goes with its newline. */
  function Lines(raw: string): seq<string>
    decreases |raw|
  {
    if raw == "" then []
    else
      var i := IndexOf(raw, '\n');
      if i == |raw| then [raw]
      else [if i > 0 && raw[i - 1] == '\r' then raw[..i - 1] else raw[..i]] + Lines(raw[i + 1..])
  }

  function StripPrefix(line: string, prefix: string): Option<string> {
    if prefix <= line then Some(line[|prefix|..]) else None
  }

  /** The values of the `data:` lines, in order. */
  function DataLines(lines: seq<string>): seq<string> {
    if lines == [] then []
    else
      var tail := DataLines(lines[1..]);
      match StripPrefix(lines[0], "data:")
      case Some(v) => [TrimStart(v)] + tail
      case None => tail
  }

  /** The value of the last `event:` line. */
  function EventName(lines: seq<string>): Option<string> {
    if lines == [] then None
    else
      match EventName(lines[1..])
      case Some(e) => Some(e)
      case None =>
        match StripPrefix(lines[0], "event:")
        case Some(v) => Some(Trim(v))
        case None => None
  }

  function FrameOf(raw: string): Option<Frame> {
    var data, event := DataLines(Lines(raw)), EventName(Lines(raw));
    if data == [] && event == None then None else Some(Frame(event, JoinLines(data)))
  }

  lemma {:induction false} FieldsAppend(a: seq<string>, b: seq<string>)
    ensures DataLines(a + b) == DataLines(a) + DataLines(b)
    ensures EventName(a + b) == if EventName(b).Some? then EventName(b) else EventName(a)
  {
    if a == [] {
      assert a + b == b;
    } else {
      assert (a + b)[0] == a[0] && (a + b)[1..] == a[1..] + b;
      FieldsAppend(a[1..], b);
    }
  }

  lemma FieldOf(line: string)
    ensures DataLines([line]) == if "data:" <= line then [TrimStart(line[5..])] else []
    ensures EventName([line]) == if "event:" <= line then Some(Trim(line[6..])) else None
  {
    assert [line][1..] == [];
  }

  method ParseFrame(raw: string) returns (frame: Option<Frame>)
    ensures frame == FrameOf(raw)
  {
    var event: Option<string> := None;
    var dataLines: seq<string> := [];
    var lines := Lines(raw);
    for i := 0 to |lines|
      invariant dataLines == DataLines(lines[..i])
      invariant event == EventName(lines[..i])
    {
      var line := lines[i];
      FieldsAppend(lines[..i], [line]);
      FieldOf(line);
      assert lines[..i] + [line] == lines[..i + 1];
      if "data:" <= line {
        assert line[0] == 'd';
        dataLines := dataLines + [TrimStart(line[5..])];
      } else if "event:" <= line {
        event := Some(Trim(line[6..]));
      }
    }
    assert lines[..|lines|] == lines;
    if dataLines == [] && event == None {
      return None;
    }
    frame := Some(Frame(event, JoinLines(dataLines)));
  }

  /** Lines with a newline each, some of them with a carriage return before it. */
  function Ended(ls: seq<string>, crs: seq<bool>): string
    requires |ls| == |crs|
  {
    if ls == [] then "" else ls[0] + (if crs[0] then "\r" else "") + "\n" + Ended(ls[1..], crs[1..])
  }

  predicate OneLine(l: string) { '\n' !in l && (l != "" ==> l[|l| - 1] != '\r') }

  lemma FirstEnds(l: string, cr: string, tail: string)
    requires OneLine(l) && (cr == "" || cr == "\r")
    ensures Lines(l + cr + "\n" + tail) == [l] + Lines(tail)
  {
    var raw, i := l + cr + "\n" + tail, |l + cr|;
    assert raw[i] == '\n' && forall k :: 0 <= k < i ==> raw[k] == (l + cr)[k];
    assert IndexOf(raw, '\n') == i;
    assert raw[i + 1..] == tail && raw[..|l|] == l;
    assert cr == "" && l != "" ==> raw[i - 1] == l[|l| - 1];
  }

  /** However its lines end, a frame reads the same. */
  lemma {:induction false} EitherLineEnd(ls: seq<string>, crs: seq<bool>)
    requires |ls| == |crs| && forall k :: 0 <= k < |ls| ==> OneLine(ls[k])
    ensures Lines(Ended(ls, crs)) == ls
    ensures FrameOf(Ended(ls, crs))
         == if DataLines(ls) == [] && EventName(ls).None? then None
            else Some(Frame(EventName(ls), JoinLines(DataLines(ls))))
  {
    if ls != [] {
      EitherLineEnd(ls[1..], crs[1..]);
      FirstEnds(ls[0], if crs[0] then "\r" else "", Ended(ls[1..], crs[1..]));
      assert ls == [ls[0]] + ls[1..];
    }
  }

  function FramesOf(raws: seq<string>): seq<Item> {
    if raws == [] then []
    else
      match FrameOf(raws[0])
      case Some(f) => [Ok(f)] + FramesOf(raws[1..])
      case None => FramesOf(raws[1..])
  }

  lemma SingleFrame(raw: string)
    ensures FramesOf([raw]) == match FrameOf(raw) case Some(f) => [Ok(f)] case None => []
  {
    assert [raw][1..] == [];
    assert FramesOf([raw][1..]) == [];
  }

  lemma {:induction false} FramesOfAppend(a: seq<string>, b: seq<string>)
    ensures FramesOf(a + b) == FramesOf(a) + FramesOf(b)
  {
    if a == [] {
      assert a + b == b;
    } else {
      assert (a + b)[0] == a[0] && (a + b)[1..] == a[1..] + b;
      FramesOfAppend(a[1..], b);
    }
  }

  /** What is left in the buffer when the stream ends still counts as a frame unless it is blank. */
  function LastFrame(rest: string): seq<Item> {
    if Trim(rest) == "" then [] else FramesOf([Trim(rest)])
  }

  // ---------------------------------------------------------------------------------------------
  // The whole stream
  // ---------------------------------------------------------------------------------------------

  function TextOf(chunks: seq<Chunk>): string {
    if chunks == [] then ""
    else (if chunks[0].Piece? then chunks[0].text else "") + TextOf(chunks[1..])
  }

  lemma {:induction false} TextOfAppend(a: seq<Chunk>, b: seq<Chunk>)
    ensures TextOf(a + b) == TextOf(a) + TextOf(b)
  {
    if a == [] {
      assert a + b == b;
    } else {
      assert (a + b)[0] == a[0] && (a + b)[1..] == a[1..] + b;
      TextOfAppend(a[1..], b);
    }
  }

  /** Chunk `k` ends the stream: it is an error, or the buffer it completes is over the cap. */
  predicate Fatal(chunks: seq<Chunk>, k: nat)
    requires k < |chunks|
  {
    chunks[k].Broken?
    || ByteLen(CutFrames(TextOf(chunks[..k])).rest + chunks[k].text) > MAX_SSE_BUFFER
  }

  /** The first fatal chunk at or after `k`, or |chunks|. */
  function FirstFatal(chunks: seq<Chunk>, k: nat): (r: nat)
    requires k <= |chunks|
    ensures k <= r <= |chunks|
    ensures r < |chunks| ==> Fatal(chunks, r)
    ensures forall j :: k <= j < r ==> !Fatal(chunks, j)
    decreases |chunks| - k
  {
    if k == |chunks| || Fatal(chunks, k) then k else FirstFatal(chunks, k + 1)
  }

  /** What a text means on its own, whatever the chunks it came in. */
  function Decode(text: string): seq<Item> {
    FramesOf(CutFrames(text).raws) + LastFrame(CutFrames(text).rest)
  }

  /** Every item the stream yields for these chunks. */
  function Yielded(chunks: seq<Chunk>): seq<Item> {
    var k := FirstFatal(chunks, 0);
    if k == |chunks| then Decode(TextOf(chunks))
    else
      FramesOf(CutFrames(TextOf(chunks[..k])).raws)
      + [Err(if chunks[k].Broken? then Io(chunks[k].message) else Overflow)]
  }

  /** Takes every complete frame out of the buffer. */
  method DrainFrames(full: string) returns (out: seq<Item>, buf: string)
    ensures out == FramesOf(CutFrames(full).raws) && buf == CutFrames(full).rest
  {
    out, buf := [], full;
    var idx := FindBlank(buf, 0);
    ghost var done: seq<string> := [];
    while idx < |buf|
      invariant idx == FindBlank(buf, 0)
      invariant CutFrames(full).raws == done + CutFrames(buf).raws
      invariant CutFrames(full).rest == CutFrames(buf).rest
      invariant out == FramesOf(done)
      decreases |buf|
    {
      var raw := buf[..idx];
      ghost var tail := CutFrames(buf[idx + 2..]);
      assert done + ([raw] + tail.raws) == (done + [raw]) + tail.raws;
      var frame := ParseFrame(raw);
      FramesOfAppend(done, [raw]);
      done := done + [raw];
      buf := buf[idx + 2..];
      if frame.Some? {
        out := out + [Ok(frame.value)];
      }
      idx := FindBlank(buf, 0);
    }
    assert done + [] == done;
  }

  lemma ChunkAdds(chunks: seq<Chunk>, n: nat)
    requires n < |chunks| && chunks[n].Piece?
    ensures var before, full := TextOf(chunks[..n]), CutFrames(TextOf(chunks[..n])).rest + chunks[n].text;
            CutFrames(TextOf(chunks[..n + 1]))
            == Cut(CutFrames(before).raws + CutFrames(full).raws, CutFrames(full).rest)
  {
    assert chunks[..n + 1] == chunks[..n] + [chunks[n]];
    TextOfAppend(chunks[..n], [chunks[n]]);
    assert [chunks[n]][1..] == [];
    assert TextOf([chunks[n]]) == chunks[n].text;
    CutResumes(TextOf(chunks[..n]), chunks[n].text);
  }

  /** What the loop of SseFrames holds after `n` chunks. */
  ghost predicate Consumed(chunks: seq<Chunk>, n: nat, buf: string, out: seq<Item>)
    requires n <= |chunks|
  {
    (forall j :: 0 <= j < n ==> !Fatal(chunks, j))
    && buf == CutFrames(TextOf(chunks[..n])).rest
    && out == FramesOf(CutFrames(TextOf(chunks[..n])).raws)
  }

  method TakeChunk(chunks: seq<Chunk>, n: nat, buf: string, out: seq<Item>)
    returns (failed: bool, newBuf: string, newOut: seq<Item>)
    requires n < |chunks| && Consumed(chunks, n, buf, out)
    ensures failed ==> newOut == Yielded(chunks)
    ensures !failed ==> Consumed(chunks, n + 1, newBuf, newOut)
  {
    if chunks[n].Broken? {
      FirstFatalIs(chunks, n);
      return true, buf, out + [Err(Io(chunks[n].message))];
    }
    newBuf := buf + chunks[n].text;
    if ByteLen(newBuf) > MAX_SSE_BUFFER {
      FirstFatalIs(chunks, n);
      return true, newBuf, out + [Err(Overflow)];
    }
    ChunkAdds(chunks, n);
    FramesOfAppend(CutFrames(TextOf(chunks[..n])).raws, CutFrames(newBuf).raws);
    var frames;
    frames, newBuf := DrainFrames(newBuf);
    failed, newOut := false, out + frames;
  }

  method SseFrames(chunks: seq<Chunk>) returns (out: seq<Item>)
    ensures out == Yielded(chunks)
  {
    out := [];
    var buf, n, failed := "", 0, false;
    while n < |chunks|
      invariant n <= |chunks| && Consumed(chunks, n, buf, out)
    {
      failed, buf, out := TakeChunk(chunks, n, buf, out);
      if failed {
        return;
      }
      n := n + 1;
    }
    assert chunks[..n] == chunks;
    FirstFatalIs(chunks, n);
    var last := FinishFrames(buf);
    out := out + last;
  }

  method FinishFrames(buf: string) returns (out: seq<Item>)
    ensures out == LastFrame(buf)
  {
    out := [];
    if Trim(buf) != "" {
      var frame := ParseFrame(Trim(buf));
      SingleFrame(Trim(buf));
      if frame.Some? {
        out := [Ok(frame.value)];
      }
    }
  }

  lemma FirstFatalIs(chunks: seq<Chunk>, k: nat)
    requires k <= |chunks|
    requires k < |chunks| ==> Fatal(chunks, k)
    requires forall j :: 0 <= j < k ==> !Fatal(chunks, j)
    ensures FirstFatal(chunks, 0) == k
  {
  }

  predicate Unbroken(chunks: seq<Chunk>) { forall k :: 0 <= k < |chunks| ==> chunks[k].Piece? }

  lemma {:induction false} FramesAreFine(raws: seq<string>)
    ensures forall i :: 0 <= i < |FramesOf(raws)| ==> FramesOf(raws)[i].Ok?
  {
    if raws != [] {
      FramesAreFine(raws[1..]);
    }
  }

  /** Chunk k makes what has not been framed yet longer than ten mebibytes. */
  predicate Floods(chunks: seq<Chunk>, k: nat)
    requires k < |chunks| && chunks[k].Piece?
  {
    ByteLen(CutFrames(TextOf(chunks[..k])).rest + chunks[k].text) > 10_485_760
  }

  lemma FloodedAt(chunks: seq<Chunk>, k: nat)
    requires k < |chunks| && Unbroken(chunks) && FirstFatal(chunks, 0) == k
    ensures Err(Overflow) in Yielded(chunks) && forall e :: Err(e) in Yielded(chunks) ==> e == Overflow
  {
    var frames := FramesOf(CutFrames(TextOf(chunks[..k])).raws);
    FramesAreFine(CutFrames(TextOf(chunks[..k])).raws);
    assert Yielded(chunks) == frames + [Err(Overflow)];
    assert Yielded(chunks)[|frames|] == Err(Overflow);
  }

  lemma NeverFlooded(chunks: seq<Chunk>)
    requires FirstFatal(chunks, 0) == |chunks|
    ensures forall e :: Err(e) !in Yielded(chunks)
  {
    FramesAreFine(CutFrames(TextOf(chunks)).raws);
    FramesAreFine([Trim(CutFrames(TextOf(chunks)).rest)]);
  }

  /** A stream that does not break off fails exactly if some chunk does. */
  lemma OverflowsExactlyIf(chunks: seq<Chunk>)
    requires Unbroken(chunks)
    ensures Err(Overflow) in Yielded(chunks) <==> exists k :: 0 <= k < |chunks| && Floods(chunks, k)
    ensures forall e :: Err(e) in Yielded(chunks) ==> e == Overflow
  {
    var k := FirstFatal(chunks, 0);
    if k < |chunks| {
      FloodedAt(chunks, k);
      assert Floods(chunks, k);
    } else {
      NeverFlooded(chunks);
      forall j | 0 <= j < |chunks|
        ensures !Floods(chunks, j)
      {
        assert !Fatal(chunks, j);
      }
    }
  }

  lemma TextAround(chunks: seq<Chunk>, k: nat)
    requires k < |chunks| && chunks[k].Piece?
    ensures TextOf(chunks) == TextOf(chunks[..k]) + (chunks[k].text + TextOf(chunks[k + 1..]))
  {
    assert chunks[..k] + chunks[k..] == chunks;
    assert chunks[k..][1..] == chunks[k + 1..];
    TextOfAppend(chunks[..k], chunks[k..]);
  }

  lemma NoLargerThanText(chunks: seq<Chunk>, k: nat)
    requires k < |chunks| && chunks[k].Piece?
    ensures ByteLen(CutFrames(TextOf(chunks[..k])).rest + chunks[k].text) <= ByteLen(TextOf(chunks))
  {
    var text, now, later := TextOf(chunks[..k]), chunks[k].text, TextOf(chunks[k + 1..]);
    var before := RestIsSuffix(text);
    var rest := CutFrames(text).rest;
    TextAround(chunks, k);
    ByteLenAppend(text, now + later);
    ByteLenAppend(now, later);
    ByteLenAppend(before, rest);
    ByteLenAppend(rest, now);
  }

  /** A stream whose text stays within the cap never overflows, however it is cut. */
  lemma WithinCapNeverFails(chunks: seq<Chunk>)
    requires Unbroken(chunks) && ByteLen(TextOf(chunks)) <= MAX_SSE_BUFFER
    ensures FirstFatal(chunks, 0) == |chunks|
  {
    forall k | 0 <= k < |chunks| ensures !Fatal(chunks, k) {
      NoLargerThanText(chunks, k);
    }
    FirstFatalIs(chunks, |chunks|);
  }

  /** The frames depend on the text alone, not on where the transport happened to cut it. */
  lemma ChunkingIsInvisible(a: seq<Chunk>, b: seq<Chunk>)
    requires Unbroken(a) && Unbroken(b) && TextOf(a) == TextOf(b)
    requires ByteLen(TextOf(a)) <= MAX_SSE_BUFFER
    ensures Yielded(a) == Yielded(b) == Decode(TextOf(a))
  {
    WithinCapNeverFails(a);
    WithinCapNeverFails(b);
  }

  // ---------------------------------------------------------------------------------------------
  // A sender and this receiver agree
  // ---------------------------------------------------------------------------------------------

  /** A line that survives the receiver's trimming of a field value. */
  predicate PlainLine(l: string) {
    l != "" ==> !IsWhitespace(l[0]) && l[|l| - 1] != '\r'
  }

  /** Frames a sender can express: data lines keep their ends, the event name is one trimmed line. */
  ghost predicate Sendable(f: Frame) {
    (forall k :: 0 <= k < |SplitLines(f.data)| ==> PlainLine(SplitLines(f.data)[k]))
    && (f.event.Some? ==> Trimmed(f.event.value) && '\n' !in f.event.value)
  }

  function DataFields(lines: seq<string>): seq<string> {
    if lines == [] then [] else ["data: " + lines[0]] + DataFields(lines[1..])
  }

  function Fields(f: Frame): seq<string> {
    (if f.event.Some? then ["event: " + f.event.value] else []) + DataFields(SplitLines(f.data))
  }

  /** The text a server writes for a frame, with its blank line. */
  function Send(f: Frame): string { JoinLines(Fields(f)) + SEPARATOR }

  function SendAll(fs: seq<Frame>): string {
    if fs == [] then "" else Send(fs[0]) + SendAll(fs[1..])
  }

  function Delivered(fs: seq<Frame>): seq<Item> {
    seq(|fs|, i requires 0 <= i < |fs| => Ok(fs[i]))
  }

  predicate WireLine(l: string) { l != "" && '\n' !in l && l[|l| - 1] != '\r' }

  lemma TrimStartPads(s: string)
    requires s != "" ==> !IsWhitespace(s[0])
    ensures TrimStart([' '] + s) == s
  {
    assert ([' '] + s)[1..] == s;
  }

  lemma DataFieldReads(line: string)
    requires PlainLine(line) && '\n' !in line
    ensures var field := "data: " + line;
            WireLine(field) && DataLines([field]) == [line] && EventName([field]) == None
  {
    var field := "data: " + line;
    FieldOf(field);
    assert field[0] == 'd' && field[5..] == [' '] + line;
    TrimStartPads(line);
  }

  lemma {:induction false} DataFieldsRead(lines: seq<string>)
    requires forall k :: 0 <= k < |lines| ==> PlainLine(lines[k]) && '\n' !in lines[k]
    ensures DataLines(DataFields(lines)) == lines && EventName(DataFields(lines)) == None
    ensures |DataFields(lines)| == |lines|
    ensures forall k :: 0 <= k < |lines| ==> WireLine(DataFields(lines)[k])
  {
    if lines != [] {
      DataFieldsRead(lines[1..]);
      DataFieldReads(lines[0]);
      FieldsAppend(["data: " + lines[0]], DataFields(lines[1..]));
      assert lines == [lines[0]] + lines[1..];
    }
  }

  lemma FieldsRead(f: Frame)
    requires Sendable(f)
    ensures |Fields(f)| >= 1
    ensures forall k :: 0 <= k < |Fields(f)| ==> WireLine(Fields(f)[k])
    ensures DataLines(Fields(f)) == SplitLines(f.data) && EventName(Fields(f)) == f.event
  {
    var data := DataFields(SplitLines(f.data));
    forall k | 0 <= k < |SplitLines(f.data)| ensures '\n' !in SplitLines(f.data)[k] {
      SplitLinesHoldNoNewline(f.data, k);
    }
    DataFieldsRead(SplitLines(f.data));
    if f.event.Some? {
      EventFieldReads(f.event.value);
      FieldsAppend(["event: " + f.event.value], data);
    } else {
      assert Fields(f) == data;
    }
  }

  lemma EventFieldReads(e: string)
    requires Trimmed(e) && '\n' !in e
    ensures var field := "event: " + e;
            WireLine(field) && DataLines([field]) == [] && EventName([field]) == Some(e)
  {
    var field := "event: " + e;
    FieldOf(field);
    assert field[0] == 'e' && field[..6] == "event:" && field[6..] == [' '] + e;
    TrimStartPads(e);
    assert e != "" ==> field[|field| - 1] == e[|e| - 1];
  }

  lemma FirstLine(line: string, tail: string)
    requires WireLine(line)
    ensures Lines(line + ['\n'] + tail) == [line] + Lines(tail)
  {
    var text, i := line + ['\n'] + tail, |line|;
    assert forall k :: 0 <= k < i ==> text[k] == line[k];
    assert text[i] == '\n' && text[i - 1] == line[i - 1];
    assert IndexOf(text, '\n') == i;
    assert text[..i] == line && text[i + 1..] == tail;
  }

  lemma OnlyLine(line: string)
    requires WireLine(line)
    ensures Lines(line) == [line]
  {
    assert IndexOf(line, '\n') == |line|;
  }

  lemma {:induction false} LinesOfJoin(ls: seq<string>)
    requires |ls| >= 1 && forall k :: 0 <= k < |ls| ==> WireLine(ls[k])
    ensures Lines(JoinLines(ls)) == ls
  {
    if |ls| == 1 {
      OnlyLine(ls[0]);
      assert ls == [ls[0]];
    } else {
      LinesOfJoin(ls[1..]);
      FirstLine(ls[0], JoinLines(ls[1..]));
      assert ls == [ls[0]] + ls[1..];
    }
  }

  lemma {:induction false} JoinHasNoBlank(ls: seq<string>)
    requires |ls| >= 1 && forall k :: 0 <= k < |ls| ==> WireLine(ls[k])
    ensures !HasBlank(JoinLines(ls) + ['\n'])
    ensures JoinLines(ls) != "" && JoinLines(ls)[0] != '\n'
  {
    var text := JoinLines(ls);
    if |ls| == 1 {
      assert forall j :: 0 <= j < |text| ==> text[j] != '\n' && (text + ['\n'])[j] == text[j];
    } else {
      var head, tail := ls[0], JoinLines(ls[1..]);
      JoinHasNoBlank(ls[1..]);
      assert text == head + ['\n'] + tail;
      forall j ensures !BlankAt(text + ['\n'], j) {
        assert 0 <= j < |head| ==> text[j] == head[j];
        assert BlankAt(text + ['\n'], j) && j > |head| ==> BlankAt(tail + ['\n'], j - |head| - 1);
      }
    }
  }

  lemma SentFrameReads(f: Frame)
    requires Sendable(f)
    ensures FrameOf(JoinLines(Fields(f))) == Some(f)
    ensures !HasBlank(JoinLines(Fields(f)) + ['\n'])
  {
    FieldsRead(f);
    LinesOfJoin(Fields(f));
    JoinHasNoBlank(Fields(f));
    SplitLinesJoins(f.data);
  }

  lemma {:induction false} SentStreamReads(fs: seq<Frame>)
    requires forall k :: 0 <= k < |fs| ==> Sendable(fs[k])
    ensures CutFrames(SendAll(fs)).rest == ""
    ensures FramesOf(CutFrames(SendAll(fs)).raws) == Delivered(fs)
  {
    if fs != [] {
      var raw, tail := JoinLines(Fields(fs[0])), SendAll(fs[1..]);
      SentFrameReads(fs[0]);
      SentStreamReads(fs[1..]);
      CutHead(raw, tail);
      var raws := CutFrames(SendAll(fs)).raws;
      assert raws == [raw] + CutFrames(tail).raws;
      assert raws[1..] == CutFrames(tail).raws;
      assert Delivered(fs) == [Ok(fs[0])] + Delivered(fs[1..]);
    }
  }

  /** Whatever frames a server sends and however the network cuts them, the client yields those frames. */
  lemma RoundTrip(fs: seq<Frame>, chunks: seq<Chunk>)
    requires forall k :: 0 <= k < |fs| ==> Sendable(fs[k])
    requires Unbroken(chunks) && TextOf(chunks) == SendAll(fs) && ByteLen(SendAll(fs)) <= MAX_SSE_BUFFER
    ensures Yielded(chunks) == Delivered(fs)
  {
    WithinCapNeverFails(chunks);
    SentStreamReads(fs);
    assert LastFrame("") == [];
  }
}
