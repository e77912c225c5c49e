/** Repairing the copy of the transcript that is sent to a provider: adjacent user or assistant messages
    are merged, tool results without a known call are dropped
    (qcue-rs/router/src/turn.rs, repair_role_alternation; qcue-rs/router/src/compress.rs,
    clean_orphan_tool_results). */
module Repair {
  import opened Common
  import opened Text
  import opened Protocol

  function Merge(last: Message, m: Message): Message {
    last.(content := Some(Trim(last.content.GetOr("") + "\n" + m.content.GetOr(""))))
  }

  predicate Mergeable(last: Message, m: Message) {
    last.role == m.role && (m.role == User || m.role == Assistant)
  }

  function Absorb(out: seq<Message>, m: Message): seq<Message> {
    if out != [] && Mergeable(out[|out| - 1], m) then out[|out| - 1 := Merge(out[|out| - 1], m)] else out + [m]
  }

  function Coalesce(out: seq<Message>, msgs: seq<Message>): seq<Message>
    decreases |msgs|
  {
    if msgs == [] then out else Coalesce(Absorb(out, msgs[0]), msgs[1..])
  }

  function CallIds(calls: seq<ToolCall>): set<string> {
    set call | call in calls && call.id.Some? :: call.id.value
  }

  function Ids(msgs: seq<Message>): set<string> {
    if msgs == [] then {} else CallIds(CallsOf(msgs[0])) + Ids(msgs[1..])
  }

  /** A tool result is kept when its id is among the known ones; any other message is kept. */
  predicate Kept(known: set<string>, m: Message) {
    m.role == Tool ==> m.toolCallId.Some? && m.toolCallId.value in known
  }

  function Clean(known: set<string>, msgs: seq<Message>): seq<Message>
    decreases |msgs|
  {
    if msgs == [] then []
    else
      var known' := known + CallIds(CallsOf(msgs[0]));
      (if Kept(known', msgs[0]) then [msgs[0]] else []) + Clean(known', msgs[1..])
  }

  function Repaired(msgs: seq<Message>): seq<Message> { Clean({}, Coalesce([], msgs)) }

  lemma {:induction false} CoalesceAppend(out: seq<Message>, a: seq<Message>, b: seq<Message>)
    ensures Coalesce(out, a + b) == Coalesce(Coalesce(out, a), b)
    decreases |a|
  {
    if a == [] {
      assert a + b == b;
    } else {
      assert (a + b)[0] == a[0] && (a + b)[1..] == a[1..] + b;
      CoalesceAppend(Absorb(out, a[0]), a[1..], b);
    }
  }

  lemma {:induction false} IdsAppend(a: seq<Message>, b: seq<Message>)
    ensures Ids(a + b) == Ids(a) + Ids(b)
  {
    if a == [] {
      assert a + b == b;
    } else {
      assert (a + b)[0] == a[0] && (a + b)[1..] == a[1..] + b;
      IdsAppend(a[1..], b);
    }
  }

  lemma {:induction false} CleanAppend(known: set<string>, a: seq<Message>, b: seq<Message>)
    ensures Clean(known, a + b) == Clean(known, a) + Clean(known + Ids(a), b)
    decreases |a|
  {
    if a == [] {
      assert a + b == b;
      assert known + Ids(a) == known;
    } else {
      assert (a + b)[0] == a[0] && (a + b)[1..] == a[1..] + b;
      var known' := known + CallIds(CallsOf(a[0]));
      CleanAppend(known', a[1..], b);
      IdsOfHead(known, a);
      Assoc(if Kept(known', a[0]) then [a[0]] else [], Clean(known', a[1..]), Clean(known + Ids(a), b));
    }
  }

  lemma IdsOfHead(known: set<string>, a: seq<Message>)
    requires a != []
    ensures known + CallIds(CallsOf(a[0])) + Ids(a[1..]) == known + Ids(a)
  {
  }

  lemma CleanOne(known: set<string>, m: Message)
    ensures Clean(known, [m]) == if Kept(known + CallIds(CallsOf(m)), m) then [m] else []
    ensures Ids([m]) == CallIds(CallsOf(m))
  {
    assert [m][1..] == [];
    assert Clean(known + CallIds(CallsOf(m)), [m][1..]) == [];
  }

  method CollectIds(calls: seq<ToolCall>, known: set<string>) returns (ids: set<string>)
    ensures ids == known + CallIds(calls)
  {
    ids := known;
    for k := 0 to |calls|
      invariant ids == known + CallIds(calls[..k])
    {
      assert calls[..k + 1] == calls[..k] + [calls[k]];
      if calls[k].id.Some? {
        ids := ids + {calls[k].id.value};
      }
    }
    assert calls[..|calls|] == calls;
  }

  lemma CleanPrefix(msgs: seq<Message>, i: nat)
    requires i < |msgs|
    ensures var known := Ids(msgs[..i]) + CallIds(CallsOf(msgs[i]));
            Ids(msgs[..i + 1]) == known
            && Clean({}, msgs[..i + 1]) == Clean({}, msgs[..i]) + (if Kept(known, msgs[i]) then [msgs[i]] else [])
  {
    assert msgs[..i + 1] == msgs[..i] + [msgs[i]];
    IdsAppend(msgs[..i], [msgs[i]]);
    CleanAppend({}, msgs[..i], [msgs[i]]);
    CleanOne({} + Ids(msgs[..i]), msgs[i]);
    assert {} + Ids(msgs[..i]) == Ids(msgs[..i]);
  }

  method CleanOrphanToolResults(msgs: seq<Message>) returns (out: seq<Message>)
    ensures out == Clean({}, msgs)
  {
    var known: set<string> := {};
    out := [];
    for i := 0 to |msgs|
      invariant known == Ids(msgs[..i]) && out == Clean({}, msgs[..i])
    {
      var m := msgs[i];
      CleanPrefix(msgs, i);
      known := CollectIds(CallsOf(m), known);
      if m.role == Tool {
        if m.toolCallId.Some? && m.toolCallId.value in known {
          out := out + [m];
        }
      } else {
        out := out + [m];
      }
    }
    assert msgs[..|msgs|] == msgs;
  }

  method RepairRoleAlternation(msgs: seq<Message>) returns (fixed: seq<Message>)
    ensures fixed == Repaired(msgs)
  {
    var out: seq<Message> := [];
    for i := 0 to |msgs|
      invariant out == Coalesce([], msgs[..i])
    {
      assert msgs[..i + 1] == msgs[..i] + [msgs[i]];
      CoalesceAppend([], msgs[..i], [msgs[i]]);
      assert [msgs[i]][1..] == [];
      var n := |out| - 1;
      if out != [] && out[n].role == msgs[i].role && (msgs[i].role == User || msgs[i].role == Assistant) {
        out := out[n := Merge(out[n], msgs[i])];
      } else {
        out := out + [msgs[i]];
      }
    }
    assert msgs[..|msgs|] == msgs;
    fixed := CleanOrphanToolResults(out);
  }

  // ---------------------------------------------------------------------------------------------
  // No word is lost
  // ---------------------------------------------------------------------------------------------

  /** The text without its white space. */
  function Squeezed(s: string): string {
    if s == "" then "" else (if IsWhitespace(s[0]) then "" else [s[0]]) + Squeezed(s[1..])
  }

  /** A character and who has said it. */
  datatype Spoken = Spoken(speaker: Role, c: char)

  function By(role: Role, s: string): seq<Spoken> { Map((c: char) => Spoken(role, c), s) }

  /** What the message says in the conversation. */
  function SaidIn(m: Message): seq<Spoken> {
    if m.role == User || m.role == Assistant then By(m.role, Squeezed(m.content.GetOr(""))) else []
  }

  function Said(msgs: seq<Message>): seq<Spoken> { FlatMap(SaidIn, msgs) }

  lemma {:induction false} SqueezedAppend(a: string, b: string)
    ensures Squeezed(a + b) == Squeezed(a) + Squeezed(b)
  {
    if a == "" {
      assert a + b == b;
    } else {
      assert (a + b)[0] == a[0] && (a + b)[1..] == a[1..] + b;
      SqueezedAppend(a[1..], b);
    }
  }

  lemma {:induction false} SqueezedStart(s: string)
    ensures Squeezed(TrimStart(s)) == Squeezed(s)
  {
    if s != "" && IsWhitespace(s[0]) {
      SqueezedStart(s[1..]);
    }
  }

  lemma SqueezedLast(s: string)
    requires s != ""
    ensures Squeezed(s) == Squeezed(s[..|s| - 1]) + (if IsWhitespace(s[|s| - 1]) then "" else [s[|s| - 1]])
  {
    var n := |s| - 1;
    assert s == s[..n] + [s[n]];
    SqueezedAppend(s[..n], [s[n]]);
    assert [s[n]][1..] == "";
    assert Squeezed([s[n]][1..]) == "";
  }

  lemma {:induction false} SqueezedEnd(s: string)
    ensures Squeezed(TrimEnd(s)) == Squeezed(s)
  {
    if s != "" && IsWhitespace(s[|s| - 1]) {
      SqueezedLast(s);
      SqueezedEnd(s[..|s| - 1]);
    }
  }

  lemma SqueezedTrim(s: string)
    ensures Squeezed(Trim(s)) == Squeezed(s)
  {
    SqueezedStart(s);
    SqueezedEnd(TrimStart(s));
  }

  lemma ByAppend(role: Role, a: string, b: string)
    ensures By(role, a + b) == By(role, a) + By(role, b)
  {
  }

  /** Two messages of one speaker say together what they said apart. */
  lemma MergeSaysBoth(last: Message, m: Message)
    requires Mergeable(last, m)
    ensures SaidIn(Merge(last, m)) == SaidIn(last) + SaidIn(m)
  {
    var a, b := last.content.GetOr(""), m.content.GetOr("");
    SqueezedTrim(a + "\n" + b);
    SqueezedAppend(a + "\n", b);
    SqueezedAppend(a, "\n");
    assert "\n"[1..] == "" && Squeezed("\n") == "";
    assert Squeezed(a) + "" == Squeezed(a);
    ByAppend(last.role, Squeezed(a), Squeezed(b));
  }

  lemma AbsorbSays(out: seq<Message>, m: Message)
    ensures Said(Absorb(out, m)) == Said(out) + SaidIn(m)
  {
    if out != [] && Mergeable(out[|out| - 1], m) {
      var n := |out| - 1;
      MergeSaysBoth(out[n], m);
      assert out == out[..n] + [out[n]] && Absorb(out, m) == out[..n] + [Merge(out[n], m)];
      FlatMapAppend(SaidIn, out[..n], [out[n]]);
      FlatMapAppend(SaidIn, out[..n], [Merge(out[n], m)]);
      FlatMapOne(SaidIn, out[n]);
      FlatMapOne(SaidIn, Merge(out[n], m));
    } else {
      FlatMapAppend(SaidIn, out, [m]);
      FlatMapOne(SaidIn, m);
    }
  }

  lemma {:induction false} CoalesceSays(out: seq<Message>, msgs: seq<Message>)
    ensures Said(Coalesce(out, msgs)) == Said(out) + Said(msgs)
    decreases |msgs|
  {
    if msgs == [] {
      assert Said(out) + [] == Said(out);
    } else {
      AbsorbSays(out, msgs[0]);
      CoalesceSays(Absorb(out, msgs[0]), msgs[1..]);
      Assoc(Said(out), SaidIn(msgs[0]), Said(msgs[1..]));
    }
  }

  lemma {:induction false} CleanSays(known: set<string>, msgs: seq<Message>)
    ensures Said(Clean(known, msgs)) == Said(msgs)
    decreases |msgs|
  {
    if msgs != [] {
      var known' := known + CallIds(CallsOf(msgs[0]));
      CleanSays(known', msgs[1..]);
      if Kept(known', msgs[0]) {
        FlatMapCons(SaidIn, msgs[0], Clean(known', msgs[1..]));
      } else {
        assert SaidIn(msgs[0]) == [];
        assert [] + Said(msgs[1..]) == Said(msgs[1..]);
        assert [] + Clean(known', msgs[1..]) == Clean(known', msgs[1..]);
      }
    }
  }

  /** Repairing loses, repeats, reorders and reassigns no word: white space apart, user and assistant say the
      same characters in the same order before and after. */
  lemma RepairLosesNoWord(msgs: seq<Message>)
    ensures Said(Repaired(msgs)) == Said(msgs)
  {
    CoalesceSays([], msgs);
    CleanSays({}, Coalesce([], msgs));
    assert [] + Said(msgs) == Said(msgs);
  }

  // The exact text of a merged run.

  /** Messages that become one: neighbours of one speaker. */
  predicate IsRun(run: seq<Message>) {
    run != [] && forall k :: 0 <= k < |run| - 1 ==> Mergeable(run[k], run[k + 1])
  }

  /** The texts of a run, each on a line of its own, the whole trimmed whenever one is added. */
  function RunText(run: seq<Message>): string
    requires run != []
  {
    if |run| == 1 then run[0].content.GetOr("")
    else Trim(RunText(run[..|run| - 1]) + "\n" + run[|run| - 1].content.GetOr(""))
  }

  /** A run as it is sent: its first message, with the text of all of them. */
  function RunMessage(run: seq<Message>): Message
    requires run != []
  {
    if |run| == 1 then run[0] else run[0].(content := Some(RunText(run)))
  }

  function Flat(runs: seq<seq<Message>>): seq<Message> { FlatMap((run: seq<Message>) => run, runs) }

  /** A split of a transcript into runs none of which could be longer. */
  predicate AreRuns(runs: seq<seq<Message>>) {
    && (forall k :: 0 <= k < |runs| ==> IsRun(runs[k]))
    && (forall k :: 0 <= k < |runs| - 1 ==> !Mergeable(runs[k][0], runs[k + 1][0]))
  }

  lemma {:induction false} OneSpeaker(run: seq<Message>, k: nat)
    requires IsRun(run) && k < |run|
    ensures run[k].role == run[0].role && RunMessage(run).role == run[0].role
  {
    if k > 0 {
      OneSpeaker(run, k - 1);
      assert Mergeable(run[k - 1], run[k]);
    }
  }

  lemma MergedIsRun(run: seq<Message>, n: nat)
    requires n + 1 == |run| && n > 0
    ensures Merge(RunMessage(run[..n]), run[n]) == RunMessage(run)
  {
    assert RunMessage(run[..n]).content.GetOr("") == RunText(run[..n]);
    assert run[..n][0] == run[0];
  }

  lemma {:induction false} RunCoalesces(out: seq<Message>, run: seq<Message>)
    requires IsRun(run) && (out != [] ==> !Mergeable(out[|out| - 1], run[0]))
    ensures Coalesce(out, run) == out + [RunMessage(run)]
    decreases |run|
  {
    var n := |run| - 1;
    if n == 0 {
      assert run[1..] == [];
      assert Coalesce(out, run) == Coalesce(out + [run[0]], run[1..]);
    } else {
      var init, last := run[..n], run[n];
      assert IsRun(init) && run == init + [last];
      RunCoalesces(out, init);
      CoalesceAppend(out, init, [last]);
      OneSpeaker(run, n - 1);
      OneSpeaker(init, 0);
      assert Mergeable(run[n - 1], run[n]) && Mergeable(RunMessage(init), last);
      var before := out + [RunMessage(init)];
      assert Absorb(before, last) == out + [Merge(RunMessage(init), last)];
      MergedIsRun(run, n);
      assert [last][1..] == [] && Coalesce(before, [last]) == Coalesce(Absorb(before, last), [last][1..]);
    }
  }

  /** Before tool results are cleaned away, the copy has one message for each run: the first of the run, with
      exactly this text. */
  lemma {:induction false} RunsCoalesce(runs: seq<seq<Message>>)
    requires AreRuns(runs)
    ensures Coalesce([], Flat(runs)) == Map((run: seq<Message>) => if run == [] then NOBODY else RunMessage(run), runs)
  {
    if runs != [] {
      var n := |runs| - 1;
      var f, g := (run: seq<Message>) => run, (run: seq<Message>) => if run == [] then NOBODY else RunMessage(run);
      RunsCoalesce(runs[..n]);
      assert runs == runs[..n] + [runs[n]];
      FlatMapAppend(f, runs[..n], [runs[n]]);
      FlatMapOne(f, runs[n]);
      CoalesceAppend([], Flat(runs[..n]), runs[n]);
      var before := Map(g, runs[..n]);
      if n > 0 {
        OneSpeaker(runs[n - 1], 0);
        assert before[n - 1] == RunMessage(runs[n - 1]) && !Mergeable(runs[n - 1][0], runs[n][0]);
      }
      RunCoalesces(before, runs[n]);
      assert Map(g, runs) == before + [RunMessage(runs[n])];
    }
  }

  const NOBODY := Message(System, None, None, None, None, None, None, None, false)

  /** Every transcript has such a split. */
  lemma {:induction false} HasRuns(msgs: seq<Message>) returns (runs: seq<seq<Message>>)
    ensures AreRuns(runs) && Flat(runs) == msgs
  {
    if msgs == [] {
      runs := [];
    } else {
      var n := |msgs| - 1;
      var before := HasRuns(msgs[..n]);
      assert msgs == msgs[..n] + [msgs[n]];
      runs := ExtendRuns(before, msgs[n]);
    }
  }

  lemma ExtendRuns(before: seq<seq<Message>>, m: Message) returns (runs: seq<seq<Message>>)
    requires AreRuns(before)
    ensures AreRuns(runs) && Flat(runs) == Flat(before) + [m]
  {
    var f, n := (run: seq<Message>) => run, |before| - 1;
    if before != [] && Mergeable(before[n][0], m) {
      var last := before[n];
      OneSpeaker(last, |last| - 1);
      runs := before[..n] + [last + [m]];
      assert before == before[..n] + [last];
      FlatMapAppend(f, before[..n], [last]);
      FlatMapAppend(f, before[..n], [last + [m]]);
      FlatMapOne(f, last);
      FlatMapOne(f, last + [m]);
      Assoc(Flat(before[..n]), last, [m]);
      forall k | 0 <= k < |last|
        ensures Mergeable((last + [m])[k], (last + [m])[k + 1])
      {
      }
    } else {
      runs := before + [[m]];
      FlatMapAppend(f, before, [[m]]);
      FlatMapOne(f, [m]);
    }
  }

  // ---------------------------------------------------------------------------------------------
  // No result without its call
  // ---------------------------------------------------------------------------------------------

  predicate ToolsCarryNoCalls(msgs: seq<Message>) {
    forall k :: 0 <= k < |msgs| && msgs[k].role == Tool ==> CallsOf(msgs[k]) == []
  }

  lemma {:induction false} CoalesceKeepsTools(out: seq<Message>, msgs: seq<Message>)
    requires ToolsCarryNoCalls(out) && ToolsCarryNoCalls(msgs)
    ensures ToolsCarryNoCalls(Coalesce(out, msgs))
    decreases |msgs|
  {
    if msgs != [] {
      CoalesceKeepsTools(Absorb(out, msgs[0]), msgs[1..]);
    }
  }

  lemma {:induction false} CleanKeepsIds(known: set<string>, msgs: seq<Message>)
    requires ToolsCarryNoCalls(msgs)
    ensures Ids(Clean(known, msgs)) == Ids(msgs)
    decreases |msgs|
  {
    if msgs != [] {
      var known' := known + CallIds(CallsOf(msgs[0]));
      CleanKeepsIds(known', msgs[1..]);
      if Kept(known', msgs[0]) {
        assert Clean(known, msgs)[1..] == Clean(known', msgs[1..]);
      } else {
        assert Clean(known, msgs) == Clean(known', msgs[1..]);
      }
    }
  }

  /** A tool result at `k` answers a call of an earlier message. */
  predicate Answers(msgs: seq<Message>, k: nat)
    requires k < |msgs|
  {
    msgs[k].role == Tool ==> msgs[k].toolCallId.Some? && msgs[k].toolCallId.value in Ids(msgs[..k])
  }

  lemma {:induction false} CleanedAnswers(known: set<string>, msgs: seq<Message>, k: nat)
    requires ToolsCarryNoCalls(msgs) && k < |Clean(known, msgs)|
    ensures var out := Clean(known, msgs);
            out[k].role == Tool ==>
              out[k].toolCallId.Some? && out[k].toolCallId.value in known + Ids(out[..k])
    decreases |msgs|
  {
    var out := Clean(known, msgs);
    var known' := known + CallIds(CallsOf(msgs[0]));
    var tail := Clean(known', msgs[1..]);
    if !Kept(known', msgs[0]) {
      assert out == tail;
      CleanedAnswers(known', msgs[1..], k);
    } else if k > 0 {
      assert out == [msgs[0]] + tail;
      CleanedAnswers(known', msgs[1..], k - 1);
      assert out[..k] == [msgs[0]] + tail[..k - 1];
      IdsAppend([msgs[0]], tail[..k - 1]);
      CleanOne({}, msgs[0]);
    }
  }

  /** Where tool messages carry no calls of their own, every tool result of the repaired copy has its call in
      an earlier message. */
  lemma RepairedHasNoOrphans(msgs: seq<Message>, k: nat)
    requires ToolsCarryNoCalls(msgs) && k < |Repaired(msgs)|
    ensures Answers(Repaired(msgs), k)
  {
    CoalesceKeepsTools([], msgs);
    CleanedAnswers({}, Coalesce([], msgs), k);
    assert {} + Ids(Repaired(msgs)[..k]) == Ids(Repaired(msgs)[..k]);
  }

  /** The message at `i` is not cleaned away. */
  predicate KeptAt(msgs: seq<Message>, i: nat)
    requires i < |msgs|
  {
    Kept(Ids(msgs[..i + 1]), msgs[i])
  }

  /** The message, if it is a result, answers one of these calls. */
  predicate AnswersOneOf(ids: set<string>, m: Message) {
    m.role == Tool ==> m.toolCallId.Some? && m.toolCallId.value in ids
  }

  predicate MakesCall(msgs: seq<Message>, h: nat, id: string)
    requires h < |msgs|
  {
    KeptAt(msgs, h) && id in CallIds(CallsOf(msgs[h]))
  }

  /** A kept message before `n` makes this call. */
  predicate CalledBefore(msgs: seq<Message>, n: nat, id: string)
    requires n <= |msgs|
  {
    exists h :: 0 <= h < n && MakesCall(msgs, h, id)
  }

  predicate CallStays(msgs: seq<Message>, i: nat)
    requires i < |msgs|
  {
    KeptAt(msgs, i) && msgs[i].role == Tool ==> CalledBefore(msgs, i + 1, msgs[i].toolCallId.value)
  }

  /** No kept result depends on a call that only results cleaned away make. */
  predicate NoCallLost(msgs: seq<Message>) {
    forall i :: 0 <= i < |msgs| ==> CallStays(msgs, i)
  }

  /** Every result answers a call of an earlier message, or of its own. */
  predicate NoOrphans(msgs: seq<Message>) {
    forall k :: 0 <= k < |msgs| ==> AnswersOneOf(Ids(msgs[..k + 1]), msgs[k])
  }

  lemma OneMoreKept(msgs: seq<Message>, i: nat)
    requires i < |msgs|
    ensures Clean({}, msgs[..i + 1])
         == if KeptAt(msgs, i) then Clean({}, msgs[..i]) + [msgs[i]] else Clean({}, msgs[..i])
  {
    CleanPrefix(msgs, i);
    assert Clean({}, msgs[..i]) + [] == Clean({}, msgs[..i]);
  }

  lemma {:induction false} IdsOfKept(msgs: seq<Message>, n: nat, id: string)
    requires n <= |msgs|
    ensures id in Ids(Clean({}, msgs[..n])) <==> CalledBefore(msgs, n, id)
  {
    if n > 0 {
      IdsOfKept(msgs, n - 1, id);
      OneMoreKept(msgs, n - 1);
      IdsAppend(Clean({}, msgs[..n - 1]), [msgs[n - 1]]);
      CleanOne({}, msgs[n - 1]);
      assert CalledBefore(msgs, n, id) <==> CalledBefore(msgs, n - 1, id) || MakesCall(msgs, n - 1, id);
    }
  }

  lemma OneMoreAnswered(msgs: seq<Message>, m: Message)
    ensures NoOrphans(msgs + [m]) <==> NoOrphans(msgs) && AnswersOneOf(Ids(msgs + [m]), m)
  {
    var all := msgs + [m];
    assert all[..|msgs| + 1] == all && all[|msgs|] == m;
    assert forall k :: 0 <= k < |msgs| ==> all[..k + 1] == msgs[..k + 1] && all[k] == msgs[k];
  }

  lemma {:induction false} CleanedExactlyIf(msgs: seq<Message>, n: nat)
    requires n <= |msgs|
    ensures NoOrphans(Clean({}, msgs[..n])) <==> forall i :: 0 <= i < n ==> CallStays(msgs, i)
  {
    if n > 0 {
      var m := msgs[n - 1];
      CleanedExactlyIf(msgs, n - 1);
      OneMoreKept(msgs, n - 1);
      OneMoreAnswered(Clean({}, msgs[..n - 1]), m);
      if KeptAt(msgs, n - 1) && m.role == Tool {
        IdsOfKept(msgs, n, m.toolCallId.value);
      }
      assert (forall i :: 0 <= i < n ==> CallStays(msgs, i))
          <==> (forall i :: 0 <= i < n - 1 ==> CallStays(msgs, i)) && CallStays(msgs, n - 1);
    }
  }

  /** Whatever the transcript was, in the repaired copy every tool result has its call before it or in itself,
      exactly if no kept result depends on a call that only results cleaned away make; and in an earlier message
      where tool messages carry no calls of their own. */
  lemma RepairedHasNoOrphansExactlyIf(msgs: seq<Message>)
    ensures NoOrphans(Repaired(msgs)) <==> NoCallLost(Coalesce([], msgs))
    ensures ToolsCarryNoCalls(msgs) ==> forall k :: 0 <= k < |Repaired(msgs)| ==> Answers(Repaired(msgs), k)
  {
    if ToolsCarryNoCalls(msgs) {
      forall k | 0 <= k < |Repaired(msgs)|
        ensures Answers(Repaired(msgs), k)
      {
        RepairedHasNoOrphans(msgs, k);
      }
    }
    var all := Coalesce([], msgs);
    CleanedExactlyIf(all, |all|);
    assert all[..|all|] == all;
  }

  // ---------------------------------------------------------------------------------------------
  // Finished rounds survive
  // ---------------------------------------------------------------------------------------------

  /** An assistant message with calls, followed by one result per call. */
  datatype Round = Round(assistant: Message, results: seq<Message>)

  function RoundMessages(r: Round): seq<Message> { [r.assistant] + r.results }

  predicate Finished(r: Round) {
    r.assistant.role == Assistant && CallsOf(r.assistant) != [] && |r.results| == |CallsOf(r.assistant)|
    && forall k :: 0 <= k < |r.results| ==>
         r.results[k].role == Tool && r.results[k].toolCallId == CallsOf(r.assistant)[k].id
         && CallsOf(r.results[k]) == []
  }

  predicate HasIds(r: Round) { forall k :: 0 <= k < |CallsOf(r.assistant)| ==> CallsOf(r.assistant)[k].id.Some? }

  predicate EndsInAssistant(msgs: seq<Message>) { msgs != [] && msgs[|msgs| - 1].role == Assistant }

  lemma {:induction false} CoalesceKeepsLastRole(out: seq<Message>, msgs: seq<Message>)
    requires out + msgs != []
    ensures Coalesce(out, msgs) != []
    ensures var all, res := out + msgs, Coalesce(out, msgs); res[|res| - 1].role == all[|all| - 1].role
    decreases |msgs|
  {
    if msgs == [] {
      assert out + msgs == out;
    } else {
      CoalesceKeepsLastRole(Absorb(out, msgs[0]), msgs[1..]);
    }
  }

  lemma {:induction false} ToolsAreAppended(out: seq<Message>, tools: seq<Message>)
    requires forall k :: 0 <= k < |tools| ==> tools[k].role == Tool
    ensures Coalesce(out, tools) == out + tools
    decreases |tools|
  {
    if tools == [] {
      assert out + tools == out;
    } else {
      ToolsAreAppended(out + [tools[0]], tools[1..]);
      Assoc(out, [tools[0]], tools[1..]);
      assert tools == [tools[0]] + tools[1..];
    }
  }

  lemma RoundIsAppended(out: seq<Message>, r: Round)
    requires Finished(r) && !EndsInAssistant(out)
    ensures Coalesce(out, RoundMessages(r)) == out + RoundMessages(r)
    ensures !EndsInAssistant(out + RoundMessages(r))
  {
    CoalesceAppend(out, [r.assistant], r.results);
    assert [r.assistant][1..] == [];
    ToolsAreAppended(out + [r.assistant], r.results);
    Assoc(out, [r.assistant], r.results);
  }

  lemma {:induction false} RoundsAreAppended(out: seq<Message>, rs: seq<Round>)
    requires !EndsInAssistant(out) && forall k :: 0 <= k < |rs| ==> Finished(rs[k])
    ensures Coalesce(out, FlatMap(RoundMessages, rs)) == out + FlatMap(RoundMessages, rs)
    decreases |rs|
  {
    if rs == [] {
      assert out + [] == out;
    } else {
      var head, tail := RoundMessages(rs[0]), FlatMap(RoundMessages, rs[1..]);
      RoundIsAppended(out, rs[0]);
      CoalesceAppend(out, head, tail);
      RoundsAreAppended(out + head, rs[1..]);
      Assoc(out, head, tail);
    }
  }

  lemma {:induction false} KnownResultsAreKept(known: set<string>, results: seq<Message>)
    requires forall k :: 0 <= k < |results| ==> CallsOf(results[k]) == [] && Kept(known, results[k])
    ensures Clean(known, results) == results
    decreases |results|
  {
    if results != [] {
      assert known + CallIds(CallsOf(results[0])) == known;
      KnownResultsAreKept(known, results[1..]);
      assert results == [results[0]] + results[1..];
    }
  }

  lemma RoundIsKept(known: set<string>, r: Round)
    requires Finished(r) && HasIds(r)
    ensures Clean(known, RoundMessages(r)) == RoundMessages(r)
  {
    var known' := known + CallIds(CallsOf(r.assistant));
    CleanOne(known, r.assistant);
    CleanAppend(known, [r.assistant], r.results);
    forall k | 0 <= k < |r.results| ensures Kept(known', r.results[k]) {
      assert CallsOf(r.assistant)[k] in CallsOf(r.assistant);
    }
    KnownResultsAreKept(known', r.results);
  }

  lemma {:induction false} RoundsAreKept(known: set<string>, rs: seq<Round>)
    requires forall k :: 0 <= k < |rs| ==> Finished(rs[k]) && HasIds(rs[k])
    ensures Clean(known, FlatMap(RoundMessages, rs)) == FlatMap(RoundMessages, rs)
    decreases |rs|
  {
    if rs != [] {
      var head := RoundMessages(rs[0]);
      RoundIsKept(known, rs[0]);
      CleanAppend(known, head, FlatMap(RoundMessages, rs[1..]));
      RoundsAreKept(known + Ids(head), rs[1..]);
    }
  }

  /** At most the final "answer now" message follows the rounds. */
  predicate Closing(tail: seq<Message>) {
    tail == [] || (|tail| == 1 && tail[0].role == User && CallsOf(tail[0]) == [])
  }

  lemma ClosingIsAppended(out: seq<Message>, tail: seq<Message>)
    requires Closing(tail) && out != [] && out[|out| - 1].role == Tool
    ensures Coalesce(out, tail) == out + tail
  {
    if tail == [] {
      assert out + tail == out;
    } else {
      assert tail == [tail[0]] && tail[1..] == [];
    }
  }

  lemma ClosingIsKept(known: set<string>, tail: seq<Message>)
    requires Closing(tail)
    ensures Clean(known, tail) == tail
  {
    if tail != [] {
      assert tail == [tail[0]];
      CleanOne(known, tail[0]);
    }
  }

  lemma RoundsEndInTool(rs: seq<Round>)
    requires rs != [] && forall k :: 0 <= k < |rs| ==> Finished(rs[k])
    ensures var ms := FlatMap(RoundMessages, rs); ms != [] && ms[|ms| - 1].role == Tool
  {
    var n := |rs| - 1;
    assert rs == rs[..n] + [rs[n]];
    FlatMapAppend(RoundMessages, rs[..n], [rs[n]]);
    FlatMapOne(RoundMessages, rs[n]);
  }

  /** Rounds after a history that does not end in an assistant message come out of merging as they went in. */
  lemma CoalesceAroundRounds(history: seq<Message>, rs: seq<Round>, tail: seq<Message>)
    requires rs != [] && Closing(tail) && !EndsInAssistant(history) && forall k :: 0 <= k < |rs| ==> Finished(rs[k])
    ensures Coalesce([], history + FlatMap(RoundMessages, rs) + tail)
            == Coalesce([], history) + FlatMap(RoundMessages, rs) + tail
  {
    var ms, out := FlatMap(RoundMessages, rs), Coalesce([], history);
    CoalesceAppend([], history + ms, tail);
    RoundsAfterHistory(history, rs);
    RoundsEndInTool(rs);
    ClosingIsAppended(out + ms, tail);
  }

  lemma RoundsAfterHistory(history: seq<Message>, rs: seq<Round>)
    requires rs != [] && !EndsInAssistant(history) && forall k :: 0 <= k < |rs| ==> Finished(rs[k])
    ensures Coalesce([], history + FlatMap(RoundMessages, rs)) == Coalesce([], history) + FlatMap(RoundMessages, rs)
  {
    CoalesceAppend([], history, FlatMap(RoundMessages, rs));
    if history != [] {
      CoalesceKeepsLastRole([], history);
      assert [] + history == history;
    }
    RoundsAreAppended(Coalesce([], history), rs);
  }

  /** Every finished round survives the repair intact: nothing of it is merged, dropped or moved. */
  lemma RoundsSurvive(history: seq<Message>, rs: seq<Round>, tail: seq<Message>)
    requires rs != [] && Closing(tail) && !EndsInAssistant(history)
    requires forall k :: 0 <= k < |rs| ==> Finished(rs[k]) && HasIds(rs[k])
    ensures Repaired(history + FlatMap(RoundMessages, rs) + tail)
            == Repaired(history) + FlatMap(RoundMessages, rs) + tail
  {
    var ms, out := FlatMap(RoundMessages, rs), Coalesce([], history);
    CoalesceAroundRounds(history, rs, tail);
    CleanAppend({}, out + ms, tail);
    CleanAppend({}, out, ms);
    RoundsAreKept({} + Ids(out), rs);
    ClosingIsKept({} + Ids(out + ms), tail);
  }

  // The converse: the two conditions are exactly what it takes.

  lemma {:induction false} CleanShrinks(known: set<string>, msgs: seq<Message>)
    ensures |Clean(known, msgs)| <= |msgs|
    ensures (exists k :: 0 <= k < |msgs| && msgs[k].role == Tool && msgs[k].toolCallId == None)
            ==> |Clean(known, msgs)| < |msgs|
    decreases |msgs|
  {
    if msgs != [] {
      CleanShrinks(known + CallIds(CallsOf(msgs[0])), msgs[1..]);
      assert forall k :: 1 <= k < |msgs| ==> msgs[k] == msgs[1..][k - 1];
    }
  }

  /** Cleaning looks at roles, ids and calls only. */
  predicate SameShape(a: seq<Message>, b: seq<Message>) {
    |a| == |b| && forall k :: 0 <= k < |a| ==>
      a[k].role == b[k].role && a[k].toolCallId == b[k].toolCallId && a[k].toolCalls == b[k].toolCalls
  }

  lemma {:induction false} CleanSeesShape(known: set<string>, a: seq<Message>, b: seq<Message>)
    requires SameShape(a, b)
    ensures |Clean(known, a)| == |Clean(known, b)|
    decreases |a|
  {
    if a != [] {
      CleanSeesShape(known + CallIds(CallsOf(a[0])), a[1..], b[1..]);
    }
  }

  lemma Regroup<T>(h: seq<T>, x: T, r: seq<T>, m: seq<T>, t: seq<T>)
    ensures h + (([x] + r) + m) + t == h + ([x] + (r + m + t))
    ensures |([x] + r) + m| + |t| == 1 + |r + m + t|
  {
  }

  lemma AbsorbKeepsShape(out: seq<Message>, m: Message)
    requires m.role == Assistant && EndsInAssistant(out)
    ensures SameShape(out, Absorb(out, m))
  {
  }

  /** After an assistant message the first round's assistant message is merged away, its calls with it. */
  lemma FirstRoundIsMerged(history: seq<Message>, rs: seq<Round>, tail: seq<Message>)
    requires rs != [] && Closing(tail) && EndsInAssistant(history) && forall k :: 0 <= k < |rs| ==> Finished(rs[k])
    ensures |Repaired(history + FlatMap(RoundMessages, rs) + tail)|
            < |Repaired(history)| + |FlatMap(RoundMessages, rs)| + |tail|
  {
    var out, first, more := Coalesce([], history), rs[0], FlatMap(RoundMessages, rs[1..]);
    var merged, rest := Absorb(out, first.assistant), first.results + more + tail;
    Regroup(history, first.assistant, first.results, more, tail);
    CoalesceKeepsLastRole([], history);
    assert [] + history == history;
    CoalesceAppend([], history, [first.assistant] + rest);
    assert ([first.assistant] + rest)[1..] == rest;
    MergedRestIsAppended(merged, rs, tail);
    AbsorbKeepsShape(out, first.assistant);
    MergedIsShorter(out, merged, rest);
  }

  lemma MergedIsShorter(out: seq<Message>, merged: seq<Message>, rest: seq<Message>)
    requires SameShape(out, merged)
    ensures |Clean({}, merged + rest)| <= |Clean({}, out)| + |rest|
  {
    CleanAppend({}, merged, rest);
    CleanShrinks({} + Ids(merged), rest);
    CleanSeesShape({}, out, merged);
  }

  lemma MergedRestIsAppended(out: seq<Message>, rs: seq<Round>, tail: seq<Message>)
    requires rs != [] && Closing(tail) && forall k :: 0 <= k < |rs| ==> Finished(rs[k])
    ensures Coalesce(out, rs[0].results + FlatMap(RoundMessages, rs[1..]) + tail)
            == out + (rs[0].results + FlatMap(RoundMessages, rs[1..]) + tail)
  {
    var a, b := rs[0].results, FlatMap(RoundMessages, rs[1..]);
    CoalesceAppend(out, a + b, tail);
    CoalesceAppend(out, a, b);
    ToolsAreAppended(out, a);
    RoundsAreAppended(out + a, rs[1..]);
    if rs[1..] != [] {
      RoundsEndInTool(rs[1..]);
    }
    ClosingIsAppended(out + a + b, tail);
    Assoc(out, a, b);
    Assoc(out, a + b, tail);
  }

  /** A result whose call has no id is dropped. */
  lemma NamelessResultIsDropped(history: seq<Message>, rs: seq<Round>, tail: seq<Message>, j: nat)
    requires j < |rs| && Closing(tail) && !EndsInAssistant(history) && forall k :: 0 <= k < |rs| ==> Finished(rs[k])
    requires !HasIds(rs[j])
    ensures |Repaired(history + FlatMap(RoundMessages, rs) + tail)|
            < |Repaired(history)| + |FlatMap(RoundMessages, rs)| + |tail|
  {
    var ms, out := FlatMap(RoundMessages, rs), Coalesce([], history);
    CoalesceAroundRounds(history, rs, tail);
    Assoc(out, ms, tail);
    CleanAppend({}, out, ms + tail);
    var i := NamelessResultAt(rs, j);
    assert (ms + tail)[i] == ms[i];
    CleanShrinks({} + Ids(out), ms + tail);
  }

  lemma {:induction false} NamelessResultAt(rs: seq<Round>, j: nat) returns (i: nat)
    requires j < |rs| && Finished(rs[j]) && !HasIds(rs[j])
    ensures var ms := FlatMap(RoundMessages, rs); i < |ms| && ms[i].role == Tool && ms[i].toolCallId == None
  {
    var head := RoundMessages(rs[0]);
    if j == 0 {
      var k :| 0 <= k < |CallsOf(rs[0].assistant)| && !CallsOf(rs[0].assistant)[k].id.Some?;
      assert head[k + 1] == rs[0].results[k];
      i := k + 1;
    } else {
      var i' := NamelessResultAt(rs[1..], j - 1);
      i := |head| + i';
    }
  }

  /** Finished rounds survive the repair exactly when the history before them does not end in an
      assistant message and every call has an id. */
  lemma RoundsSurviveExactly(history: seq<Message>, rs: seq<Round>, tail: seq<Message>)
    requires rs != [] && Closing(tail) && forall k :: 0 <= k < |rs| ==> Finished(rs[k])
    ensures Repaired(history + FlatMap(RoundMessages, rs) + tail)
            == Repaired(history) + FlatMap(RoundMessages, rs) + tail
            <==> !EndsInAssistant(history) && forall k :: 0 <= k < |rs| ==> HasIds(rs[k])
  {
    if EndsInAssistant(history) {
      FirstRoundIsMerged(history, rs, tail);
    } else if j :| 0 <= j < |rs| && !HasIds(rs[j]) {
      NamelessResultIsDropped(history, rs, tail, j);
    } else {
      RoundsSurvive(history, rs, tail);
    }
  }
}
