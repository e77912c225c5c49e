/** The agent turn (qcue-rs/router/src/turn.rs, run_turn; qcue-rs/router/src/tools.rs, dispatch): provider
    rounds under a token ceiling and a round backstop, with one final tool-less call when either is spent. */
module Turn {
  import opened Common
  import opened Protocol
  import opened Repair

  const NUDGE_TEXT :=
    "You have gathered enough context. Answer the user's question now, fully, using only the " +
    "information already available. Do not call any tools."

  const NUDGE := Message(User, Some(NUDGE_TEXT), None, None, None, None, None, None, false)

  /** Everything the turn does not decide, per pass of its loop: whether it has been cancelled, whether the
      cost guard refuses, what the provider answers, what the k-th tool call of the pass returns for its name and
      arguments. */
  datatype World = World(
    cancelled: nat -> bool,
    refusal: nat -> Option<string>,
    answer: nat -> Result<Answer, string>,
    exec: Option<(nat, nat, string, string) -> Result<string, string>>)

  datatype Setup = Setup(history: seq<Message>, ceiling: nat, maxRounds: nat, tools: seq<string>)

  datatype Event =
    | PersistUser(m: Message)
    | CostCheck(refusal: Option<string>)
    | Sent(messages: seq<Message>, tools: seq<string>)
    | PersistAssistant(m: Message)

  datatype TurnResult =
    | Final(content: Option<string>, usage: Usage, finish: FinishReason)
    | Interrupted
    | Refused(reason: string)

  const ZERO := Usage(0, 0, 0, 0, 0)

  function AddUsage(a: Usage, b: Usage): Usage {
    Usage(a.input + b.input, a.output + b.output, a.cacheRead + b.cacheRead, a.cacheWrite + b.cacheWrite,
          a.reasoning + b.reasoning)
  }

  function TurnTokens(u: Usage): nat { u.input + u.output + u.reasoning + u.cacheWrite }

  // ---------------------------------------------------------------------------------------------
  // The budget
  // ---------------------------------------------------------------------------------------------

  class Budget {
    var tokensRemaining: nat
    var round: nat
    const maxRounds: nat

    constructor (tokens: nat, maxRounds: nat)
      ensures tokensRemaining == tokens && round == 0 && this.maxRounds == maxRounds
    {
      tokensRemaining, round := tokens, 0;
      this.maxRounds := maxRounds;
    }

    predicate Exhausted()
      reads this
    {
      tokensRemaining == 0 || round >= maxRounds
    }

    method TickRound()
      modifies this
      ensures round == old(round) + 1 && tokensRemaining == old(tokensRemaining)
    {
      round := round + 1;
    }

    /** Debits what a call reported, never below zero. */
    method ConsumeTokens(n: nat)
      modifies this
      ensures tokensRemaining == Max(old(tokensRemaining) - n, 0) && round == old(round)
    {
      tokensRemaining := if n <= tokensRemaining then tokensRemaining - n else 0;
    }
  }

  // ---------------------------------------------------------------------------------------------
  // Tools
  // ---------------------------------------------------------------------------------------------

  function ToolContent(w: World, pass: nat, k: nat, call: ToolCall): string {
    match w.exec
    case None => "result for " + call.name
    case Some(exec) =>
      match exec(pass, k, call.name, call.arguments)
      case Ok(s) => s
      case Err(e) => "tool error (" + call.name + "): " + e
  }

  function ToolResult(w: World, pass: nat, k: nat, call: ToolCall): Message {
    Message(Tool, Some(ToolContent(w, pass, k, call)), call.id, Some(call.name), None, None, None, None, true)
  }

  function ToolResults(w: World, pass: nat, calls: seq<ToolCall>): seq<Message> {
    seq(|calls|, k requires 0 <= k < |calls| => ToolResult(w, pass, k, calls[k]))
  }

  method DispatchTools(w: World, pass: nat, calls: seq<ToolCall>) returns (out: seq<Message>)
    ensures out == ToolResults(w, pass, calls)
  {
    out := [];
    for k := 0 to |calls|
      invariant out == ToolResults(w, pass, calls)[..k]
    {
      out := out + [ToolResult(w, pass, k, calls[k])];
    }
  }

  // ---------------------------------------------------------------------------------------------
  // What a turn amounts to, pass by pass, in closed form
  // ---------------------------------------------------------------------------------------------

  function UsageAt(w: World, i: nat): Usage {
    match w.answer(i)
    case Ok(a) => a.usage.GetOr(ZERO)
    case Err(_) => ZERO
  }

  /** Tokens debited by the first `n` calls. */
  function Spent(w: World, n: nat): nat { if n == 0 then 0 else Spent(w, n - 1) + TurnTokens(UsageAt(w, n - 1)) }

  function TotalUsage(w: World, n: nat): Usage {
    if n == 0 then ZERO else AddUsage(TotalUsage(w, n - 1), UsageAt(w, n - 1))
  }

  predicate Finalizing(s: Setup, w: World, i: nat) { Spent(w, i) >= s.ceiling || i >= s.maxRounds }

  function CallsAt(w: World, i: nat): seq<ToolCall> {
    match w.answer(i)
    case Ok(a) => a.toolCalls.GetOr([])
    case Err(_) => []
  }

  /** Pass `i` ends by asking for another one: it got tool calls and ran them. */
  predicate Continues(s: Setup, w: World, i: nat) {
    !w.cancelled(i) && w.refusal(i).None? && w.answer(i).Ok? && !Finalizing(s, w, i) && CallsAt(w, i) != []
  }

  predicate Reaches(s: Setup, w: World, n: nat) { forall i :: 0 <= i < n ==> Continues(s, w, i) }

  function RoundAt(w: World, i: nat): Round
    requires w.answer(i).Ok?
  {
    Round(AssistantMessage(w.answer(i).value), ToolResults(w, i, CallsAt(w, i)))
  }

  /** The rounds finished before pass `n`. */
  function Rounds(s: Setup, w: World, n: nat): (rs: seq<Round>)
    requires Reaches(s, w, n)
    ensures |rs| == n
    ensures forall i :: 0 <= i < n ==> w.answer(i).Ok? && rs[i] == RoundAt(w, i)
  {
    if n == 0 then [] else assert Continues(s, w, n - 1); Rounds(s, w, n - 1) + [RoundAt(w, n - 1)]
  }

  function Transcript(s: Setup, w: World, n: nat): seq<Message>
    requires Reaches(s, w, n)
  {
    s.history + FlatMap(RoundMessages, Rounds(s, w, n))
  }

  function Tail(s: Setup, w: World, n: nat): seq<Message> { if Finalizing(s, w, n) then [NUDGE] else [] }

  /** The request of pass `n`. */
  function RequestAt(s: Setup, w: World, n: nat): Event
    requires Reaches(s, w, n)
  {
    Sent(Repaired(Transcript(s, w, n) + Tail(s, w, n)), if Finalizing(s, w, n) then [] else s.tools)
  }

  /** The pass in which the turn ends. */
  function LastPass(s: Setup, w: World, n: nat): (last: nat)
    requires n <= s.maxRounds && Reaches(s, w, n)
    ensures n <= last <= s.maxRounds && !Continues(s, w, last)
    ensures Reaches(s, w, last)
    decreases s.maxRounds - n
  {
    if Continues(s, w, n) then LastPass(s, w, n + 1) else n
  }

  function LastUser(history: seq<Message>): seq<Event> {
    if history == [] then []
    else
      var m := history[|history| - 1];
      if m.role == User then [PersistUser(m)] else LastUser(history[..|history| - 1])
  }

  /** The events of the passes before `n`: a passing check, then the request, each time. */
  function PassEvents(s: Setup, w: World, n: nat): seq<Event>
    requires Reaches(s, w, n)
  {
    if n == 0 then [] else PassEvents(s, w, n - 1) + [CostCheck(None), RequestAt(s, w, n - 1)]
  }

  function EndEvents(s: Setup, w: World, n: nat): seq<Event>
    requires Reaches(s, w, n)
  {
    if w.cancelled(n) then []
    else if w.refusal(n).Some? then [CostCheck(w.refusal(n))]
    else if w.answer(n).Err? then [CostCheck(None), RequestAt(s, w, n)]
    else [CostCheck(None), RequestAt(s, w, n), PersistAssistant(AssistantMessage(w.answer(n).value))]
  }

  function EndResult(w: World, n: nat): Result<TurnResult, string> {
    if w.cancelled(n) then Ok(Interrupted)
    else if w.refusal(n).Some? then Ok(Refused(w.refusal(n).value))
    else
      match w.answer(n)
      case Err(e) => Err(e)
      case Ok(a) => Ok(Final(a.content, TotalUsage(w, n + 1), a.finish))
  }

  function TurnLog(s: Setup, w: World): seq<Event> {
    var n := LastPass(s, w, 0);
    LastUser(s.history) + PassEvents(s, w, n) + EndEvents(s, w, n)
  }

  // ---------------------------------------------------------------------------------------------
  // The loop
  // ---------------------------------------------------------------------------------------------

  method FindLastUser(history: seq<Message>) returns (out: seq<Event>)
    ensures out == LastUser(history)
  {
    var i := |history|;
    assert history[..i] == history;
    while i > 0
      invariant 0 <= i <= |history| && LastUser(history) == LastUser(history[..i])
    {
      assert history[..i][..i - 1] == history[..i - 1];
      i := i - 1;
      if history[i].role == User {
        return [PersistUser(history[i])];
      }
    }
    out := [];
  }

  /** What the turn persists first is the last user message, if there is one. */
  lemma {:induction false} LastUserIs(history: seq<Message>, i: nat)
    ensures LastUser(history) == [] <==> forall k :: 0 <= k < |history| ==> history[k].role != User
    ensures i < |history| && history[i].role == User && (forall k :: i < k < |history| ==> history[k].role != User)
            ==> LastUser(history) == [PersistUser(history[i])]
  {
    if history != [] {
      LastUserIs(history[..|history| - 1], i);
      assert forall k :: 0 <= k < |history| - 1 ==> history[..|history| - 1][k] == history[k];
    }
  }

  lemma TranscriptGrows(s: Setup, w: World, n: nat)
    requires Reaches(s, w, n) && Continues(s, w, n)
    ensures Transcript(s, w, n + 1)
            == Transcript(s, w, n) + [AssistantMessage(w.answer(n).value)] + ToolResults(w, n, CallsAt(w, n))
  {
    var rs, r := Rounds(s, w, n), RoundAt(w, n);
    FlatMapAppend(RoundMessages, rs, [r]);
    FlatMapOne(RoundMessages, r);
    Assoc(s.history, FlatMap(RoundMessages, rs), RoundMessages(r));
    Assoc(s.history + FlatMap(RoundMessages, rs), [r.assistant], r.results);
  }

  lemma LastPassIs(s: Setup, w: World, n: nat, k: nat)
    requires k <= n <= s.maxRounds && !Continues(s, w, n) && Reaches(s, w, n)
    ensures LastPass(s, w, k) == n
    decreases n - k
  {
    if k < n {
      LastPassIs(s, w, n, k + 1);
    }
  }

  lemma TurnEnds(s: Setup, w: World, n: nat)
    requires n <= s.maxRounds && !Continues(s, w, n) && Reaches(s, w, n)
    ensures LastPass(s, w, 0) == n
    ensures TurnLog(s, w) == LastUser(s.history) + PassEvents(s, w, n) + EndEvents(s, w, n)
  {
    LastPassIs(s, w, n, 0);
  }

  /** What the loop holds when it starts pass `n`. */
  ghost predicate Before(s: Setup, w: World, n: nat, messages: seq<Message>, total: Usage, log: seq<Event>) {
    n <= s.maxRounds && Reaches(s, w, n)
    && messages == Transcript(s, w, n) && total == TotalUsage(w, n)
    && log == LastUser(s.history) + PassEvents(s, w, n)
  }

  predicate InBudget(s: Setup, w: World, n: nat, budget: Budget)
    reads budget
  {
    budget.maxRounds == s.maxRounds && budget.round == n && budget.tokensRemaining == Max(s.ceiling - Spent(w, n), 0)
  }

  lemma PassDone(s: Setup, w: World, n: nat, messages: seq<Message>, total: Usage, log: seq<Event>)
    requires Before(s, w, n, messages, total, log) && Continues(s, w, n)
    ensures Before(s, w, n + 1,
                   messages + [AssistantMessage(w.answer(n).value)] + ToolResults(w, n, CallsAt(w, n)),
                   AddUsage(total, UsageAt(w, n)), log + [CostCheck(None), RequestAt(s, w, n)])
  {
    TranscriptGrows(s, w, n);
    Assoc(LastUser(s.history), PassEvents(s, w, n), [CostCheck(None), RequestAt(s, w, n)]);
  }

  lemma PassEnds(s: Setup, w: World, n: nat, messages: seq<Message>, total: Usage, log: seq<Event>)
    requires Before(s, w, n, messages, total, log) && !Continues(s, w, n)
    ensures LastPass(s, w, 0) == n && TurnLog(s, w) == log + EndEvents(s, w, n)
  {
    TurnEnds(s, w, n);
  }

  /** The request of the pass: the nudge when finalizing, the repaired copy, the tools unless finalizing. */
  method PrepareRequest(s: Setup, w: World, budget: Budget, messages: seq<Message>, nudged: bool)
    returns (finalizing: bool, messages': seq<Message>, nudged': bool, request: Event)
    requires !nudged && InBudget(s, w, budget.round, budget)
    requires Reaches(s, w, budget.round) && messages == Transcript(s, w, budget.round)
    ensures finalizing == Finalizing(s, w, budget.round) && nudged' == finalizing
    ensures request == RequestAt(s, w, budget.round)
    ensures messages' == messages + Tail(s, w, budget.round)
  {
    finalizing := budget.Exhausted();
    messages', nudged' := messages, nudged;
    if finalizing && !nudged' {
      messages' := messages' + [NUDGE];
      nudged' := true;
    }
    assert messages' == messages + Tail(s, w, budget.round);
    var copy := RepairRoleAlternation(messages');
    request := Sent(copy, if finalizing then [] else s.tools);
  }

  /** Adds a call's usage to the turn's and debits it from the budget. */
  method Settle(budget: Budget, a: Answer, total: Usage) returns (total': Usage)
    modifies budget
    ensures total' == AddUsage(total, a.usage.GetOr(ZERO))
    ensures budget.round == old(budget.round) + 1
    ensures budget.tokensRemaining == Max(old(budget.tokensRemaining) - TurnTokens(a.usage.GetOr(ZERO)), 0)
  {
    total' := total;
    if a.usage.Some? {
      total' := AddUsage(total', a.usage.value);
      budget.ConsumeTokens(TurnTokens(a.usage.value));
    }
    budget.TickRound();
  }

  /** One pass of the loop, up to the next pass or the end of the turn. */
  method OnePass(s: Setup, w: World, budget: Budget, messages: seq<Message>, nudged: bool, total: Usage,
                 log: seq<Event>)
    returns (end: Option<Result<TurnResult, string>>, messages': seq<Message>, nudged': bool, total': Usage,
             log': seq<Event>)
    requires !nudged && InBudget(s, w, budget.round, budget) && Before(s, w, budget.round, messages, total, log)
    modifies budget
    ensures end.Some? ==> log' == TurnLog(s, w) && end.value == EndResult(w, LastPass(s, w, 0))
    ensures end.None? ==> !nudged' && budget.round == old(budget.round) + 1
                          && InBudget(s, w, budget.round, budget) && Before(s, w, budget.round, messages', total', log')
  {
    var n := budget.round;
    messages', nudged', total', log' := messages, nudged, total, log;
    if !Continues(s, w, n) { PassEnds(s, w, n, messages, total, log); }
    if w.cancelled(n) {
      assert log + [] == log;
      return Some(Ok(Interrupted)), messages', nudged', total', log';
    }
    var finalizing, request;
    finalizing, messages', nudged', request := PrepareRequest(s, w, budget, messages, nudged);
    if w.refusal(n).Some? {
      return Some(Ok(Refused(w.refusal(n).value))), messages', nudged', total', log' + [CostCheck(w.refusal(n))];
    }
    log' := log' + [CostCheck(None), request];
    if w.answer(n).Err? {
      return Some(Err(w.answer(n).error)), messages', nudged', total', log';
    }
    var a := w.answer(n).value;
    total' := Settle(budget, a, total);
    var assistant := AssistantMessage(a);
    messages' := messages' + [assistant];
    if finalizing || a.toolCalls.GetOr([]) == [] {
      Assoc(log, [CostCheck(None), request], [PersistAssistant(assistant)]);
      return Some(Ok(Final(a.content, total', a.finish))), messages', nudged', total',
             log' + [PersistAssistant(assistant)];
    }
    PassDone(s, w, n, messages, total, log);
    var results := DispatchTools(w, n, a.toolCalls.value);
    assert messages + [] == messages;
    messages' := messages' + results;
    end := None;
  }

  method RunTurn(s: Setup, w: World) returns (log: seq<Event>, result: Result<TurnResult, string>)
    ensures log == TurnLog(s, w) && result == EndResult(w, LastPass(s, w, 0))
  {
    var budget := new Budget(s.ceiling, s.maxRounds);
    log := FindLastUser(s.history);
    var messages, nudged, total := s.history, false, ZERO;
    assert s.history + [] == s.history && log + [] == log;
    while true
      invariant fresh(budget) && !nudged
      invariant InBudget(s, w, budget.round, budget) && Before(s, w, budget.round, messages, total, log)
      decreases s.maxRounds - budget.round
    {
      var end;
      end, messages, nudged, total, log := OnePass(s, w, budget, messages, nudged, total, log);
      if end.Some? {
        return log, end.value;
      }
    }
  }

  // ---------------------------------------------------------------------------------------------
  // What holds of every turn
  // ---------------------------------------------------------------------------------------------

  function SentOnly(e: Event): seq<Event> { if e.Sent? then [e] else [] }

  function Requests(log: seq<Event>): seq<Event> { FlatMap(SentOnly, log) }

  /** How many calls the turn makes. */
  function Sends(s: Setup, w: World): nat {
    var n := LastPass(s, w, 0);
    if w.cancelled(n) || w.refusal(n).Some? then n else n + 1
  }

  lemma ReachesEarlier(s: Setup, w: World, j: nat)
    requires j < Sends(s, w)
    ensures Reaches(s, w, j)
  {
    assert Reaches(s, w, LastPass(s, w, 0));
  }

  lemma CheckedRequest(r: Event)
    requires r.Sent?
    ensures Requests([CostCheck(None), r]) == [r]
  {
    FlatMapAppend(SentOnly, [CostCheck(None)], [r]);
    FlatMapOne(SentOnly, CostCheck(None));
    FlatMapOne(SentOnly, r);
    assert [CostCheck(None)] + [r] == [CostCheck(None), r];
  }

  /** The requests of the passes before `n`. */
  function RequestsBefore(s: Setup, w: World, n: nat): (rs: seq<Event>)
    requires Reaches(s, w, n)
    ensures |rs| == n
  {
    if n == 0 then [] else RequestsBefore(s, w, n - 1) + [RequestAt(s, w, n - 1)]
  }

  lemma {:induction false} RequestsBeforeAt(s: Setup, w: World, n: nat, j: nat)
    requires Reaches(s, w, n) && j < n
    ensures Reaches(s, w, j) && RequestsBefore(s, w, n)[j] == RequestAt(s, w, j)
  {
    if j < n - 1 {
      RequestsBeforeAt(s, w, n - 1, j);
    }
  }

  lemma {:induction false} PassRequests(s: Setup, w: World, n: nat)
    requires Reaches(s, w, n)
    ensures Requests(PassEvents(s, w, n)) == RequestsBefore(s, w, n)
  {
    if n > 0 {
      var r := RequestAt(s, w, n - 1);
      PassRequests(s, w, n - 1);
      CheckedRequest(r);
      FlatMapAppend(SentOnly, PassEvents(s, w, n - 1), [CostCheck(None), r]);
    }
  }

  lemma {:induction false} PrologueSendsNothing(history: seq<Message>)
    ensures Requests(LastUser(history)) == [] && |LastUser(history)| <= 1
  {
    if history != [] {
      FlatMapOne(SentOnly, PersistUser(history[|history| - 1]));
      PrologueSendsNothing(history[..|history| - 1]);
    }
  }

  lemma EndRequests(s: Setup, w: World, n: nat)
    requires Reaches(s, w, n)
    ensures Requests(EndEvents(s, w, n))
            == if w.cancelled(n) || w.refusal(n).Some? then [] else [RequestAt(s, w, n)]
  {
    var r := RequestAt(s, w, n);
    CheckedRequest(r);
    FlatMapOne(SentOnly, CostCheck(w.refusal(n)));
    if w.answer(n).Ok? {
      var last := PersistAssistant(AssistantMessage(w.answer(n).value));
      FlatMapAppend(SentOnly, [CostCheck(None), r], [last]);
      FlatMapOne(SentOnly, last);
      assert [CostCheck(None), r] + [last] == [CostCheck(None), r, last];
    }
  }

  lemma TurnRequests(s: Setup, w: World, n: nat)
    requires Reaches(s, w, n)
    ensures Requests(LastUser(s.history) + PassEvents(s, w, n) + EndEvents(s, w, n))
            == RequestsBefore(s, w, n) + Requests(EndEvents(s, w, n))
  {
    PrologueSendsNothing(s.history);
    PassRequests(s, w, n);
    SilentThenTwo(SentOnly, LastUser(s.history), PassEvents(s, w, n), EndEvents(s, w, n),
                  RequestsBefore(s, w, n), Requests(EndEvents(s, w, n)));
  }

  lemma TurnSends(s: Setup, w: World, n: nat)
    requires n == LastPass(s, w, 0)
    ensures Requests(TurnLog(s, w))
            == RequestsBefore(s, w, n) + (if w.cancelled(n) || w.refusal(n).Some? then [] else [RequestAt(s, w, n)])
  {
    TurnRequests(s, w, n);
    EndRequests(s, w, n);
  }

  lemma CallOfTurn(s: Setup, w: World, n: nat, j: nat)
    requires n == LastPass(s, w, 0) && j < Sends(s, w) && |Requests(TurnLog(s, w))| == Sends(s, w)
    ensures Reaches(s, w, j) && Requests(TurnLog(s, w))[j] == RequestAt(s, w, j)
  {
    TurnSends(s, w, n);
    if j < n {
      RequestsBeforeAt(s, w, n, j);
    }
  }

  lemma NumberOfCalls(s: Setup, w: World, n: nat)
    requires n == LastPass(s, w, 0)
    ensures |Requests(TurnLog(s, w))| == Sends(s, w) <= s.maxRounds + 1
  {
    TurnSends(s, w, n);
  }

  /** The calls of a turn are the requests of its passes, in order, and there are at most maxRounds + 1. */
  lemma CallsOfTurn(s: Setup, w: World)
    ensures |Requests(TurnLog(s, w))| == Sends(s, w) <= s.maxRounds + 1
    ensures forall j :: 0 <= j < Sends(s, w) ==> Reaches(s, w, j) && Requests(TurnLog(s, w))[j] == RequestAt(s, w, j)
  {
    var n := LastPass(s, w, 0);
    NumberOfCalls(s, w, n);
    forall j | 0 <= j < Sends(s, w)
      ensures Reaches(s, w, j) && Requests(TurnLog(s, w))[j] == RequestAt(s, w, j)
    {
      CallOfTurn(s, w, n, j);
    }
  }

  /** Every call directly follows a cost check of its own that passed. */
  predicate Guarded(log: seq<Event>) {
    forall i :: 0 <= i < |log| && log[i].Sent? ==> i > 0 && log[i - 1] == CostCheck(None)
  }

  lemma GuardedAppend(a: seq<Event>, b: seq<Event>)
    requires Guarded(a) && Guarded(b)
    ensures Guarded(a + b)
  {
  }

  lemma {:induction false} PassesAreGuarded(s: Setup, w: World, n: nat)
    requires Reaches(s, w, n)
    ensures Guarded(PassEvents(s, w, n))
  {
    if n > 0 {
      PassesAreGuarded(s, w, n - 1);
      GuardedAppend(PassEvents(s, w, n - 1), [CostCheck(None), RequestAt(s, w, n - 1)]);
    }
  }

  lemma {:induction false} PrologueIsGuarded(history: seq<Message>)
    ensures Guarded(LastUser(history))
  {
    if history != [] {
      PrologueIsGuarded(history[..|history| - 1]);
    }
  }

  lemma EveryCallIsGuarded(s: Setup, w: World)
    ensures Guarded(TurnLog(s, w))
  {
    var n := LastPass(s, w, 0);
    PrologueIsGuarded(s.history);
    PassesAreGuarded(s, w, n);
    GuardedAppend(LastUser(s.history), PassEvents(s, w, n));
    GuardedAppend(LastUser(s.history) + PassEvents(s, w, n), EndEvents(s, w, n));
  }

  /** Only the last call can be the tool-less one with the nudge: every earlier call offers the tools, is
      sent while the tokens debited so far are below the ceiling, and carries no nudge. */
  lemma OnlyTheLastCallFinalizes(s: Setup, w: World, j: nat)
    requires j < Sends(s, w)
    ensures Reaches(s, w, j)
    ensures if Spent(w, j) < s.ceiling && j < s.maxRounds
            then RequestAt(s, w, j) == Sent(Repaired(Transcript(s, w, j)), s.tools)
            else j + 1 == Sends(s, w)
                 && RequestAt(s, w, j) == Sent(Repaired(Transcript(s, w, j) + [NUDGE]), [])
  {
    ReachesEarlier(s, w, j);
    assert Transcript(s, w, j) + [] == Transcript(s, w, j);
    if Finalizing(s, w, j) {
      assert !Continues(s, w, j);
      assert LastPass(s, w, 0) <= j;
    }
  }

  /** Neither cancelled nor refused when pass i begins. */
  predicate Ready(w: World, i: nat) { !w.cancelled(i) && w.refusal(i).None? }

  /** Pass i offers the tools and is answered with calls of them. */
  predicate AsksForMore(s: Setup, w: World, i: nat) {
    && Spent(w, i) < s.ceiling && i < s.maxRounds
    && w.answer(i).Ok? && w.answer(i).value.toolCalls.GetOr([]) != []
  }

  lemma ContinuesMeans(s: Setup, w: World, i: nat)
    ensures Continues(s, w, i) <==> Ready(w, i) && AsksForMore(s, w, i)
  {
  }

  lemma LastPassEnds(s: Setup, w: World, n: nat)
    requires n == LastPass(s, w, 0)
    ensures Reaches(s, w, n) && !Continues(s, w, n)
    ensures Sends(s, w) == if Ready(w, n) then n + 1 else n
  {
  }

  lemma NextPass(s: Setup, w: World, n: nat, j: nat)
    requires Reaches(s, w, n) && !Continues(s, w, n) && (j < n || (j == n && Ready(w, n)))
    ensures (j + 1 < n || (j + 1 == n && Ready(w, n))) <==> AsksForMore(s, w, j) && Ready(w, j + 1)
  {
    ContinuesMeans(s, w, j);
    ContinuesMeans(s, w, j + 1);
    assert j < n ==> Continues(s, w, j);
    assert j + 1 < n ==> Continues(s, w, j + 1);
  }

  /** The turn sends a first request exactly if it is neither cancelled nor refused before; and one more after each
      that offered the tools and was answered with calls of them, exactly if it is neither cancelled nor refused
      then. */
  lemma SendsExactlyIf(s: Setup, w: World, j: nat)
    ensures 0 < Sends(s, w) <==> Ready(w, 0)
    ensures j < Sends(s, w) ==> (j + 1 < Sends(s, w) <==> AsksForMore(s, w, j) && Ready(w, j + 1))
  {
    var n := LastPass(s, w, 0);
    LastPassEnds(s, w, n);
    ContinuesMeans(s, w, 0);
    assert n > 0 ==> Continues(s, w, 0);
    if j < Sends(s, w) {
      NextPass(s, w, n, j);
    }
  }

  /** The tokens of the last two of n calls, or of the only one. */
  function LastCalls(w: World, n: nat): nat {
    if n == 0 then 0
    else if n == 1 then TurnTokens(UsageAt(w, 0))
    else TurnTokens(UsageAt(w, n - 2)) + TurnTokens(UsageAt(w, n - 1))
  }

  /** The turn can overspend its ceiling by no more than its last two calls. */
  lemma SpendIsBounded(s: Setup, w: World)
    ensures var n := Sends(s, w);
            && Spent(w, n) <= s.ceiling + LastCalls(w, n)
            && (n >= 2 ==> Spent(w, n) < s.ceiling + LastCalls(w, n))
  {
    if Sends(s, w) >= 2 {
      BelowCeiling(s, w, Sends(s, w) - 2);
      LastTwo(w, Sends(s, w));
    } else {
      assert Sends(s, w) == 1 ==> Spent(w, 1) == Spent(w, 0) + TurnTokens(UsageAt(w, 0));
    }
  }

  lemma BelowCeiling(s: Setup, w: World, j: nat)
    requires j + 1 < Sends(s, w)
    ensures Spent(w, j) < s.ceiling
  {
    OnlyTheLastCallFinalizes(s, w, j);
  }

  lemma LastTwo(w: World, n: nat)
    requires n >= 2
    ensures Spent(w, n) == Spent(w, n - 2) + TurnTokens(UsageAt(w, n - 2)) + TurnTokens(UsageAt(w, n - 1))
  {
  }

  function FieldSum(f: Usage -> nat, w: World, n: nat): nat {
    if n == 0 then 0 else FieldSum(f, w, n - 1) + f(UsageAt(w, n - 1))
  }

  lemma {:induction false} TotalIsTheSum(w: World, n: nat)
    ensures TotalUsage(w, n)
            == Usage(FieldSum((u: Usage) => u.input, w, n), FieldSum((u: Usage) => u.output, w, n),
                     FieldSum((u: Usage) => u.cacheRead, w, n), FieldSum((u: Usage) => u.cacheWrite, w, n),
                     FieldSum((u: Usage) => u.reasoning, w, n))
  {
    if n > 0 {
      TotalIsTheSum(w, n - 1);
    }
  }

  lemma {:induction false} SpentIsInTheTotal(w: World, n: nat)
    ensures var u := TotalUsage(w, n);
            Spent(w, n) == u.input + u.output + u.reasoning + u.cacheWrite
  {
    if n > 0 {
      SpentIsInTheTotal(w, n - 1);
    }
  }

  /** The usage a finished turn reports is the sum over all the calls it made, and all of it but the cached reads
      is what they took from the budget. */
  lemma UsageIsTheSum(s: Setup, w: World)
    ensures var r := EndResult(w, LastPass(s, w, 0));
            r.Ok? && r.value.Final? ==>
              var u := r.value.usage;
              && u == TotalUsage(w, Sends(s, w))
              && Spent(w, Sends(s, w)) == u.input + u.output + u.reasoning + u.cacheWrite
  {
    SpentIsInTheTotal(w, Sends(s, w));
  }

  /** The transcript entry says what the answer says, word by word. */
  predicate Carries(m: Message, a: Answer) {
    && m.role == Assistant && m.content == a.content && m.toolCalls == a.toolCalls
    && m.finishReason == Some(a.finish) && m.reasoning == a.reasoning && m.providerData == a.providerData
    && m.toolCallId.None? && !m.isUntrusted
  }

  /** The end of a turn in its log: it answers exactly if the last thing it did was to persist an answer, which is
      the answer the provider gave to its last request, and returns its content and finish reason. It is refused
      exactly if its last check was; it fails with the error that the provider answered its last request with;
      and it is interrupted exactly if the check before the next call finds it cancelled. */
  ghost predicate EndsAsLogged(log: seq<Event>, result: Result<TurnResult, string>, cancelled: bool,
                               last: Result<Answer, string>) {
    && (result == Ok(Interrupted) <==> cancelled)
    && (result.Ok? && result.value.Final? <==> !cancelled && log != [] && log[|log| - 1].PersistAssistant?)
    && (result.Ok? && result.value.Final? ==>
          && last.Ok? && Carries(log[|log| - 1].m, last.value)
          && result.value.content == last.value.content && result.value.finish == last.value.finish)
    && (forall reason :: result == Ok(Refused(reason)) <==>
                           !cancelled && log != [] && log[|log| - 1] == CostCheck(Some(reason)))
    && (forall e :: result == Err(e) <==>
                      !cancelled && log != [] && log[|log| - 1].Sent? && last == Err(e))
  }

  lemma TurnEndsAsLogged(s: Setup, w: World)
    ensures var n := LastPass(s, w, 0);
            EndsAsLogged(TurnLog(s, w), EndResult(w, n), w.cancelled(n), w.answer(n))
  {
    var n := LastPass(s, w, 0);
    var before, end := LastUser(s.history) + PassEvents(s, w, n), EndEvents(s, w, n);
    assert TurnLog(s, w) == before + end;
    if end != [] {
      assert (before + end)[|before + end| - 1] == end[|end| - 1];
    }
  }

  // ---------------------------------------------------------------------------------------------
  // Finished rounds in every request
  // ---------------------------------------------------------------------------------------------

  lemma RoundIsFinished(s: Setup, w: World, i: nat)
    requires Continues(s, w, i)
    ensures Finished(RoundAt(w, i))
  {
  }

  /** In every request after the first, the repaired copy is the repaired history, then every finished round
      with its assistant message and one result per call in the order of the calls, then the nudge if there
      is one: exactly when the history does not end in an assistant message and every call has an id. */
  lemma RequestsKeepRounds(s: Setup, w: World, j: nat)
    requires 1 <= j < Sends(s, w)
    ensures Reaches(s, w, j)
    ensures RequestAt(s, w, j).messages
            == Repaired(s.history) + FlatMap(RoundMessages, Rounds(s, w, j)) + Tail(s, w, j)
            <==> !EndsInAssistant(s.history) && forall i :: 0 <= i < j ==> HasIds(Rounds(s, w, j)[i])
  {
    ReachesEarlier(s, w, j);
    var rs := Rounds(s, w, j);
    forall i | 0 <= i < j ensures Finished(rs[i]) {
      assert Continues(s, w, i);
      RoundIsFinished(s, w, i);
    }
    RoundsSurviveExactly(s.history, rs, Tail(s, w, j));
  }

  /** What the next request tells the model of a call: the tool's own words, or that it failed and why, under the
      call's id and name, and never as trusted text. */
  predicate Reports(exec: Option<(nat, nat, string, string) -> Result<string, string>>, pass: nat, k: nat,
                    call: ToolCall, m: Message) {
    && m.role == Tool && m.toolCallId == call.id && m.toolName == Some(call.name) && m.isUntrusted
    && CallsOf(m) == []
    && (exec.None? ==> m.content == Some("result for " + call.name))
    && (exec.Some? ==>
          var r := exec.value(pass, k, call.name, call.arguments);
          && (r.Ok? ==> m.content == Some(r.value))
          && (r.Err? ==> m.content == Some("tool error (" + call.name + "): " + r.error)))
  }

  lemma {:induction false} RoundMessagesAt(rs: seq<Round>, i: nat, m: Message)
    requires i < |rs| && m in RoundMessages(rs[i])
    ensures m in FlatMap(RoundMessages, rs)
  {
    if i > 0 {
      RoundMessagesAt(rs[1..], i - 1, m);
    }
  }

  /** Every request holds every answer so far that called tools, and what became of each of its calls; where the
      history does not end in an assistant message and every call has an id. */
  lemma RequestsHoldResults(s: Setup, w: World, j: nat, i: nat, k: nat)
    requires i < j < Sends(s, w) && !EndsInAssistant(s.history)
    requires Reaches(s, w, j) && forall i :: 0 <= i < j ==> HasIds(Rounds(s, w, j)[i])
    ensures w.answer(i).Ok? && exists m :: m in RequestAt(s, w, j).messages && Carries(m, w.answer(i).value)
    ensures k < |w.answer(i).value.toolCalls.GetOr([])| ==>
              exists m :: m in RequestAt(s, w, j).messages
                          && Reports(w.exec, i, k, w.answer(i).value.toolCalls.GetOr([])[k], m)
  {
    RequestsKeepRounds(s, w, j);
    var rs := Rounds(s, w, j);
    var r := RoundAt(w, i);
    RoundMessagesAt(rs, i, r.assistant);
    assert Carries(r.assistant, w.answer(i).value);
    if k < |CallsAt(w, i)| {
      assert r.results[k] in RoundMessages(r);
      RoundMessagesAt(rs, i, r.results[k]);
      assert Reports(w.exec, i, k, CallsAt(w, i)[k], r.results[k]);
    }
  }

  lemma {:induction false} ToolsOfRounds(rs: seq<Round>)
    requires forall k :: 0 <= k < |rs| ==> Finished(rs[k])
    ensures ToolsCarryNoCalls(FlatMap(RoundMessages, rs))
  {
    if rs != [] {
      ToolsOfRounds(rs[1..]);
    }
  }

  lemma MessagesOfRequest(s: Setup, w: World, j: nat)
    requires j < Sends(s, w)
    ensures Reaches(s, w, j) && RequestAt(s, w, j).Sent?
    ensures RequestAt(s, w, j).messages == Repaired(Transcript(s, w, j) + Tail(s, w, j))
  {
    ReachesEarlier(s, w, j);
  }

  /** In every request, the first included, each tool result has its call before it or in itself exactly if no
      result kept depends on a call that only results cleaned away make; and in an earlier message where the
      history's tool messages carry no calls of their own. */
  lemma RequestsHaveNoOrphans(s: Setup, w: World, j: nat)
    requires j < Sends(s, w)
    ensures Reaches(s, w, j)
    ensures NoOrphans(RequestAt(s, w, j).messages) <==> NoCallLost(Coalesce([], Transcript(s, w, j) + Tail(s, w, j)))
    ensures ToolsCarryNoCalls(s.history) ==>
              forall k :: 0 <= k < |RequestAt(s, w, j).messages| ==> Answers(RequestAt(s, w, j).messages, k)
  {
    MessagesOfRequest(s, w, j);
    RepairedHasNoOrphansExactlyIf(Transcript(s, w, j) + Tail(s, w, j));
    if ToolsCarryNoCalls(s.history) {
      forall k | 0 <= k < |RequestAt(s, w, j).messages|
        ensures Answers(RequestAt(s, w, j).messages, k)
      {
        ResultsComeLater(s, w, j, k);
      }
    }
  }

  lemma ResultsComeLater(s: Setup, w: World, j: nat, k: nat)
    requires ToolsCarryNoCalls(s.history) && j < Sends(s, w) && Reaches(s, w, j)
    requires k < |Repaired(Transcript(s, w, j) + Tail(s, w, j))|
    ensures Answers(Repaired(Transcript(s, w, j) + Tail(s, w, j)), k)
  {
    var rs := Rounds(s, w, j);
    forall i | 0 <= i < j ensures Finished(rs[i]) {
      assert Continues(s, w, i);
      RoundIsFinished(s, w, i);
    }
    ToolsOfRounds(rs);
    var all := Transcript(s, w, j) + Tail(s, w, j);
    assert ToolsCarryNoCalls(all);
    RepairedHasNoOrphans(all, k);
  }
}
