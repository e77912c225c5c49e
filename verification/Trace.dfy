/** What a transcript says, independently of any wire format. */
module Trace {
  import opened Common
  import opened Json
  import opened Protocol

  datatype Turn =
    | UserSaid(text: string)
    | AssistantSaid(text: string)
    | Called(id: string, name: string, args: Args)
    | Answered(id: string, content: string)

  function Spoken(assistant: bool, text: string): seq<Turn> {
    if text == "" then [] else if assistant then [AssistantSaid(text)] else [UserSaid(text)]
  }

  function CallTurn(c: Codec, call: ToolCall): Turn {
    Called(call.id.GetOr(""), call.name, ArgsOf(c, call.arguments))
  }

  function CallTurns(c: Codec, calls: seq<ToolCall>): seq<Turn> { Map((call: ToolCall) => CallTurn(c, call), calls) }

  function Meaning(c: Codec, m: Message): seq<Turn> {
    match m.role
    case System => []
    case User => Spoken(false, m.content.GetOr(""))
    case Assistant => Spoken(true, m.content.GetOr("")) + CallTurns(c, CallsOf(m))
    case Tool => [Answered(m.toolCallId.GetOr(""), m.content.GetOr(""))]
  }

  function MeaningIn(c: Codec): Message -> seq<Turn> { (m: Message) => Meaning(c, m) }

  function TraceOf(c: Codec, msgs: seq<Message>): seq<Turn> { FlatMap(MeaningIn(c), msgs) }

  /** Two piecewise readings of a list, one at least as long as the other on every piece, agree exactly
      when they agree on every piece. */
  lemma {:induction false} PiecewiseAgreement<A, B>(f: A -> seq<B>, g: A -> seq<B>, xs: seq<A>)
    requires forall x :: |f(x)| >= |g(x)|
    ensures |FlatMap(f, xs)| >= |FlatMap(g, xs)|
    ensures FlatMap(f, xs) == FlatMap(g, xs) <==> forall k :: 0 <= k < |xs| ==> f(xs[k]) == g(xs[k])
  {
    if xs != [] {
      PiecewiseAgreement(f, g, xs[1..]);
      HeadAndTailAgree(f(xs[0]), FlatMap(f, xs[1..]), g(xs[0]), FlatMap(g, xs[1..]));
      assert forall k :: 0 <= k < |xs[1..]| ==> xs[1..][k] == xs[k + 1];
      assert forall k :: 1 <= k < |xs| ==> xs[k] == xs[1..][k - 1];
    }
  }

  lemma HeadAndTailAgree<B>(a: seq<B>, at: seq<B>, b: seq<B>, bt: seq<B>)
    requires |a| >= |b| && |at| >= |bt|
    ensures a + at == b + bt <==> a == b && at == bt
  {
    if a + at == b + bt {
      assert a == (a + at)[..|a|] && at == (a + at)[|a|..];
      assert b == (b + bt)[..|b|] && bt == (b + bt)[|b|..];
    }
  }
}
