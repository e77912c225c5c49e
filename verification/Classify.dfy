/** From what went wrong to what to do about it (qcue-rs/router/src/classify.rs, retry_loop.rs). */
module Classify {
  import opened Text

  datatype ApiError = Status(status: nat) | StreamIdle | StreamTtfb | Transport | Decode

  datatype Reason =
    | Auth | AuthPermanent | Billing | RateLimit | Overloaded | ServerError | Timeout | ContextOverflow
    | PayloadTooLarge | ModelNotFound | ContentPolicyBlocked | FormatError | Unknown

  datatype Bits = Bits(retryable: bool, rotate: bool, fallback: bool, compress: bool)

  datatype Action = Rotate | Fallback | Compress | Backoff | Abort

  const TERMINAL_AUTH := ["token_revoked", "invalid_grant", "token_invalidated", "account_deactivated"]
  const TRANSIENT_SIGNALS := ["try again", "retry after", "resets at", "resets in", "requests remaining", "rate limit",
                              "too many requests"]
  const BILLING_SIGNALS :=
    ["quota", "insufficient_quota", "billing", "exceeded your current quota", "payment", "credit"]

  predicate Mentions(msg: string, parts: seq<string>) {
    exists k :: 0 <= k < |parts| && Occurs(msg, parts[k])
  }

  function LimitReason(msg: string, otherwise: Reason): Reason {
    if Mentions(msg, TRANSIENT_SIGNALS) then RateLimit
    else if Mentions(msg, BILLING_SIGNALS) then Billing
    else otherwise
  }

  function StatusReason(status: nat, msg: string): Reason {
    match status
    case 401 => Auth
    case 403 => Auth
    case 404 => ModelNotFound
    case 413 => PayloadTooLarge
    case 429 => LimitReason(msg, RateLimit)
    case 529 => Overloaded
    case _ => if status >= 500 then ServerError else LimitReason(msg, Unknown)
  }

  /** `msg` is the innermost error message, in lower case. */
  function ClassifyReason(err: ApiError, msg: string): Reason {
    if err.StreamIdle? || err.StreamTtfb? then Timeout
    else if Mentions(msg, TERMINAL_AUTH) then AuthPermanent
    else if Occurs(msg, "content policy") || Occurs(msg, "content_policy") then ContentPolicyBlocked
    else if Occurs(msg, "context length") || Occurs(msg, "context_length") || Occurs(msg, "maximum context")
    then ContextOverflow
    else if err.Status? then StatusReason(err.status, msg)
    else LimitReason(msg, Unknown)
  }

  function ActionBits(reason: Reason): Bits {
    match reason
    case Auth => Bits(true, true, false, false)
    case AuthPermanent => Bits(false, false, false, false)
    case Billing => Bits(false, false, true, false)
    case RateLimit => Bits(true, true, false, false)
    case Overloaded => Bits(true, false, true, false)
    case ServerError => Bits(true, false, true, false)
    case Timeout => Bits(true, false, false, false)
    case ContextOverflow => Bits(true, false, false, true)
    case PayloadTooLarge => Bits(true, false, false, true)
    case ModelNotFound => Bits(false, false, true, false)
    case ContentPolicyBlocked => Bits(false, false, false, false)
    case FormatError => Bits(true, false, false, false)
    case Unknown => Bits(true, false, true, false)
  }

  function DecideAction(b: Bits): Action {
    if b.rotate then Rotate
    else if b.fallback then Fallback
    else if b.compress then Compress
    else if b.retryable then Backoff
    else Abort
  }

  function ActionFor(err: ApiError, msg: string): Action { DecideAction(ActionBits(ClassifyReason(err, msg))) }

  /** Only a stream timeout is met by waiting: no HTTP error ever is. */
  lemma BacksOffExactlyOnTimeouts(err: ApiError, msg: string)
    ensures ActionFor(err, msg) == Backoff <==> err.StreamIdle? || err.StreamTtfb?
  {
  }

  /** The message condemns the credential. */
  predicate Condemns(msg: string) {
    Occurs(msg, "token_revoked") || Occurs(msg, "invalid_grant") || Occurs(msg, "token_invalidated")
    || Occurs(msg, "account_deactivated")
  }

  predicate ForbiddenContent(msg: string) { Occurs(msg, "content policy") || Occurs(msg, "content_policy") }

  predicate TooLong(msg: string) {
    Occurs(msg, "context length") || Occurs(msg, "context_length") || Occurs(msg, "maximum context")
  }

  /** The message asks to come back later. */
  predicate Passing(msg: string) {
    Occurs(msg, "try again") || Occurs(msg, "retry after") || Occurs(msg, "resets at") || Occurs(msg, "resets in")
    || Occurs(msg, "requests remaining") || Occurs(msg, "rate limit") || Occurs(msg, "too many requests")
  }

  predicate AboutMoney(msg: string) {
    Occurs(msg, "quota") || Occurs(msg, "insufficient_quota") || Occurs(msg, "billing")
    || Occurs(msg, "exceeded your current quota") || Occurs(msg, "payment") || Occurs(msg, "credit")
  }

  lemma OneOfTwo(msg: string, a: seq<string>, b: seq<string>)
    ensures Mentions(msg, a + b) <==> Mentions(msg, a) || Mentions(msg, b)
  {
    var all := a + b;
    if k :| 0 <= k < |a| && Occurs(msg, a[k]) {
      assert Occurs(msg, all[k]);
    }
    if k :| 0 <= k < |b| && Occurs(msg, b[k]) {
      assert Occurs(msg, all[|a| + k]);
    }
  }

  lemma OneOfThree(msg: string, a: string, b: string, c: string)
    ensures Mentions(msg, [a, b, c]) <==> Occurs(msg, a) || Occurs(msg, b) || Occurs(msg, c)
  {
    var parts := [a, b, c];
    assert parts[0] == a && parts[1] == b && parts[2] == c;
  }

  lemma OneOfFour(msg: string, a: string, b: string, c: string, d: string)
    ensures Mentions(msg, [a, b, c, d])
            <==> Occurs(msg, a) || Occurs(msg, b) || Occurs(msg, c) || Occurs(msg, d)
  {
    var parts := [a, b, c, d];
    assert parts[0] == a && parts[1] == b && parts[2] == c && parts[3] == d;
  }

  lemma AuthSignals(msg: string)
    ensures Mentions(msg, TERMINAL_AUTH) <==> Condemns(msg)
  {
    OneOfFour(msg, "token_revoked", "invalid_grant", "token_invalidated", "account_deactivated");
  }

  lemma TransientSignals(msg: string)
    ensures Mentions(msg, TRANSIENT_SIGNALS) <==> Passing(msg)
  {
    var a := ["try again", "retry after", "resets at", "resets in"];
    var b := ["requests remaining", "rate limit", "too many requests"];
    OneOfTwo(msg, a, b);
    OneOfFour(msg, "try again", "retry after", "resets at", "resets in");
    OneOfThree(msg, "requests remaining", "rate limit", "too many requests");
    assert TRANSIENT_SIGNALS == a + b;
  }

  lemma BillingSignals(msg: string)
    ensures Mentions(msg, BILLING_SIGNALS) <==> AboutMoney(msg)
  {
    var a, b := ["quota", "insufficient_quota", "billing"], ["exceeded your current quota", "payment", "credit"];
    OneOfTwo(msg, a, b);
    OneOfThree(msg, "quota", "insufficient_quota", "billing");
    OneOfThree(msg, "exceeded your current quota", "payment", "credit");
    assert BILLING_SIGNALS == a + b;
  }

  lemma Mentioned(msg: string)
    ensures Mentions(msg, TERMINAL_AUTH) <==> Condemns(msg)
    ensures Mentions(msg, TRANSIENT_SIGNALS) <==> Passing(msg)
    ensures Mentions(msg, BILLING_SIGNALS) <==> AboutMoney(msg)
  {
    AuthSignals(msg);
    TransientSignals(msg);
    BillingSignals(msg);
  }

  /** Only these messages condemn a credential. */
  lemma CondemnedExactlyIf(status: nat, msg: string)
    ensures ClassifyReason(Status(status), msg).AuthPermanent? <==> Condemns(msg)
  {
    AuthSignals(msg);
    PlainStatus(status, msg, Mentions(msg, TRANSIENT_SIGNALS), Mentions(msg, BILLING_SIGNALS));
    Precedence(status, msg, StatusReason(status, msg));
  }

  /** What a status leads to whose message says nothing decisive. */
  lemma PlainStatus(status: nat, msg: string, passing: bool, money: bool)
    requires passing == Mentions(msg, TRANSIENT_SIGNALS) && money == Mentions(msg, BILLING_SIGNALS)
    ensures var action := DecideAction(ActionBits(StatusReason(status, msg)));
            action == if status == 413 then Compress
                      else if status == 401 || status == 403 then Rotate
                      else if status == 404 || status >= 500 then Fallback
                      else if passing || (status == 429 && !money) then Rotate
                      else Fallback
    ensures !StatusReason(status, msg).AuthPermanent?
  {
  }

  lemma Precedence(status: nat, msg: string, plain: Reason)
    requires plain == StatusReason(status, msg)
    ensures ClassifyReason(Status(status), msg)
         == if Mentions(msg, TERMINAL_AUTH) then AuthPermanent
            else if ForbiddenContent(msg) then ContentPolicyBlocked
            else if TooLong(msg) then ContextOverflow
            else plain
  {
  }

  /** What an answer with an error status leads to, going by its status and what its message says. */
  function Expected(status: nat, msg: string): Action {
    if Condemns(msg) || ForbiddenContent(msg) then Abort
    else if TooLong(msg) || status == 413 then Compress
    else if status == 401 || status == 403 then Rotate
    else if status == 404 || status >= 500 then Fallback
    else if Passing(msg) || (status == 429 && !AboutMoney(msg)) then Rotate
    else Fallback
  }

  /** The call ends for condemned credentials and forbidden content; a prompt that is too long counts as such
      whatever the status; 401 and 403 rotate, 404 and server errors go to the next provider; 429 rotates unless
      it is about money only, and any other error if it asks to come back. */
  lemma StatusDecides(status: nat, msg: string)
    ensures ActionFor(Status(status), msg) == Expected(status, msg)
  {
    Mentioned(msg);
    PlainStatus(status, msg, Mentions(msg, TRANSIENT_SIGNALS), Mentions(msg, BILLING_SIGNALS));
    Precedence(status, msg, StatusReason(status, msg));
  }
}
