/** One provider call with its recovery loop (qcue-rs/router/src/dispatch_http.rs), for one tenant.

    The network, the database and the clock are a script: an Attempt says what they do during one turn of
    the loop, and how much time passes. The clock never goes back. */
module Dispatch {
  import opened Common
  import C = Classify
  import opened Pool
  import opened Resolver

  const MAX_ATTEMPTS: nat := 16

  datatype Failure =
    | NotAttempted | Cancelled | NoCredentials | NoEligible | DecryptFailed | InsecureUrl | Network | BadBody
    | Http(status: nat)

  /** What comes back for a request: nothing, a success whose body can be normalised or not, or an error
      status with its message and the delay it asks for. */
  datatype Reply =
    | Unreachable
    | Success(decodes: bool)
    | ErrorStatus(status: nat, message: string, resetMs: Option<int>)

  datatype Attempt = Attempt(
    cancelled: bool,
    loadFails: bool,
    decryptFails: bool,
    insecure: bool,
    cancelledInFlight: bool,
    reply: Reply,
    cancelledInBackoff: bool,
    stored: bool,
    waitMs: nat,
    latencyMs: nat,
    writeLagMs: nat)

  /** What is seen of a run: requests sent, penalties and deaths with whether they were stored, and waits. */
  datatype Event =
    | Sent(provider: string, id: nat, at: int)
    | Penalised(provider: string, id: nat, at: int, until: int, stored: bool)
    | Killed(provider: string, id: nat, stored: bool)
    | Slept(ms: int)

  type Store = map<string, seq<Row>>

  datatype State = State(idx: nat, store: Store, clock: int, log: seq<Event>)

  /** How a turn of the loop ends; a turn that goes on may leave an error behind. */
  datatype Outcome = Again(err: Option<Failure>) | Done(answer: Result<(), Failure>)

  function RowsOf(store: Store, provider: string): seq<Row> {
    if provider in store then store[provider] else []
  }

  // ---------------------------------------------------------------------------------------------
  // One turn of the loop
  // ---------------------------------------------------------------------------------------------

  /** On to the next link, or out with this failure. */
  function Advance(links: seq<string>, s: State, left: Option<Failure>, otherwise: Failure): (State, Outcome) {
    if s.idx + 1 < |links| then (s.(idx := s.idx + 1), Again(left)) else (s, Done(Err(otherwise)))
  }

  function Stored(s: State, provider: string, entries: seq<Cred>, a: Attempt, nowMs: int): State {
    var store := if a.stored && provider in s.store
      then s.store[provider := WrittenBack(s.store[provider], entries, nowMs, nowMs + a.writeLagMs)]
      else s.store;
    s.(store := store, clock := nowMs + a.writeLagMs)
  }

  function Logged(s: State, e: Event): State { s.(log := s.log + [e]) }

  function AfterSuccess(s: State, provider: string, entries: seq<Cred>, hint: string, a: Attempt): State {
    if Heals(entries, hint) then Stored(s, provider, Marked(entries, hint, Healthy), a, s.clock) else s
  }

  /** The penalty for the credential that failed, stored at `s.clock`, which is `now` plus the latency. */
  function AfterRotate(s: State, provider: string, entries: seq<Cred>, c: Cred, a: Attempt, now: int): State
    requires a.reply.ErrorStatus?
  {
    var until := CooldownEnd(a.reply.status, ResetAt(a.reply, now), now);
    Logged(Stored(s, provider, Marked(entries, c.hint, Cooling(until)), a, s.clock),
           Penalised(provider, c.id, now, until, a.stored))
  }

  function AfterDeath(s: State, provider: string, entries: seq<Cred>, c: Cred, a: Attempt): State {
    Logged(Stored(s, provider, Marked(entries, c.hint, Dead), a, s.clock), Killed(provider, c.id, a.stored))
  }

  function ResetAt(r: Reply, now: int): Option<int>
    requires r.ErrorStatus?
  {
    match r.resetMs
    case Some(d) => Some(now + d)
    case None => None
  }

  function Clamp(x: int, low: int, high: int): int { if x < low then low else if x > high then high else x }

  function BackoffMs(r: Reply): (ms: int)
    requires r.ErrorStatus?
    ensures r.resetMs.None? ==> ms == 500
    ensures 0 <= ms <= 30_000 && (r.resetMs.Some? && 0 <= r.resetMs.value <= 30_000 ==> ms == r.resetMs.value)
  {
    Clamp(r.resetMs.GetOr(500), 0, 30_000)
  }

  /** What to do about an error status, and whether it condemns the credential. */
  datatype Decision = Decision(action: C.Action, fatal: bool)

  function Decide(r: Reply): Decision {
    if r.ErrorStatus? then
      var reason := C.ClassifyReason(C.Status(r.status), r.message);
      Decision(C.DecideAction(C.ActionBits(reason)), reason.AuthPermanent?)
    else Decision(C.Abort, false)
  }

  function OnError(d: Decision, links: seq<string>, s: State, provider: string, entries: seq<Cred>, c: Cred, a: Attempt,
                   now: int): (State, Outcome)
    requires a.reply.ErrorStatus?
  {
    var err := Http(a.reply.status);
    match d.action
    case Rotate =>
      var s' := AfterRotate(s, provider, entries, c, a, now);
      var until := CooldownEnd(a.reply.status, ResetAt(a.reply, now), now);
      if Best(Marked(entries, c.hint, Cooling(until)), now).Some? then (s', Again(Some(err)))
      else Advance(links, s', Some(err), err)
    case Fallback => Advance(links, s, Some(err), err)
    case Compress => Advance(links, s, Some(err), err)
    case Backoff =>
      if a.cancelledInBackoff then (s, Done(Err(Cancelled)))
      else (Logged(s, Slept(BackoffMs(a.reply))).(clock := s.clock + BackoffMs(a.reply)), Again(Some(err)))
    case Abort => (if d.fatal then AfterDeath(s, provider, entries, c, a) else s, Done(Err(err)))
  }

  /** From the choice of a credential on. */
  function Use(d: Decision, links: seq<string>, s: State, provider: string, entries: seq<Cred>, c: Cred, a: Attempt)
    : (State, Outcome)
  {
    if a.decryptFails then Advance(links, s, None, DecryptFailed)
    else if a.insecure then (s, Done(Err(InsecureUrl)))
    else
      var now := s.clock;
      var s' := Logged(s, Sent(provider, c.id, now)).(clock := now + a.latencyMs);
      if a.cancelledInFlight then (s', Done(Err(Cancelled)))
      else
        match a.reply
        case Unreachable => Advance(links, s', Some(Network), Network)
        case Success(decodes) =>
          (AfterSuccess(s', provider, entries, c.hint, a), Done(if decodes then Ok(()) else Err(BadBody)))
        case ErrorStatus(_, _, _) => OnError(d, links, s', provider, entries, c, a, now)
  }

  function Step(links: seq<string>, s: State, a: Attempt, d: Decision): (State, Outcome)
    requires s.idx < |links|
  {
    var provider := links[s.idx];
    var s' := s.(clock := s.clock + a.waitMs);
    var rows := RowsOf(s.store, provider);
    if a.loadFails || rows == [] then Advance(links, s', None, NoCredentials)
    else
      match Best(Load(rows), s'.clock)
      case None => Advance(links, s', None, NoEligible)
      case Some(i) => Use(d, links, s', provider, Load(rows), Load(rows)[i], a)
  }

  /** The chain only moves forward, and stays within its links. */
  predicate Forward(links: seq<string>, s: State, s': State) { s.idx <= s'.idx < |links| }

  lemma ErrorIsForward(d: Decision, links: seq<string>, s: State, provider: string, entries: seq<Cred>, c: Cred,
                       a: Attempt, now: int)
    requires s.idx < |links| && a.reply.ErrorStatus?
    ensures Forward(links, s, OnError(d, links, s, provider, entries, c, a, now).0)
  {
  }

  lemma UseIsForward(d: Decision, links: seq<string>, s: State, provider: string, entries: seq<Cred>, c: Cred,
                     a: Attempt)
    requires s.idx < |links|
    ensures Forward(links, s, Use(d, links, s, provider, entries, c, a).0)
  {
    if a.reply.ErrorStatus? {
      var sent := Logged(s, Sent(provider, c.id, s.clock)).(clock := s.clock + a.latencyMs);
      ErrorIsForward(d, links, sent, provider, entries, c, a, s.clock);
    }
  }

  /** A turn that chooses no credential. */
  predicate Idle(links: seq<string>, s: State, a: Attempt)
    requires s.idx < |links|
  {
    var rows := RowsOf(s.store, links[s.idx]);
    a.loadFails || rows == [] || Best(Load(rows), s.clock + a.waitMs).None?
  }

  /** The credential that a turn chooses. */
  function Chosen(links: seq<string>, s: State, a: Attempt): Cred
    requires s.idx < |links| && !Idle(links, s, a)
  {
    var entries := Load(RowsOf(s.store, links[s.idx]));
    entries[Best(entries, s.clock + a.waitMs).value]
  }

  lemma StepUses(links: seq<string>, s: State, a: Attempt, d: Decision)
    requires s.idx < |links| && !Idle(links, s, a)
    ensures Step(links, s, a, d)
         == Use(d, links, s.(clock := s.clock + a.waitMs), links[s.idx], Load(RowsOf(s.store, links[s.idx])),
                Chosen(links, s, a), a)
  {
  }

  lemma IdleIsForward(links: seq<string>, s: State, a: Attempt, d: Decision)
    requires s.idx < |links| && Idle(links, s, a)
    ensures Forward(links, s, Step(links, s, a, d).0) && Step(links, s, a, d).0.log == s.log
  {
  }

  lemma StepIsForward(links: seq<string>, s: State, a: Attempt, d: Decision)
    requires s.idx < |links|
    ensures Forward(links, s, Step(links, s, a, d).0)
  {
    if Idle(links, s, a) {
      IdleIsForward(links, s, a, d);
    } else {
      StepUses(links, s, a, d);
      UseIsForward(d, links, s.(clock := s.clock + a.waitMs), links[s.idx], Load(RowsOf(s.store, links[s.idx])),
                   Chosen(links, s, a), a);
    }
  }

  /** The loop from its k-th turn on. */
  function Run(links: seq<string>, s: State, script: nat -> Attempt, k: nat, last: Failure)
    : (State, Result<(), Failure>)
    requires s.idx < |links| && k <= MAX_ATTEMPTS
    decreases MAX_ATTEMPTS - k
  {
    if script(k).cancelled then (s, Err(Cancelled))
    else if k == MAX_ATTEMPTS then (s, Err(last))
    else
      var d := Decide(script(k).reply);
      StepIsForward(links, s, script(k), d);
      var (s', o) := Step(links, s, script(k), d);
      match o
      case Done(answer) => (s', answer)
      case Again(err) => Run(links, s', script, k + 1, err.GetOr(last))
  }

  function Completed(links: seq<string>, s: State, script: nat -> Attempt): (State, Result<(), Failure>)
    requires s.idx < |links|
  {
    Run(links, s, script, 0, NotAttempted)
  }

  // ---------------------------------------------------------------------------------------------
  // The dispatcher
  // ---------------------------------------------------------------------------------------------

  class HttpDispatch {
    const links: seq<string>
    var idx: nat
    var store: Store
    var clock: int
    ghost var log: seq<Event>

    /** The source indexes its links without a check. */
    ghost predicate Valid()
      reads this
    {
      idx < |links|
    }

    ghost function View(): State
      reads this
    {
      State(idx, store, clock, log)
    }

    constructor (links: seq<string>, store: Store, clock: int)
      requires links != []
      ensures Valid() && this.links == links && View() == State(0, store, clock, [])
    {
      this.links, this.idx, this.store, this.clock, this.log := links, 0, store, clock, [];
    }

    method AdvanceChain() returns (more: bool)
      requires Valid()
      modifies this`idx
      ensures Valid() && more == (old(idx) + 1 < |links|)
      ensures idx == if more then old(idx) + 1 else old(idx)
    {
      more := idx + 1 < |links|;
      if more {
        idx := idx + 1;
      }
    }

    /** Moves on along the chain, or gives up. */
    method FallBack(left: Option<Failure>, otherwise: Failure) returns (o: Outcome)
      requires Valid()
      modifies this`idx
      ensures Valid() && (View(), o) == Advance(links, old(View()), left, otherwise)
    {
      var more := AdvanceChain();
      o := if more then Again(left) else Done(Err(otherwise));
    }

    method Persist(provider: string, entries: seq<Cred>, a: Attempt)
      requires Valid()
      modifies this`store, this`clock
      ensures Valid() && View() == Stored(old(View()), provider, entries, a, old(clock))
    {
      if a.stored && provider in store {
        var rows := PersistTransitions(store[provider], entries, clock, clock + a.writeLagMs);
        store := store[provider := rows];
      }
      clock := clock + a.writeLagMs;
    }

    method HandleError(d: Decision, provider: string, pool: CredentialPool, c: Cred, a: Attempt, now: int)
      returns (o: Outcome)
      requires Valid() && a.reply.ErrorStatus?
      modifies this, pool
      ensures Valid()
      ensures (View(), o) == OnError(d, links, old(View()), provider, old(pool.entries), c, a, now)
    {
      var err := Http(a.reply.status);
      match d.action {
        case Rotate =>
          var next := pool.MarkExhaustedAndRotate(a.reply.status, ResetAt(a.reply, now), c.hint, now);
          Persist(provider, pool.entries, a);
          var until := CooldownEnd(a.reply.status, ResetAt(a.reply, now), now);
          log := log + [Penalised(provider, c.id, now, until, a.stored)];
          if next.Some? {
            return Again(Some(err));
          }
          o := FallBack(Some(err), err);
        case Fallback =>
          o := FallBack(Some(err), err);
        case Compress =>
          o := FallBack(Some(err), err);
        case Backoff =>
          if a.cancelledInBackoff {
            return Done(Err(Cancelled));
          }
          log := log + [Slept(BackoffMs(a.reply))];
          clock := clock + BackoffMs(a.reply);
          o := Again(Some(err));
        case Abort =>
          if d.fatal {
            pool.MarkDead(c.hint);
            Persist(provider, pool.entries, a);
            log := log + [Killed(provider, c.id, a.stored)];
          }
          o := Done(Err(err));
      }
    }

    method Send(d: Decision, provider: string, pool: CredentialPool, c: Cred, a: Attempt) returns (o: Outcome)
      requires Valid()
      modifies this, pool
      ensures Valid()
      ensures (View(), o) == Use(d, links, old(View()), provider, old(pool.entries), c, a)
    {
      if a.decryptFails {
        o := FallBack(None, DecryptFailed);
        return;
      }
      if a.insecure {
        return Done(Err(InsecureUrl));
      }
      var now := clock;
      log := log + [Sent(provider, c.id, now)];
      clock := now + a.latencyMs;
      if a.cancelledInFlight {
        return Done(Err(Cancelled));
      }
      match a.reply {
        case Unreachable =>
          o := FallBack(Some(Network), Network);
        case Success(decodes) =>
          var healed := pool.MarkOk(c.hint);
          if healed {
            Persist(provider, pool.entries, a);
          }
          o := Done(if decodes then Ok(()) else Err(BadBody));
        case ErrorStatus(_, _, _) =>
          o := HandleError(d, provider, pool, c, a, now);
      }
    }

    /** No credential to be had from this provider. */
    method SkipLink(a: Attempt, d: Decision, otherwise: Failure) returns (o: Outcome)
      requires Valid() && Idle(links, View(), a)
      requires otherwise == if a.loadFails || RowsOf(store, links[idx]) == [] then NoCredentials else NoEligible
      modifies this
      ensures Valid() && (View(), o) == Step(links, old(View()), a, d)
    {
      clock := clock + a.waitMs;
      o := FallBack(None, otherwise);
    }

    method UseCredential(a: Attempt, d: Decision, rows: seq<Row>, pool: CredentialPool, c: Cred) returns (o: Outcome)
      requires Valid() && !Idle(links, View(), a)
      requires rows == RowsOf(store, links[idx]) && pool.entries == Load(rows) && c == Chosen(links, View(), a)
      modifies this, pool
      ensures Valid() && (View(), o) == Step(links, old(View()), a, d)
    {
      StepUses(links, View(), a, d);
      clock := clock + a.waitMs;
      o := Send(d, links[idx], pool, c, a);
    }

    method TakeTurn(a: Attempt, d: Decision) returns (o: Outcome)
      requires Valid()
      modifies this
      ensures Valid() && (View(), o) == Step(links, old(View()), a, d)
    {
      var rows := RowsOf(store, links[idx]);
      if a.loadFails || rows == [] {
        o := SkipLink(a, d, NoCredentials);
        return;
      }
      var pool := new CredentialPool(Load(rows));
      var choice := pool.Select(clock + a.waitMs);
      if choice.None? {
        o := SkipLink(a, d, NoEligible);
        return;
      }
      o := UseCredential(a, d, rows, pool, pool.entries[choice.value]);
    }

    method Complete(script: nat -> Attempt) returns (answer: Result<(), Failure>)
      requires Valid()
      modifies this
      ensures Valid() && (View(), answer) == Completed(links, old(View()), script)
    {
      var attempts: nat := 0;
      var last := NotAttempted;
      while true
        invariant Valid() && attempts <= MAX_ATTEMPTS
        invariant Run(links, View(), script, attempts, last) == Completed(links, old(View()), script)
        decreases MAX_ATTEMPTS - attempts
      {
        if script(attempts).cancelled {
          return Err(Cancelled);
        }
        if attempts >= MAX_ATTEMPTS {
          return Err(last);
        }
        var o := TakeTurn(script(attempts), Decide(script(attempts).reply));
        attempts := attempts + 1;
        match o {
          case Done(r) =>
            return r;
          case Again(err) =>
            last := err.GetOr(last);
        }
      }
    }
  }
}
