/** What holds across any sequence of provider calls: penalties are served, deaths are final, the work of
    one call is bounded. Everything goes through the stored rows, for each turn loads its pool afresh. */
module DispatchSafety {
  import opened Common
  import C = Classify
  import opened Pool
  import opened Resolver
  import opened Dispatch

  /** One call: the chain of its dispatcher, the link where that stands, and what the outside world does. */
  datatype Call = Call(links: seq<string>, start: nat, script: nat -> Attempt)

  predicate InRange(calls: seq<Call>) { forall k :: 0 <= k < |calls| ==> calls[k].start < |calls[k].links| }

  /** A sequence of calls of any dispatchers. */
  function AllCompleted(s: State, calls: seq<Call>): State
    requires InRange(calls)
    decreases |calls|
  {
    if calls == [] then s
    else AllCompleted(Completed(calls[0].links, s.(idx := calls[0].start), calls[0].script).0, calls[1..])
  }

  lemma {:induction false} RunIsForward(links: seq<string>, s: State, script: nat -> Attempt, k: nat, last: Failure)
    requires s.idx < |links| && k <= MAX_ATTEMPTS
    ensures Forward(links, s, Run(links, s, script, k, last).0)
    decreases MAX_ATTEMPTS - k
  {
    if !script(k).cancelled && k < MAX_ATTEMPTS {
      var d := Decide(script(k).reply);
      StepIsForward(links, s, script(k), d);
      var (s', o) := Step(links, s, script(k), d);
      if o.Again? {
        RunIsForward(links, s', script, k + 1, o.err.GetOr(last));
      }
    }
  }

  // ---------------------------------------------------------------------------------------------
  // Penalties are served
  // ---------------------------------------------------------------------------------------------

  predicate WellKeyed(store: Store) { forall p :: p in store ==> Distinct(store[p]) }

  /** Nothing with this status is used before `u`, it being `clock` now. */
  predicate Held(st: Status, u: int, clock: int) { clock >= u || st.Dead? || (st.Cooling? && st.until >= u) }

  predicate HeldRow(r: Row, id: nat, u: int, clock: int) { r.id == id ==> Held(StatusFromDb(r), u, clock) }

  predicate DeadRow(r: Row, id: nat) { r.id == id ==> StatusFromDb(r).Dead? }

  /** The rows still remember this event. */
  predicate Remembered(rows: seq<Row>, clock: int, e: Event) {
    match e
    case Penalised(_, id, at, u, stored) =>
      u <= at + MAX_COOLDOWN_MS && (stored ==> forall k :: 0 <= k < |rows| ==> HeldRow(rows[k], id, u, clock))
    case Killed(_, id, stored) => stored ==> forall k :: 0 <= k < |rows| ==> DeadRow(rows[k], id)
    case Sent(_, _, _) => true
    case Slept(_) => true
  }

  function ProviderOf(e: Event): string { if e.Slept? then "" else e.provider }

  predicate Recalls(s: State) {
    forall e :: e in s.log ==> Remembered(RowsOf(s.store, ProviderOf(e)), s.clock, e)
  }

  /** `later` may follow `e`: a request waits for the end of a stored penalty, and none goes to the dead. */
  predicate MayFollow(e: Event, later: Event) {
    later.Sent? ==>
      && (e.Penalised? && e.stored && e.provider == later.provider && e.id == later.id ==> later.at >= e.until)
      && (e.Killed? && e.stored ==> !(e.provider == later.provider && e.id == later.id))
  }

  predicate Served(log: seq<Event>) {
    forall i, j :: 0 <= i < j < |log| ==> MayFollow(log[i], log[j])
  }

  predicate Invariant(s: State) { WellKeyed(s.store) && Recalls(s) && Served(s.log) }

  lemma TimePasses(s: State, clock: int, idx: nat)
    requires Invariant(s) && s.clock <= clock
    ensures Invariant(s.(clock := clock, idx := idx))
  {
    forall e | e in s.log
      ensures Remembered(RowsOf(s.store, ProviderOf(e)), clock, e)
    {
      assert Remembered(RowsOf(s.store, ProviderOf(e)), s.clock, e);
    }
  }

  lemma ServedGrows(log: seq<Event>, e: Event)
    requires Served(log) && forall i :: 0 <= i < |log| ==> MayFollow(log[i], e)
    ensures Served(log + [e])
  {
  }

  lemma LogGrows(s: State, e: Event)
    requires Invariant(s) && Remembered(RowsOf(s.store, ProviderOf(e)), s.clock, e)
    requires forall i :: 0 <= i < |s.log| ==> MayFollow(s.log[i], e)
    ensures Invariant(Logged(s, e))
  {
    ServedGrows(s.log, e);
  }

  /** A credential that is ready now has no penalty left and is not dead. */
  lemma ReadyMaySend(s: State, provider: string, k: nat)
    requires Invariant(s) && k < |RowsOf(s.store, provider)|
    requires Ready(StatusFromDb(RowsOf(s.store, provider)[k]), s.clock)
    ensures Invariant(Logged(s, Sent(provider, RowsOf(s.store, provider)[k].id, s.clock)))
  {
    var rows := RowsOf(s.store, provider);
    var e := Sent(provider, rows[k].id, s.clock);
    forall i | 0 <= i < |s.log|
      ensures MayFollow(s.log[i], e)
    {
      assert s.log[i] in s.log;
      assert Remembered(RowsOf(s.store, ProviderOf(s.log[i])), s.clock, s.log[i]);
      assert s.log[i].Penalised? && s.log[i].provider == provider ==>
          (s.log[i].stored ==> HeldRow(rows[k], s.log[i].id, s.log[i].until, s.clock));
      assert s.log[i].Killed? && s.log[i].provider == provider ==>
          (s.log[i].stored ==> DeadRow(rows[k], s.log[i].id));
    }
    LogGrows(s, e);
  }

  /** Row k was ready at `now`; its new status and the others go to the database at `nowMs`. */
  predicate Writable(rows: seq<Row>, k: nat, now: int, nowMs: int, status: Status) {
    && Distinct(rows) && k < |rows| && Ready(StatusFromDb(rows[k]), now) && now <= nowMs
    && (status.Healthy? ==> StatusFromDb(rows[k]).Cooling?)
  }

  function After(rows: seq<Row>, k: nat, status: Status, nowMs: int, dbNow: int): seq<Row>
    requires k < |rows|
  {
    WrittenBack(rows, Marked(Load(rows), rows[k].hint, status), nowMs, dbNow)
  }

  lemma MarkedAt(rows: seq<Row>, k: nat, status: Status)
    requires Distinct(rows) && k < |rows|
    ensures var entries := Marked(Load(rows), rows[k].hint, status);
            entries == Load(rows)[k := Load(rows)[k].(status := status)]
  {
    assert Load(rows)[k].hint == rows[k].hint;
    assert Find(Load(rows), rows[k].hint) == Some(k);
  }

  lemma RowAfter(rows: seq<Row>, k: nat, status: Status, now: int, nowMs: int, dbNow: int, j: nat)
    requires Writable(rows, k, now, nowMs, status) && nowMs <= dbNow && j < |rows|
    ensures var out := After(rows, k, status, nowMs, dbNow);
            && |out| == |rows| && Distinct(out) && out[j].id == rows[j].id
            && Survives(if j == k then status else StatusFromDb(rows[j]), StatusFromDb(out[j]), nowMs, dbNow)
  {
    MarkedAt(rows, k, status);
    var entries := Marked(Load(rows), rows[k].hint, status);
    assert forall i :: 0 <= i < |rows| ==> Load(rows)[i].hint == rows[i].hint;
    StoreAndLoad(rows, entries, nowMs, dbNow, j);
    KeepsKeys(rows, entries, nowMs, dbNow);
  }

  lemma RowRemembers(rows: seq<Row>, row: Row, k: nat, status: Status, now: int, nowMs: int, dbNow: int, j: nat,
                     e: Event)
    requires Writable(rows, k, now, nowMs, status) && nowMs <= dbNow && Remembered(rows, nowMs, e)
    requires j < |rows| && row.id == rows[j].id
    requires Survives(if j == k then status else StatusFromDb(rows[j]), StatusFromDb(row), nowMs, dbNow)
    ensures e.Penalised? && e.stored ==> HeldRow(row, e.id, e.until, dbNow)
    ensures e.Killed? && e.stored ==> DeadRow(row, e.id)
  {
    assert e.Penalised? && e.stored ==> HeldRow(rows[j], e.id, e.until, nowMs);
    assert e.Killed? && e.stored ==> DeadRow(rows[j], e.id);
  }

  lemma RememberedAfter(rows: seq<Row>, k: nat, status: Status, now: int, nowMs: int, dbNow: int, e: Event)
    requires Writable(rows, k, now, nowMs, status) && nowMs <= dbNow
    requires Remembered(rows, nowMs, e)
    ensures Remembered(After(rows, k, status, nowMs, dbNow), dbNow, e)
  {
    var out := After(rows, k, status, nowMs, dbNow);
    RowAfter(rows, k, status, now, nowMs, dbNow, k);
    forall j | 0 <= j < |out|
      ensures e.Penalised? && e.stored ==> HeldRow(out[j], e.id, e.until, dbNow)
      ensures e.Killed? && e.stored ==> DeadRow(out[j], e.id)
    {
      RowAfter(rows, k, status, now, nowMs, dbNow, j);
      RowRemembers(rows, out[j], k, status, now, nowMs, dbNow, j, e);
    }
  }

  lemma StillWellKeyed(s: State, provider: string, k: nat, status: Status, now: int, dbNow: int)
    requires WellKeyed(s.store) && Writable(RowsOf(s.store, provider), k, now, s.clock, status) && s.clock <= dbNow
    ensures WellKeyed(s.store[provider := After(RowsOf(s.store, provider), k, status, s.clock, dbNow)])
  {
    RowAfter(RowsOf(s.store, provider), k, status, now, s.clock, dbNow, k);
  }

  lemma EventSurvives(s: State, provider: string, k: nat, status: Status, now: int, dbNow: int, e: Event)
    requires Recalls(s) && Writable(RowsOf(s.store, provider), k, now, s.clock, status) && s.clock <= dbNow
    requires e in s.log
    ensures var store := s.store[provider := After(RowsOf(s.store, provider), k, status, s.clock, dbNow)];
            Remembered(RowsOf(store, ProviderOf(e)), dbNow, e)
  {
    var rows := RowsOf(s.store, ProviderOf(e));
    assert Remembered(rows, s.clock, e);
    if ProviderOf(e) == provider {
      RememberedAfter(rows, k, status, now, s.clock, dbNow, e);
    } else {
      LaterRemembered(rows, s.clock, dbNow, e);
    }
  }

  lemma LaterRemembered(rows: seq<Row>, clock: int, later: int, e: Event)
    requires Remembered(rows, clock, e) && clock <= later
    ensures Remembered(rows, later, e)
  {
    if e.Penalised? && e.stored {
      forall k | 0 <= k < |rows|
        ensures HeldRow(rows[k], e.id, e.until, later)
      {
        assert HeldRow(rows[k], e.id, e.until, clock);
      }
    }
  }

  function Rewritten(s: State, provider: string, k: nat, status: Status, dbNow: int): State
    requires k < |RowsOf(s.store, provider)|
  {
    s.(store := s.store[provider := After(RowsOf(s.store, provider), k, status, s.clock, dbNow)], clock := dbNow)
  }

  lemma RewritingRecalls(s: State, provider: string, k: nat, status: Status, now: int, dbNow: int)
    requires Recalls(s) && Writable(RowsOf(s.store, provider), k, now, s.clock, status) && s.clock <= dbNow
    ensures Recalls(Rewritten(s, provider, k, status, dbNow))
  {
    var s' := Rewritten(s, provider, k, status, dbNow);
    forall e | e in s'.log
      ensures Remembered(RowsOf(s'.store, ProviderOf(e)), dbNow, e)
    {
      EventSurvives(s, provider, k, status, now, dbNow, e);
    }
  }

  lemma RewritingKeeps(s: State, provider: string, k: nat, status: Status, now: int, dbNow: int)
    requires Invariant(s) && Writable(RowsOf(s.store, provider), k, now, s.clock, status) && s.clock <= dbNow
    ensures Invariant(Rewritten(s, provider, k, status, dbNow))
  {
    StillWellKeyed(s, provider, k, status, now, dbNow);
    RewritingRecalls(s, provider, k, status, now, dbNow);
    var s' := Rewritten(s, provider, k, status, dbNow);
    assert WellKeyed(s'.store) && Recalls(s') && s'.log == s.log;
  }

  lemma StoredIs(s: State, provider: string, k: nat, status: Status, a: Attempt, entries: seq<Cred>, dbNow: int)
    requires k < |RowsOf(s.store, provider)| && dbNow == s.clock + a.writeLagMs
    requires entries == Marked(Load(RowsOf(s.store, provider)), RowsOf(s.store, provider)[k].hint, status)
    ensures Stored(s, provider, entries, a, s.clock)
         == if a.stored then Rewritten(s, provider, k, status, dbNow) else s.(clock := dbNow, idx := s.idx)
  {
  }

  /** A write-back keeps every earlier penalty and death. */
  lemma WriteBackRecalls(s: State, provider: string, k: nat, status: Status, a: Attempt, now: int)
    requires Invariant(s) && Writable(RowsOf(s.store, provider), k, now, s.clock, status)
    ensures var entries := Marked(Load(RowsOf(s.store, provider)), RowsOf(s.store, provider)[k].hint, status);
            Invariant(Stored(s, provider, entries, a, s.clock))
  {
    var dbNow := s.clock + a.writeLagMs;
    var entries := Marked(Load(RowsOf(s.store, provider)), RowsOf(s.store, provider)[k].hint, status);
    StoredIs(s, provider, k, status, a, entries, dbNow);
    if a.stored {
      RewritingKeeps(s, provider, k, status, now, dbNow);
      assert Stored(s, provider, entries, a, s.clock) == Rewritten(s, provider, k, status, dbNow);
    } else {
      TimePasses(s, dbNow, s.idx);
    }
  }

  /** The new penalty itself is in the rows once it is stored. */
  lemma PenaltyIsRemembered(rows: seq<Row>, k: nat, until: int, now: int, nowMs: int, dbNow: int, e: Event)
    requires Writable(rows, k, now, nowMs, Cooling(until)) && nowMs <= dbNow
    requires e.Penalised? && e.id == rows[k].id && e.until == until <= e.at + MAX_COOLDOWN_MS
    ensures Remembered(After(rows, k, Cooling(until), nowMs, dbNow), dbNow, e)
  {
    var out := After(rows, k, Cooling(until), nowMs, dbNow);
    forall j | 0 <= j < |out|
      ensures HeldRow(out[j], e.id, until, dbNow)
    {
      KeepsKeys(rows, Marked(Load(rows), rows[k].hint, Cooling(until)), nowMs, dbNow);
      RowAfter(rows, k, Cooling(until), now, nowMs, dbNow, j);
    }
  }

  lemma DeathIsRemembered(rows: seq<Row>, k: nat, now: int, nowMs: int, dbNow: int, e: Event)
    requires Writable(rows, k, now, nowMs, Dead) && nowMs <= dbNow && e.Killed? && e.id == rows[k].id
    ensures Remembered(After(rows, k, Dead, nowMs, dbNow), dbNow, e)
  {
    var out := After(rows, k, Dead, nowMs, dbNow);
    forall j | 0 <= j < |out|
      ensures DeadRow(out[j], e.id)
    {
      KeepsKeys(rows, Marked(Load(rows), rows[k].hint, Dead), nowMs, dbNow);
      RowAfter(rows, k, Dead, now, nowMs, dbNow, j);
    }
  }

  /** The state in which an answer is handled: row k was chosen at `now`. */
  predicate InUse(s: State, provider: string, k: nat, now: int) {
    && Invariant(s) && now <= s.clock && Distinct(RowsOf(s.store, provider)) && k < |RowsOf(s.store, provider)|
    && provider in s.store && Ready(StatusFromDb(RowsOf(s.store, provider)[k]), now)
  }

  lemma RotateKeeps(s: State, provider: string, k: nat, a: Attempt, now: int)
    requires InUse(s, provider, k, now) && a.reply.ErrorStatus?
    ensures var entries := Load(RowsOf(s.store, provider));
            Invariant(AfterRotate(s, provider, entries, entries[k], a, now))
  {
    var rows := RowsOf(s.store, provider);
    var until := CooldownEnd(a.reply.status, ResetAt(a.reply, now), now);
    WriteBackRecalls(s, provider, k, Cooling(until), a, now);
    var s' := Stored(s, provider, Marked(Load(rows), rows[k].hint, Cooling(until)), a, s.clock);
    var e := Penalised(provider, rows[k].id, now, until, a.stored);
    if a.stored {
      PenaltyIsRemembered(rows, k, until, now, s.clock, s'.clock, e);
    }
    LogGrows(s', e);
  }

  lemma DeathKeeps(s: State, provider: string, k: nat, a: Attempt, now: int)
    requires InUse(s, provider, k, now)
    ensures Invariant(AfterDeath(s, provider, Load(RowsOf(s.store, provider)), Load(RowsOf(s.store, provider))[k], a))
  {
    var rows := RowsOf(s.store, provider);
    WriteBackRecalls(s, provider, k, Dead, a, now);
    var s' := Stored(s, provider, Marked(Load(rows), rows[k].hint, Dead), a, s.clock);
    var e := Killed(provider, rows[k].id, a.stored);
    if a.stored {
      DeathIsRemembered(rows, k, now, s.clock, s'.clock, e);
    }
    LogGrows(s', e);
  }

  lemma SuccessKeeps(s: State, provider: string, k: nat, a: Attempt, now: int)
    requires InUse(s, provider, k, now)
    ensures Invariant(AfterSuccess(s, provider, Load(RowsOf(s.store, provider)), RowsOf(s.store, provider)[k].hint, a))
  {
    var rows := RowsOf(s.store, provider);
    if Heals(Load(rows), rows[k].hint) {
      assert Load(rows)[k].hint == rows[k].hint;
      assert Find(Load(rows), rows[k].hint) == Some(k);
      WriteBackRecalls(s, provider, k, Healthy, a, now);
    }
  }

  lemma ErrorKeeps(d: Decision, links: seq<string>, s: State, provider: string, k: nat, a: Attempt, now: int)
    requires InUse(s, provider, k, now) && a.reply.ErrorStatus? && s.idx < |links|
    ensures var entries := Load(RowsOf(s.store, provider));
            Invariant(OnError(d, links, s, provider, entries, entries[k], a, now).0)
  {
    match d.action
    case Rotate =>
      RotateKeeps(s, provider, k, a, now);
      var s' := AfterRotate(s, provider, Load(RowsOf(s.store, provider)), Load(RowsOf(s.store, provider))[k], a, now);
      TimePasses(s', s'.clock, s'.idx + 1);
    case Fallback => TimePasses(s, s.clock, s.idx + 1);
    case Compress => TimePasses(s, s.clock, s.idx + 1);
    case Backoff =>
      LogGrows(s, Slept(BackoffMs(a.reply)));
      TimePasses(Logged(s, Slept(BackoffMs(a.reply))), s.clock + BackoffMs(a.reply), s.idx);
    case Abort => DeathKeeps(s, provider, k, a, now);
  }

  /** Once the request is out. */
  function Requested(s: State, provider: string, id: nat, a: Attempt): State {
    Logged(s, Sent(provider, id, s.clock)).(clock := s.clock + a.latencyMs)
  }

  lemma RequestKeeps(s: State, provider: string, k: nat, a: Attempt)
    requires InUse(s, provider, k, s.clock)
    ensures InUse(Requested(s, provider, RowsOf(s.store, provider)[k].id, a), provider, k, s.clock)
  {
    ReadyMaySend(s, provider, k);
    TimePasses(Logged(s, Sent(provider, RowsOf(s.store, provider)[k].id, s.clock)), s.clock + a.latencyMs, s.idx);
  }

  lemma AdvanceKeeps(links: seq<string>, s: State, left: Option<Failure>, otherwise: Failure)
    requires Invariant(s) && s.idx < |links|
    ensures Invariant(Advance(links, s, left, otherwise).0)
  {
    TimePasses(s, s.clock, s.idx + 1);
  }

  lemma UseKeeps(d: Decision, links: seq<string>, s: State, provider: string, k: nat, a: Attempt)
    requires InUse(s, provider, k, s.clock) && s.idx < |links|
    ensures var entries := Load(RowsOf(s.store, provider));
            Invariant(Use(d, links, s, provider, entries, entries[k], a).0)
  {
    var entries := Load(RowsOf(s.store, provider));
    if a.decryptFails {
      AdvanceKeeps(links, s, None, DecryptFailed);
    } else if !a.insecure {
      RequestKeeps(s, provider, k, a);
      AnswerKeeps(d, links, Requested(s, provider, entries[k].id, a), provider, k, a, s.clock);
    }
  }

  /** The part of Use that handles what came back. */
  function Answered(d: Decision, links: seq<string>, s: State, provider: string, c: Cred, a: Attempt, now: int): State {
    var entries := Load(RowsOf(s.store, provider));
    if a.cancelledInFlight then s
    else
      match a.reply
      case Unreachable => Advance(links, s, Some(Network), Network).0
      case Success(_) => AfterSuccess(s, provider, entries, c.hint, a)
      case ErrorStatus(_, _, _) => OnError(d, links, s, provider, entries, c, a, now).0
  }

  lemma AnswerKeeps(d: Decision, links: seq<string>, s: State, provider: string, k: nat, a: Attempt, now: int)
    requires InUse(s, provider, k, now) && s.idx < |links|
    ensures Invariant(Answered(d, links, s, provider, Load(RowsOf(s.store, provider))[k], a, now))
  {
    match a.reply
    case Unreachable => AdvanceKeeps(links, s, Some(Network), Network);
    case Success(_) => SuccessKeeps(s, provider, k, a, now);
    case ErrorStatus(_, _, _) => ErrorKeeps(d, links, s, provider, k, a, now);
  }

  lemma IdleKeeps(links: seq<string>, s: State, a: Attempt, d: Decision)
    requires Invariant(s) && s.idx < |links| && Idle(links, s, a)
    ensures Invariant(Step(links, s, a, d).0)
  {
    TimePasses(s, s.clock + a.waitMs, s.idx);
    AdvanceKeeps(links, s.(clock := s.clock + a.waitMs), None, NoCredentials);
  }

  lemma StepKeeps(links: seq<string>, s: State, a: Attempt, d: Decision)
    requires Invariant(s) && s.idx < |links|
    ensures Invariant(Step(links, s, a, d).0)
  {
    if Idle(links, s, a) {
      IdleKeeps(links, s, a, d);
    } else {
      var provider, s' := links[s.idx], s.(clock := s.clock + a.waitMs);
      var k := Best(Load(RowsOf(s.store, provider)), s'.clock).value;
      TimePasses(s, s'.clock, s.idx);
      assert Eligible(Load(RowsOf(s.store, provider))[k], s'.clock);
      UseKeeps(d, links, s', provider, k, a);
      StepUses(links, s, a, d);
    }
  }

  lemma {:induction false} RunKeeps(links: seq<string>, s: State, script: nat -> Attempt, k: nat, last: Failure)
    requires Invariant(s) && s.idx < |links| && k <= MAX_ATTEMPTS
    ensures Invariant(Run(links, s, script, k, last).0)
    decreases MAX_ATTEMPTS - k
  {
    if !script(k).cancelled && k < MAX_ATTEMPTS {
      var d := Decide(script(k).reply);
      StepIsForward(links, s, script(k), d);
      StepKeeps(links, s, script(k), d);
      var (s', o) := Step(links, s, script(k), d);
      if o.Again? {
        RunKeeps(links, s', script, k + 1, o.err.GetOr(last));
      }
    }
  }

  lemma {:induction false} CallsKeep(s: State, calls: seq<Call>)
    requires Invariant(s) && InRange(calls)
    ensures Invariant(AllCompleted(s, calls))
    decreases |calls|
  {
    if calls != [] {
      var c := calls[0];
      TimePasses(s, s.clock, c.start);
      RunKeeps(c.links, s.(idx := c.start), c.script, 0, NotAttempted);
      CallsKeep(Completed(c.links, s.(idx := c.start), c.script).0, calls[1..]);
    }
  }

  /** Over any sequence of calls, each with its own chain, a credential whose penalty until u was stored is not
      used before u, which is at most five minutes on, and one whose death was stored is never used again. */
  lemma PenaltiesAreServed(s: State, calls: seq<Call>, i: nat, j: nat)
    requires InRange(calls) && WellKeyed(s.store) && s.log == []
    requires i < j < |AllCompleted(s, calls).log|
    ensures var log := AllCompleted(s, calls).log;
            && (log[i].Penalised? ==> log[i].until <= log[i].at + MAX_COOLDOWN_MS)
            && (log[j].Sent? ==>
              && (log[i].Penalised? && log[i].stored && log[i].provider == log[j].provider && log[i].id == log[j].id
                  ==> log[j].at >= log[i].until)
              && (log[i].Killed? && log[i].stored ==> !(log[i].provider == log[j].provider && log[i].id == log[j].id)))
  {
    CallsKeep(s, calls);
    var log := AllCompleted(s, calls).log;
    assert MayFollow(log[i], log[j]);
    assert log[i] in log;
  }
}
