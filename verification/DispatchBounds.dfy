/** How much one provider call can do, and how long a credential can be set aside. */
module DispatchBounds {
  import opened Common
  import C = Classify
  import opened Pool
  import opened Resolver
  import opened Dispatch
  import opened DispatchSafety

  // ---------------------------------------------------------------------------------------------
  // At most sixteen requests and no waiting
  // ---------------------------------------------------------------------------------------------

  function Sends(log: seq<Event>): nat {
    if log == [] then 0 else Sends(log[..|log| - 1]) + (if log[|log| - 1].Sent? then 1 else 0)
  }

  function Waited(log: seq<Event>): int {
    if log == [] then 0 else Waited(log[..|log| - 1]) + (if log[|log| - 1].Slept? then log[|log| - 1].ms else 0)
  }

  lemma {:induction false} CountsAdd(log: seq<Event>, es: seq<Event>)
    ensures Sends(log + es) == Sends(log) + Sends(es) && Waited(log + es) == Waited(log) + Waited(es)
    decreases |es|
  {
    if es == [] {
      assert log + es == log;
    } else {
      var n := |es| - 1;
      assert (log + es)[..|log + es| - 1] == log + es[..n];
      CountsAdd(log, es[..n]);
    }
  }

  /** What handling an error adds to the log. */
  function ErrorEvents(d: Decision, provider: string, c: Cred, a: Attempt, now: int): (es: seq<Event>)
    requires a.reply.ErrorStatus?
    ensures Sends(es) == 0 && 0 <= Waited(es) <= 30_000 && (!d.action.Backoff? ==> Waited(es) == 0)
  {
    match d.action
    case Rotate =>
      [Penalised(provider, c.id, now, CooldownEnd(a.reply.status, ResetAt(a.reply, now), now), a.stored)]
    case Backoff => if a.cancelledInBackoff then [] else [Slept(BackoffMs(a.reply))]
    case Abort => if d.fatal then [Killed(provider, c.id, a.stored)] else []
    case _ => []
  }

  lemma ErrorLogs(d: Decision, links: seq<string>, s: State, provider: string, entries: seq<Cred>, c: Cred, a: Attempt,
                  now: int)
    requires a.reply.ErrorStatus?
    ensures OnError(d, links, s, provider, entries, c, a, now).0.log == s.log + ErrorEvents(d, provider, c, a, now)
  {
  }

  /** What using a credential adds to the log. */
  function UseEvents(d: Decision, provider: string, c: Cred, a: Attempt, now: int): (es: seq<Event>)
    ensures Sends(es) <= 1 && 0 <= Waited(es) <= 30_000 && (!d.action.Backoff? ==> Waited(es) == 0)
  {
    if a.decryptFails || a.insecure then []
    else
      var more := if !a.cancelledInFlight && a.reply.ErrorStatus? then ErrorEvents(d, provider, c, a, now) else [];
      CountsAdd([Sent(provider, c.id, now)], more);
      assert Sends([Sent(provider, c.id, now)]) == 1 && Waited([Sent(provider, c.id, now)]) == 0;
      [Sent(provider, c.id, now)] + more
  }

  lemma UseLogs(d: Decision, links: seq<string>, s: State, provider: string, entries: seq<Cred>, c: Cred, a: Attempt)
    ensures Use(d, links, s, provider, entries, c, a).0.log == s.log + UseEvents(d, provider, c, a, s.clock)
  {
    if !a.decryptFails && !a.insecure && a.reply.ErrorStatus? {
      ErrorLogs(d, links, Requested(s, provider, c.id, a), provider, entries, c, a, s.clock);
    }
  }

  /** A turn of the loop sends at most one request, and waits only where it decided to. */
  lemma StepSends(links: seq<string>, s: State, a: Attempt, d: Decision)
    requires s.idx < |links|
    ensures var log := Step(links, s, a, d).0.log;
            && Sends(s.log) <= Sends(log) <= Sends(s.log) + 1
            && Waited(s.log) <= Waited(log) <= Waited(s.log) + 30_000
            && (!d.action.Backoff? ==> Waited(log) == Waited(s.log))
  {
    if Idle(links, s, a) {
      IdleIsForward(links, s, a, d);
    } else {
      var provider, chosen, c := links[s.idx], s.(clock := s.clock + a.waitMs), Chosen(links, s, a);
      StepUses(links, s, a, d);
      UseLogs(d, links, chosen, provider, Load(RowsOf(s.store, provider)), c, a);
      CountsAdd(s.log, UseEvents(d, provider, c, a, chosen.clock));
    }
  }

  /** No HTTP error is classified as one to wait out. */
  lemma NeverDecidesToWait(r: Reply)
    ensures !Decide(r).action.Backoff?
  {
    if r.ErrorStatus? {
      C.BacksOffExactlyOnTimeouts(C.Status(r.status), r.message);
    }
  }

  lemma {:induction false} RunSends(links: seq<string>, s: State, script: nat -> Attempt, k: nat, last: Failure)
    requires s.idx < |links| && k <= MAX_ATTEMPTS
    ensures var s' := Run(links, s, script, k, last).0;
            Sends(s'.log) <= Sends(s.log) + MAX_ATTEMPTS - k && Waited(s'.log) == Waited(s.log)
    decreases MAX_ATTEMPTS - k
  {
    if !script(k).cancelled && k < MAX_ATTEMPTS {
      var d := Decide(script(k).reply);
      NeverDecidesToWait(script(k).reply);
      StepIsForward(links, s, script(k), d);
      StepSends(links, s, script(k), d);
      var (s', o) := Step(links, s, script(k), d);
      if o.Again? {
        RunSends(links, s', script, k + 1, o.err.GetOr(last));
      }
    }
  }

  /** Whatever the network answers, one call sends at most sixteen requests, never waits between them, and
      leaves the chain at a link no earlier than before. */
  lemma OneCallIsBounded(links: seq<string>, s: State, script: nat -> Attempt)
    requires s.idx < |links|
    ensures var s' := Completed(links, s, script).0;
            Sends(s'.log) <= Sends(s.log) + 16 && Waited(s'.log) == Waited(s.log) && s.idx <= s'.idx < |links|
  {
    RunSends(links, s, script, 0, NotAttempted);
    RunIsForward(links, s, script, 0, NotAttempted);
  }

  // ---------------------------------------------------------------------------------------------
  // No credential is set aside for more than five minutes
  // ---------------------------------------------------------------------------------------------

  predicate ShortStatus(st: Status, clock: int) { st.Cooling? ==> st.until <= clock + MAX_COOLDOWN_MS }

  predicate ShortRows(rows: seq<Row>, clock: int) {
    forall k :: 0 <= k < |rows| ==> ShortStatus(StatusFromDb(rows[k]), clock)
  }

  predicate ShortEntries(entries: seq<Cred>, clock: int) {
    forall k :: 0 <= k < |entries| ==> ShortStatus(entries[k].status, clock)
  }

  /** Every cooldown in the store ends within five minutes of now. */
  predicate ShortStore(s: State) { forall p :: p in s.store ==> ShortRows(s.store[p], s.clock) }

  lemma WriteBackIsShort(rows: seq<Row>, entries: seq<Cred>, nowMs: int, dbNow: int)
    requires ShortRows(rows, nowMs) && ShortEntries(entries, nowMs) && nowMs <= dbNow
    ensures ShortRows(WrittenBack(rows, entries, nowMs, dbNow), dbNow)
  {
    var out := WrittenBack(rows, entries, nowMs, dbNow);
    forall k | 0 <= k < |out|
      ensures ShortStatus(StatusFromDb(out[k]), dbNow)
    {
      assert out[k] == WriteBack(rows[k], entries, nowMs, dbNow);
      assert ShortStatus(StatusFromDb(rows[k]), nowMs);
      assert Find(entries, rows[k].hint).Some? ==>
          ShortStatus(entries[Find(entries, rows[k].hint).value].status, nowMs);
    }
  }

  lemma TimeKeepsShort(s: State, clock: int, idx: nat, log: seq<Event>)
    requires ShortStore(s) && s.clock <= clock
    ensures ShortStore(s.(clock := clock, idx := idx, log := log))
  {
    forall p | p in s.store
      ensures ShortRows(s.store[p], clock)
    {
      assert ShortRows(s.store[p], s.clock);
    }
  }

  lemma StoredIsShort(s: State, provider: string, hint: string, status: Status, a: Attempt)
    requires ShortStore(s) && ShortStatus(status, s.clock)
    ensures ShortStore(Stored(s, provider, Marked(Load(RowsOf(s.store, provider)), hint, status), a, s.clock))
  {
    var entries := Marked(Load(RowsOf(s.store, provider)), hint, status);
    var dbNow := s.clock + a.writeLagMs;
    if a.stored && provider in s.store {
      WriteBackIsShort(s.store[provider], entries, s.clock, dbNow);
    }
    TimeKeepsShort(s, dbNow, s.idx, s.log);
    var s' := Stored(s, provider, entries, a, s.clock);
    forall p | p in s'.store
      ensures ShortRows(s'.store[p], dbNow)
    {
      assert p in s.store && ShortRows(s.store[p], s.clock);
      assert ShortRows(s.(clock := dbNow, idx := s.idx, log := s.log).store[p], dbNow);
    }
  }

  lemma ErrorIsShort(d: Decision, links: seq<string>, s: State, provider: string, c: Cred, a: Attempt, now: int)
    requires ShortStore(s) && a.reply.ErrorStatus? && now <= s.clock
    ensures ShortStore(OnError(d, links, s, provider, Load(RowsOf(s.store, provider)), c, a, now).0)
  {
    var entries := Load(RowsOf(s.store, provider));
    match d.action
    case Rotate =>
      var until := CooldownEnd(a.reply.status, ResetAt(a.reply, now), now);
      StoredIsShort(s, provider, c.hint, Cooling(until), a);
      var s' := Stored(s, provider, Marked(entries, c.hint, Cooling(until)), a, s.clock);
      var log := s'.log + [Penalised(provider, c.id, now, until, a.stored)];
      TimeKeepsShort(s', s'.clock, s'.idx, log);
      TimeKeepsShort(s', s'.clock, s'.idx + 1, log);
    case Fallback => TimeKeepsShort(s, s.clock, s.idx + 1, s.log);
    case Compress => TimeKeepsShort(s, s.clock, s.idx + 1, s.log);
    case Backoff => TimeKeepsShort(s, s.clock + BackoffMs(a.reply), s.idx, s.log + [Slept(BackoffMs(a.reply))]);
    case Abort =>
      StoredIsShort(s, provider, c.hint, Dead, a);
      var s' := Stored(s, provider, Marked(entries, c.hint, Dead), a, s.clock);
      TimeKeepsShort(s', s'.clock, s'.idx, s'.log + [Killed(provider, c.id, a.stored)]);
  }

  lemma AnswerIsShort(d: Decision, links: seq<string>, s: State, provider: string, c: Cred, a: Attempt, now: int)
    requires ShortStore(s) && now <= s.clock
    ensures ShortStore(Answered(d, links, s, provider, c, a, now))
  {
    match a.reply
    case Unreachable => TimeKeepsShort(s, s.clock, s.idx + 1, s.log);
    case Success(_) => StoredIsShort(s, provider, c.hint, Healthy, a);
    case ErrorStatus(_, _, _) => ErrorIsShort(d, links, s, provider, c, a, now);
  }

  lemma UseIsShort(d: Decision, links: seq<string>, s: State, provider: string, c: Cred, a: Attempt)
    requires ShortStore(s)
    ensures ShortStore(Use(d, links, s, provider, Load(RowsOf(s.store, provider)), c, a).0)
  {
    TimeKeepsShort(s, s.clock, s.idx + 1, s.log);
    var sent := Requested(s, provider, c.id, a);
    TimeKeepsShort(s, sent.clock, s.idx, sent.log);
    AnswerIsShort(d, links, sent, provider, c, a, s.clock);
  }

  lemma IdleIsShort(links: seq<string>, s: State, a: Attempt, d: Decision)
    requires ShortStore(s) && s.idx < |links| && Idle(links, s, a)
    ensures ShortStore(Step(links, s, a, d).0)
  {
    TimeKeepsShort(s, s.clock + a.waitMs, s.idx + 1, s.log);
    TimeKeepsShort(s, s.clock + a.waitMs, s.idx, s.log);
  }

  lemma StepIsShort(links: seq<string>, s: State, a: Attempt, d: Decision)
    requires ShortStore(s) && s.idx < |links|
    ensures ShortStore(Step(links, s, a, d).0)
  {
    if Idle(links, s, a) {
      IdleIsShort(links, s, a, d);
    } else {
      TimeKeepsShort(s, s.clock + a.waitMs, s.idx, s.log);
      StepUses(links, s, a, d);
      UseIsShort(d, links, s.(clock := s.clock + a.waitMs), links[s.idx], Chosen(links, s, a), a);
    }
  }

  lemma {:induction false} RunIsShort(links: seq<string>, s: State, script: nat -> Attempt, k: nat, last: Failure)
    requires ShortStore(s) && s.idx < |links| && k <= MAX_ATTEMPTS
    ensures ShortStore(Run(links, s, script, k, last).0)
    decreases MAX_ATTEMPTS - k
  {
    if !script(k).cancelled && k < MAX_ATTEMPTS {
      var d := Decide(script(k).reply);
      StepIsForward(links, s, script(k), d);
      StepIsShort(links, s, script(k), d);
      var (s', o) := Step(links, s, script(k), d);
      if o.Again? {
        RunIsShort(links, s', script, k + 1, o.err.GetOr(last));
      }
    }
  }

  /** However slow the write-backs are, and however far off the providers' own hints, after any sequence of
      calls every stored cooldown ends within five minutes of that moment. */
  lemma {:induction false} NobodyIsParkedForLong(s: State, calls: seq<Call>)
    requires ShortStore(s) && InRange(calls)
    ensures ShortStore(AllCompleted(s, calls))
    decreases |calls|
  {
    if calls != [] {
      var c := calls[0];
      TimeKeepsShort(s, s.clock, c.start, s.log);
      RunIsShort(c.links, s.(idx := c.start), c.script, 0, NotAttempted);
      NobodyIsParkedForLong(Completed(c.links, s.(idx := c.start), c.script).0, calls[1..]);
    }
  }

  // ---------------------------------------------------------------------------------------------
  // Where the guarantees end
  // ---------------------------------------------------------------------------------------------

  lemma FindIsFirst(pool: seq<Cred>, hint: string, i: nat)
    requires i < |pool| && pool[i].hint == hint && forall k :: 0 <= k < i ==> pool[k].hint != hint
    ensures Find(pool, hint) == Some(i)
  {
    var r := Find(pool, hint);
    assert r.Some?;
    assert !(r.value < i) && !(i < r.value);
  }

  /** What the first entry with its hint becomes when an entry is marked. */
  lemma FirstUnderItsHint(pool: seq<Cred>, i: nat, hint: string, status: Status, entries: seq<Cred>)
    requires i < |pool| && Find(pool, pool[i].hint) == Some(i) && entries == Marked(pool, hint, status)
    ensures Find(entries, pool[i].hint) == Some(i)
    ensures entries[i].status == if hint == pool[i].hint then status else pool[i].status
  {
    var m := Find(pool, hint);
    if m.Some? {
      assert hint == pool[i].hint <==> m.value == i;
      assert entries == pool[m.value := pool[m.value].(status := status)];
      assert entries[i].hint == pool[i].hint;
      forall k | 0 <= k < i
        ensures entries[k].hint != pool[i].hint
      {
        assert entries[k].hint == pool[k].hint;
      }
      FindIsFirst(entries, pool[i].hint, i);
    }
  }

  /** Hints must be distinct: a dead credential that is found under its hint stays dead while another one is
      penalised exactly if the two hints differ. */
  lemma SharedHintsRevive(rows: seq<Row>, i: nat, j: nat, until: int, nowMs: int, dbNow: int)
    requires i < |rows| && j < |rows| && rows[i].status == DbDead && Find(Load(rows), rows[i].hint) == Some(i)
    ensures var out := WrittenBack(rows, Marked(Load(rows), rows[j].hint, Cooling(until)), nowMs, dbNow);
            && |out| == |rows| && (StatusFromDb(out[i]).Dead? <==> rows[i].hint != rows[j].hint)
            && (rows[i].hint == rows[j].hint ==> StatusFromDb(out[i]) == Cooling(dbNow + Max(until - nowMs, 0)))
  {
    var pool := Load(rows);
    assert pool[i] == EntryOf(rows[i]);
    var entries := Marked(pool, rows[j].hint, Cooling(until));
    FirstUnderItsHint(pool, i, rows[j].hint, Cooling(until), entries);
    assert WrittenBack(rows, entries, nowMs, dbNow)[i] == WriteBack(rows[i], entries, nowMs, dbNow);
  }
}
