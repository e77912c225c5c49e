/** The durable job queue (qcue-rs/app-server/src/jobs/queue.rs, worker.rs) of one tenant.

    The table is a sequence of rows in order of insertion; a row is never deleted and its id is its place.
    Time is in milliseconds. */
module Jobs {
  import opened Common
  import opened Json

  datatype Kind = Ingest | Lint | Dream | Transcribe | SyncMaterialize | Export

  datatype JobState = Pending | Leased | Completed | Failed | Canceled

  datatype Job = Job(
    kind: Kind,
    state: JobState,
    payload: Json,
    attempts: nat,
    maxAttempts: int,
    priority: int,
    availableAt: int,
    leaseExpires: Option<int>)

  const MAX_PENDING_PER_TENANT: nat := 500
  const LEASE_MS := 5 * 60 * 1000
  const BACKOFF_MS := 30 * 1000
  const DEFAULT_MAX_ATTEMPTS := 5

  predicate Live(j: Job) { j.state.Pending? || j.state.Leased? }

  predicate Terminal(j: Job) { !Live(j) }

  // ---------------------------------------------------------------------------------------------
  // Enqueueing
  // ---------------------------------------------------------------------------------------------

  function InFlight(jobs: seq<Job>): nat {
    if jobs == [] then 0 else InFlight(jobs[..|jobs| - 1]) + (if Live(jobs[|jobs| - 1]) then 1 else 0)
  }

  /** The text of the payload's `debounce_ref`, as the database's ->> operator reads it; `text` renders a
      value that is no string. */
  function RefOf(text: Json -> string, payload: Json): Option<string> {
    match Get(payload, "debounce_ref")
    case None => None
    case Some(v) => if v.Str? then Some(v.s) else if v.Null? then None else Some(text(v))
  }

  datatype Request = Request(kind: Kind, payload: Json, debounce: Option<string>)

  predicate Same(text: Json -> string, j: Job, kind: Kind, reff: string) {
    j.state.Pending? && j.kind == kind && RefOf(text, j.payload) == Some(reff)
  }

  /** A pending job of this kind and reference. */
  function Existing(text: Json -> string, jobs: seq<Job>, kind: Kind, reff: string): (r: Option<nat>)
    ensures r.Some? ==> r.value < |jobs| && Same(text, jobs[r.value], kind, reff)
    ensures r.None? ==> forall i :: 0 <= i < |jobs| ==> !Same(text, jobs[i], kind, reff)
  {
    if jobs == [] then None
    else
      var n := |jobs| - 1;
      var earlier := Existing(text, jobs[..n], kind, reff);
      if earlier.Some? then earlier
      else if Same(text, jobs[n], kind, reff) then Some(n)
      else
        assert forall i :: 0 <= i < n ==> jobs[..n][i] == jobs[i];
        None
  }

  /** The reference is noted in the payload, if that is an object. */
  function Tagged(payload: Json, debounce: Option<string>): Json {
    if debounce.Some? && payload.Obj? then Obj(payload.fields["debounce_ref" := Str(debounce.value)]) else payload
  }

  function NewJob(r: Request, now: int): Job {
    Job(r.kind, Pending, Tagged(r.payload, r.debounce), 0, DEFAULT_MAX_ATTEMPTS, 0, now, None)
  }

  datatype Decision = Overloaded | Reuse(id: nat) | Insert(job: Job)

  function Decide(text: Json -> string, jobs: seq<Job>, r: Request, now: int): Decision {
    if InFlight(jobs) >= MAX_PENDING_PER_TENANT then Overloaded
    else if r.debounce.Some? && Existing(text, jobs, r.kind, r.debounce.value).Some?
    then Reuse(Existing(text, jobs, r.kind, r.debounce.value).value)
    else Insert(NewJob(r, now))
  }

  /** The reference that a payload gives, if any: a null is none. */
  predicate Refers(text: Json -> string, payload: Json, reff: string) {
    match Get(payload, "debounce_ref")
    case None => false
    case Some(Null) => false
    case Some(Str(s)) => s == reff
    case Some(v) => text(v) == reff
  }

  /** A request is turned down exactly if 500 jobs are in flight; it is given a job that is there exactly if one of
      its kind and reference still waits; else it is given a new one, due at once, whose payload gives the request's
      reference if it can give any. */
  lemma EnqueueDecides(text: Json -> string, jobs: seq<Job>, r: Request, now: int)
    ensures var d := Decide(text, jobs, r, now);
            && (d.Overloaded? <==> InFlight(jobs) >= 500)
            && (d.Reuse? <==> !d.Overloaded? && r.debounce.Some?
                              && exists i :: 0 <= i < |jobs| && jobs[i].state.Pending? && jobs[i].kind == r.kind
                                             && Refers(text, jobs[i].payload, r.debounce.value))
            && (d.Reuse? ==> d.id < |jobs| && jobs[d.id].state.Pending? && jobs[d.id].kind == r.kind
                             && Refers(text, jobs[d.id].payload, r.debounce.value))
            && (d.Insert? ==>
                  var j := d.job;
                  && j.kind == r.kind && j.state.Pending? && j.attempts == 0 && j.maxAttempts == 5
                  && j.availableAt == now && j.leaseExpires.None?
                  && (r.debounce.None? || !r.payload.Obj? ==> j.payload == r.payload)
                  && (r.debounce.Some? && r.payload.Obj? ==>
                        && Refers(text, j.payload, r.debounce.value)
                        && forall key :: key != "debounce_ref" ==> Get(j.payload, key) == Get(r.payload, key)))
  {
    if r.debounce.Some? {
      forall i | 0 <= i < |jobs|
        ensures Same(text, jobs[i], r.kind, r.debounce.value)
            <==> jobs[i].state.Pending? && jobs[i].kind == r.kind && Refers(text, jobs[i].payload, r.debounce.value)
      {
        ReferenceIs(text, jobs[i].payload, r.debounce.value);
      }
    }
  }

  lemma ReferenceIs(text: Json -> string, payload: Json, reff: string)
    ensures RefOf(text, payload) == Some(reff) <==> Refers(text, payload, reff)
  {
  }

  function Carried(jobs: seq<Job>, d: Decision): seq<Job> { if d.Insert? then jobs + [d.job] else jobs }

  function Enqueued(text: Json -> string, jobs: seq<Job>, r: Request, now: int): seq<Job> {
    Carried(jobs, Decide(text, jobs, r, now))
  }

  // ---------------------------------------------------------------------------------------------
  // Claiming and finishing
  // ---------------------------------------------------------------------------------------------

  predicate Claimable(jobs: seq<Job>, locked: set<nat>, now: int, i: nat) {
    i < |jobs| && jobs[i].state.Pending? && jobs[i].availableAt <= now && i !in locked
  }

  predicate Ahead(a: Job, b: Job) {
    a.priority > b.priority || (a.priority == b.priority && a.availableAt < b.availableAt)
  }

  /** The job to claim: of the pending, due and unlocked ones the one with the highest priority, then the one
      that has been due longest, then the oldest. */
  function Choice(jobs: seq<Job>, locked: set<nat>, now: int): (r: Option<nat>)
    ensures r.None? ==> forall i: nat :: !Claimable(jobs, locked, now, i)
    ensures r.Some? ==> Claimable(jobs, locked, now, r.value)
    ensures r.Some? ==> forall i: nat :: Claimable(jobs, locked, now, i) ==>
                          && jobs[i].priority <= jobs[r.value].priority
                          && (jobs[i].priority == jobs[r.value].priority ==>
                                jobs[r.value].availableAt <= jobs[i].availableAt
                                && (jobs[r.value].availableAt == jobs[i].availableAt ==> r.value <= i))
  {
    if jobs == [] then None
    else
      var n := |jobs| - 1;
      var best := Choice(jobs[..n], locked, now);
      assert forall i: nat :: i < n ==> (Claimable(jobs, locked, now, i) <==> Claimable(jobs[..n], locked, now, i));
      if Claimable(jobs, locked, now, n) && (best.None? || Ahead(jobs[n], jobs[best.value])) then Some(n) else best
  }

  function Claimed(j: Job, now: int): Job {
    j.(state := Leased, attempts := j.attempts + 1, leaseExpires := Some(now + LEASE_MS))
  }

  function Finished(j: Job): Job { j.(state := Completed) }

  /** Back to the queue, or failed once the attempts are used up. */
  function Retried(j: Job, now: int, backoffMs: int): Job {
    j.(state := if j.attempts >= j.maxAttempts then Failed else Pending,
       availableAt := now + backoffMs, leaseExpires := None)
  }

  function CanceledIf(j: Job): Job { if Live(j) then j.(state := Canceled, leaseExpires := None) else j }

  function Reclaimed(j: Job, now: int): Job {
    if j.state.Leased? && j.leaseExpires.Some? && j.leaseExpires.value < now then
      j.(state := if j.attempts >= j.maxAttempts then Failed else Pending, leaseExpires := None)
    else j
  }

  function AllReclaimed(jobs: seq<Job>, now: int): seq<Job> { Map(j => Reclaimed(j, now), jobs) }

  /** How the handler ends and how long it takes. */
  datatype Handling = Handling(ok: bool, ms: nat)

  /** A job taken by a worker whose transaction began at `now`: the timestamps are those of its beginning. */
  function Worked(j: Job, now: int, ok: bool): Job {
    if ok then Finished(Claimed(j, now)) else Retried(Claimed(j, now), now, BACKOFF_MS)
  }

  // ---------------------------------------------------------------------------------------------
  // One worker draining the queue
  // ---------------------------------------------------------------------------------------------

  /** How many more runs a pending job can get. */
  function RunsLeft(j: Job): nat {
    if j.state.Pending? then (if j.maxAttempts - j.attempts >= 1 then j.maxAttempts - j.attempts else 1) else 0
  }

  function TotalRunsLeft(jobs: seq<Job>): nat {
    if jobs == [] then 0 else TotalRunsLeft(jobs[..|jobs| - 1]) + RunsLeft(jobs[|jobs| - 1])
  }

  lemma {:induction false} RunsLeftUpdate(jobs: seq<Job>, i: nat, j: Job)
    requires i < |jobs|
    ensures TotalRunsLeft(jobs[i := j]) == TotalRunsLeft(jobs) - RunsLeft(jobs[i]) + RunsLeft(j)
  {
    var n := |jobs| - 1;
    if i == n {
      assert jobs[i := j][..n] == jobs[..n];
    } else {
      assert jobs[i := j][..n] == jobs[..n][i := j];
      RunsLeftUpdate(jobs[..n], i, j);
    }
  }

  /** Every run of a pending job uses up at least one of its runs. */
  lemma WorkUsesARun(jobs: seq<Job>, i: nat, now: int, ok: bool)
    requires i < |jobs| && jobs[i].state.Pending?
    ensures TotalRunsLeft(jobs[i := Worked(jobs[i], now, ok)]) < TotalRunsLeft(jobs)
  {
    RunsLeftUpdate(jobs, i, Worked(jobs[i], now, ok));
  }

  datatype Drain = Drain(jobs: seq<Job>, clock: int, processed: nat)

  /** The loop of a worker with the queue to itself. */
  function Drained(d: Drain, script: nat -> Handling): Drain
    decreases TotalRunsLeft(d.jobs)
  {
    match Choice(d.jobs, {}, d.clock)
    case None => d
    case Some(i) =>
      var h := script(d.processed);
      WorkUsesARun(d.jobs, i, d.clock, h.ok);
      Drained(Drain(d.jobs[i := Worked(d.jobs[i], d.clock, h.ok)], d.clock + h.ms, d.processed + 1), script)
  }

  class JobTable {
    var jobs: seq<Job>
    var clock: int

    constructor (now: int)
      ensures jobs == [] && clock == now
    {
      jobs, clock := [], now;
    }

    method Enqueue(text: Json -> string, r: Request) returns (id: Result<nat, ()>)
      modifies this`jobs
      ensures jobs == Enqueued(text, old(jobs), r, clock)
      ensures id == match Decide(text, old(jobs), r, clock)
                    case Overloaded => Err(())
                    case Reuse(i) => Ok(i)
                    case Insert(_) => Ok(|old(jobs)|)
    {
      var inflight := InFlight(jobs);
      if inflight >= MAX_PENDING_PER_TENANT {
        return Err(());
      }
      if r.debounce.Some? {
        var found := Existing(text, jobs, r.kind, r.debounce.value);
        if found.Some? {
          return Ok(found.value);
        }
      }
      var payload := r.payload;
      if r.debounce.Some? && payload.Obj? {
        payload := Obj(payload.fields["debounce_ref" := Str(r.debounce.value)]);
      }
      jobs := jobs + [Job(r.kind, Pending, payload, 0, DEFAULT_MAX_ATTEMPTS, 0, clock, None)];
      id := Ok(|jobs| - 1);
    }

    method ClaimOne(locked: set<nat>) returns (claimed: Option<nat>)
      modifies this`jobs
      ensures claimed == Choice(old(jobs), locked, clock)
      ensures claimed.Some? ==> jobs == old(jobs)[claimed.value := Claimed(old(jobs)[claimed.value], clock)]
      ensures claimed.Some? ==> jobs[claimed.value].leaseExpires == Some(clock + 300_000)
      ensures claimed.None? ==> jobs == old(jobs)
    {
      claimed := Choice(jobs, locked, clock);
      if claimed.Some? {
        var row := jobs[claimed.value];
        jobs := jobs[claimed.value := row.(state := Leased, leaseExpires := Some(clock + LEASE_MS),
                                           attempts := row.attempts + 1)];
      }
    }

    method Complete(id: nat)
      requires id < |jobs|
      modifies this`jobs
      ensures jobs == old(jobs)[id := Finished(old(jobs)[id])]
    {
      jobs := jobs[id := jobs[id].(state := Completed)];
    }

    method FailOrRetry(id: nat, began: int, backoffMs: int)
      requires id < |jobs|
      modifies this`jobs
      ensures jobs == old(jobs)[id := Retried(old(jobs)[id], began, backoffMs)]
    {
      var row := jobs[id];
      var state := if row.attempts >= row.maxAttempts then Failed else Pending;
      jobs := jobs[id := row.(state := state, availableAt := began + backoffMs, leaseExpires := None)];
    }

    method Cancel(id: nat)
      modifies this`jobs
      ensures jobs == if id < |old(jobs)| then old(jobs)[id := CanceledIf(old(jobs)[id])] else old(jobs)
      ensures id < |jobs| ==>
                var before := old(jobs)[id];
                if before.state in {Pending, Leased} then jobs[id].state == Canceled && jobs[id].leaseExpires.None?
                else jobs[id] == before
    {
      if id < |jobs| {
        if jobs[id].state.Pending? || jobs[id].state.Leased? {
          jobs := jobs[id := jobs[id].(state := Canceled, leaseExpires := None)];
        } else {
          assert jobs[id := jobs[id]] == jobs;
        }
      }
    }

    /** One transaction: claim, run the handler, and settle the job by its outcome. */
    method RunNext(h: Handling) returns (claimed: Option<nat>)
      modifies this
      ensures claimed == Choice(old(jobs), {}, old(clock))
      ensures claimed.None? ==> jobs == old(jobs) && clock == old(clock)
      ensures claimed.Some? ==>
                && jobs == old(jobs)[claimed.value := Worked(old(jobs)[claimed.value], old(clock), h.ok)]
                && clock == old(clock) + h.ms
    {
      var began := clock;
      claimed := ClaimOne({});
      if claimed.Some? {
        clock := clock + h.ms;
        if h.ok {
          Complete(claimed.value);
        } else {
          FailOrRetry(claimed.value, began, BACKOFF_MS);
        }
      }
    }

    /** Claims and runs until nothing is due. */
    method RunOnce(enabled: bool, script: nat -> Handling) returns (processed: nat)
      modifies this
      ensures if enabled then Drain(jobs, clock, processed) == Drained(Drain(old(jobs), old(clock), 0), script)
              else processed == 0 && jobs == old(jobs) && clock == old(clock)
    {
      processed := 0;
      if !enabled {
        return;
      }
      while true
        invariant Drained(Drain(jobs, clock, processed), script) == Drained(Drain(old(jobs), old(clock), 0), script)
        decreases TotalRunsLeft(jobs)
      {
        ghost var before, began := jobs, clock;
        var h := script(processed);
        var claimed := RunNext(h);
        if claimed.None? {
          break;
        }
        WorkUsesARun(before, claimed.value, began, h.ok);
        processed := processed + 1;
      }
    }
  }

  /** A worker stops after at most as many runs as were left in all, and only when nothing more is due. */
  lemma {:induction false} WorkerDrains(d: Drain, script: nat -> Handling)
    ensures var e := Drained(d, script);
            && e.processed - d.processed <= TotalRunsLeft(d.jobs) - TotalRunsLeft(e.jobs)
            && forall i: nat :: !Claimable(e.jobs, {}, e.clock, i)
    decreases TotalRunsLeft(d.jobs)
  {
    var c := Choice(d.jobs, {}, d.clock);
    if c.Some? {
      var h := script(d.processed);
      WorkUsesARun(d.jobs, c.value, d.clock, h.ok);
      var jobs := d.jobs[c.value := Worked(d.jobs[c.value], d.clock, h.ok)];
      WorkerDrains(Drain(jobs, d.clock + h.ms, d.processed + 1), script);
    }
  }

  /** The jobs that the worker runs, in order. */
  function Trace(d: Drain, script: nat -> Handling): seq<nat>
    decreases TotalRunsLeft(d.jobs)
  {
    match Choice(d.jobs, {}, d.clock)
    case None => []
    case Some(i) =>
      var h := script(d.processed);
      WorkUsesARun(d.jobs, i, d.clock, h.ok);
      [i] + Trace(Drain(d.jobs[i := Worked(d.jobs[i], d.clock, h.ok)], d.clock + h.ms, d.processed + 1), script)
  }

  function Times(trace: seq<nat>, i: nat): nat {
    if trace == [] then 0 else (if trace[0] == i then 1 else 0) + Times(trace[1..], i)
  }

  /** Some run of job i, the first run of these being number `from`, ends well. */
  predicate EndsWell(trace: seq<nat>, script: nat -> Handling, from: nat, i: nat) {
    exists k :: 0 <= k < |trace| && trace[k] == i && script(from + k).ok
  }

  lemma EndsWellCons(j: nat, trace: seq<nat>, script: nat -> Handling, from: nat, i: nat)
    ensures EndsWell([j] + trace, script, from, i)
            <==> (j == i && script(from).ok) || EndsWell(trace, script, from + 1, i)
  {
    var all := [j] + trace;
    if EndsWell(trace, script, from + 1, i) {
      var k :| 0 <= k < |trace| && trace[k] == i && script(from + 1 + k).ok;
      assert all[k + 1] == i && script(from + (k + 1)).ok;
    }
    if j == i && script(from).ok {
      assert all[0] == i && script(from + 0).ok;
    }
    if EndsWell(all, script, from, i) {
      var k :| 0 <= k < |all| && all[k] == i && script(from + k).ok;
      assert k > 0 ==> trace[k - 1] == i && script(from + 1 + (k - 1)).ok;
    }
  }

  /** What a drained queue has made of a job that was pending, given how often it was run and whether one of
      these runs ended well. */
  predicate Settled(before: Job, after: Job, times: nat, well: bool) {
    && after.attempts == before.attempts + times && after.maxAttempts == before.maxAttempts
    && (after.state.Completed? <==> well)
    && (after.state.Failed? <==> !well && times > 0 && after.attempts >= after.maxAttempts)
    && (after.state.Pending? <==> !well && (times == 0 || after.attempts < after.maxAttempts))
    && (times == 0 ==> after == before)
  }

  /** The queue after one more job. */
  function NextDrain(d: Drain, script: nat -> Handling, c: nat): Drain
    requires c < |d.jobs|
  {
    var h := script(d.processed);
    Drain(d.jobs[c := Worked(d.jobs[c], d.clock, h.ok)], d.clock + h.ms, d.processed + 1)
  }

  lemma DrainGoesOn(d: Drain, script: nat -> Handling, c: nat, next: Drain)
    requires Choice(d.jobs, {}, d.clock) == Some(c) && next == NextDrain(d, script, c)
    ensures TotalRunsLeft(next.jobs) < TotalRunsLeft(d.jobs)
    ensures Drained(d, script) == Drained(next, script) && Trace(d, script) == [c] + Trace(next, script)
  {
    WorkUsesARun(d.jobs, c, d.clock, script(d.processed).ok);
  }

  lemma TraceCons(c: nat, rest: seq<nat>, script: nat -> Handling, from: nat, i: nat)
    ensures Times([c] + rest, i) == (if c == i then 1 else 0) + Times(rest, i)
    ensures EndsWell([c] + rest, script, from, i)
            <==> (c == i && script(from).ok) || EndsWell(rest, script, from + 1, i)
  {
    EndsWellCons(c, rest, script, from, i);
    assert ([c] + rest)[1..] == rest;
  }

  lemma NoTrace(d: Drain, script: nat -> Handling, i: nat)
    requires Choice(d.jobs, {}, d.clock).None?
    ensures Drained(d, script) == d && Times(Trace(d, script), i) == 0
    ensures !EndsWell(Trace(d, script), script, d.processed, i)
  {
  }

  lemma SettledOn(a: Job, b: Job, e: Job, now: int, mine: bool, ok: bool, times: nat, well: bool)
    requires a.state.Pending? && b == if mine then Worked(a, now, ok) else a
    requires if b.state.Pending? then Settled(b, e, times, well) else e == b && times == 0 && !well
    ensures Settled(a, e, (if mine then 1 else 0) + times, (mine && ok) || well)
  {
  }

  /** What holds of job i once the queue is drained. */
  predicate DrainSettled(d: Drain, script: nat -> Handling, i: nat, e: Drain, trace: seq<nat>) {
    i < |d.jobs| == |e.jobs|
    && if d.jobs[i].state.Pending?
       then Settled(d.jobs[i], e.jobs[i], Times(trace, i), EndsWell(trace, script, d.processed, i))
       else e.jobs[i] == d.jobs[i] && Times(trace, i) == 0 && !EndsWell(trace, script, d.processed, i)
  }

  lemma SettledBefore(d: Drain, script: nat -> Handling, i: nat, c: nat, next: Drain, e: Drain, rest: seq<nat>)
    requires c < |d.jobs| && i < |d.jobs| && (c == i ==> d.jobs[i].state.Pending?) && next == NextDrain(d, script, c)
    requires DrainSettled(next, script, i, e, rest)
    ensures DrainSettled(d, script, i, e, [c] + rest)
  {
    TraceCons(c, rest, script, d.processed, i);
    if d.jobs[i].state.Pending? {
      SettledOn(d.jobs[i], next.jobs[i], e.jobs[i], d.clock, c == i, script(d.processed).ok, Times(rest, i),
                EndsWell(rest, script, d.processed + 1, i));
    }
  }

  /** A worker that drains the queue completes a pending job exactly if one of its runs ends well, fails it exactly
      if none does and its attempts are used up, and otherwise leaves it waiting for its next run; it does not
      touch the others. */
  lemma {:induction false} DrainSettles(d: Drain, script: nat -> Handling, i: nat)
    requires i < |d.jobs|
    ensures DrainSettled(d, script, i, Drained(d, script), Trace(d, script))
    decreases TotalRunsLeft(d.jobs)
  {
    var c := Choice(d.jobs, {}, d.clock);
    if c.None? {
      NoTrace(d, script, i);
    } else {
      var next := NextDrain(d, script, c.value);
      DrainGoesOn(d, script, c.value, next);
      DrainSettles(next, script, i);
      SettledBefore(d, script, i, c.value, next, Drained(next, script), Trace(next, script));
    }
  }
}
