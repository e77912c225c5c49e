/** The job queue under any interleaving of workers, enqueuing requests, cancellations and reclaims.

    A worker's transaction claims a job, runs its handler and settles it; until it commits nobody else sees
    anything of it but the row lock. A request's transaction enqueues any number of jobs, each by three
    statements that see what is committed when they run: count the jobs in flight, look for a pending job of
    the same reference, insert. The others see the new rows when the request commits. */
module JobRuns {
  import opened Common
  import opened Json
  import opened Jobs

  /** An open worker transaction: the job it holds and when it began. */
  datatype Tx = Tx(id: nat, began: int)

  /** A row inserted and not committed: whether it was looked for, and how long the table was then. */
  datatype Waiting = Waiting(job: Job, debounced: bool, seen: nat)

  /** How far a request is with its current enqueue: it has counted, or also looked and found nothing. */
  datatype Phase = Idle | Counting(request: Request) | Clear(request: Request, seen: nat)

  /** A request's transaction. */
  datatype Ticket = Ticket(began: int, rows: seq<Waiting>, phase: Phase, open: bool)

  /** A committed run of a job's handler, and how it ended. */
  datatype HandlerRun = HandlerRun(job: nat, ok: bool)

  /** The committed table, the workers' open transactions, the runs that have been committed, and the requests
      so far. */
  datatype State = State(jobs: seq<Job>, open: map<nat, Tx>, clock: int, runs: seq<HandlerRun>, tickets: seq<Ticket>)

  datatype Step =
    | Begin(worker: nat, job: nat)
    | Commit(worker: nat, ok: bool)
    | Rollback(worker: nat)
    | Open
    | Count(ticket: nat, request: Request)
    | Look(ticket: nat)
    | Store(ticket: nat)
    | CommitRequest(ticket: nat)
    | AbortRequest(ticket: nat)
    | Cancel(id: nat)
    | Reclaim
    | Wait(ms: nat)

  const EMPTY := State([], map[], 0, [], [])

  function Locked(open: map<nat, Tx>): set<nat> { set w | w in open :: open[w].id }

  /** A job the claim query may return: nothing claimable is ahead of it. */
  predicate Choosable(jobs: seq<Job>, locked: set<nat>, now: int, i: nat) {
    Claimable(jobs, locked, now, i)
    && forall k :: 0 <= k < |jobs| && Claimable(jobs, locked, now, k) ==> !Ahead(jobs[k], jobs[i])
  }

  function JobsOf(rows: seq<Waiting>): seq<Job> { Map((w: Waiting) => w.job, rows) }

  function Closed(t: Ticket): Ticket { Ticket(t.began, [], Idle, false) }

  predicate IsIdle(s: State, t: nat) { t < |s.tickets| && s.tickets[t].open && s.tickets[t].phase.Idle? }

  predicate IsCounting(s: State, t: nat) { t < |s.tickets| && s.tickets[t].open && s.tickets[t].phase.Counting? }

  predicate IsClear(s: State, t: nat) { t < |s.tickets| && s.tickets[t].open && s.tickets[t].phase.Clear? }

  /** A ticket after its count: refused at the bound, or on to the next statement. */
  function CountedTicket(jobs: seq<Job>, t: Ticket, r: Request): Ticket {
    if InFlight(jobs + JobsOf(t.rows)) >= MAX_PENDING_PER_TENANT then t else t.(phase := Counting(r))
  }

  /** A ticket after its look: answered with the job it found, or clear to insert. */
  function LookedTicket(text: Json -> string, jobs: seq<Job>, t: Ticket): Ticket
    requires t.phase.Counting?
  {
    var r := t.phase.request;
    if r.debounce.Some? && Existing(text, jobs + JobsOf(t.rows), r.kind, r.debounce.value).Some? then t.(phase := Idle)
    else t.(phase := Clear(r, |jobs|))
  }

  function InsertedTicket(t: Ticket): Ticket
    requires t.phase.Clear?
  {
    var r := t.phase.request;
    t.(rows := t.rows + [Waiting(NewJob(r, t.began), r.debounce.Some?, t.phase.seen)], phase := Idle)
  }

  /** A step that cannot be taken, or has to wait for a lock, changes nothing. */
  function Take(text: Json -> string, s: State, e: Step): State {
    match e
    case Begin(w, i) =>
      if w !in s.open && Choosable(s.jobs, Locked(s.open), s.clock, i) then s.(open := s.open[w := Tx(i, s.clock)])
      else s
    case Commit(w, ok) =>
      if w in s.open && s.open[w].id < |s.jobs| then
        var tx := s.open[w];
        s.(jobs := s.jobs[tx.id := Worked(s.jobs[tx.id], tx.began, ok)], open := s.open - {w},
           runs := s.runs + [HandlerRun(tx.id, ok)])
      else s
    case Rollback(w) => s.(open := s.open - {w})
    case Open => s.(tickets := s.tickets + [Ticket(s.clock, [], Idle, true)])
    case Count(t, r) =>
      if IsIdle(s, t) then s.(tickets := s.tickets[t := CountedTicket(s.jobs, s.tickets[t], r)]) else s
    case Look(t) =>
      if IsCounting(s, t) then s.(tickets := s.tickets[t := LookedTicket(text, s.jobs, s.tickets[t])]) else s
    case Store(t) =>
      if IsClear(s, t) then s.(tickets := s.tickets[t := InsertedTicket(s.tickets[t])]) else s
    case CommitRequest(t) =>
      if IsIdle(s, t) then
        s.(jobs := s.jobs + JobsOf(s.tickets[t].rows), tickets := s.tickets[t := Closed(s.tickets[t])])
      else s
    case AbortRequest(t) =>
      if t < |s.tickets| then s.(tickets := s.tickets[t := Closed(s.tickets[t])]) else s
    case Cancel(i) =>
      if i < |s.jobs| && i !in Locked(s.open) then s.(jobs := s.jobs[i := CanceledIf(s.jobs[i])]) else s
    case Reclaim => s.(jobs := AllReclaimed(s.jobs, s.clock))
    case Wait(ms) => s.(clock := s.clock + ms)
  }

  function Run(text: Json -> string, s: State, steps: seq<Step>): State {
    if steps == [] then s else Take(text, Run(text, s, steps[..|steps| - 1]), steps[|steps| - 1])
  }

  lemma RunOneMore(text: Json -> string, s: State, steps: seq<Step>, e: Step)
    ensures Run(text, s, steps + [e]) == Take(text, Run(text, s, steps), e)
  {
    assert (steps + [e])[..|steps|] == steps;
  }

  /** The statements of one enqueue, with nothing between them, are the enqueue of a table of one's own. */
  lemma AloneIsEnqueue(text: Json -> string, s: State, r: Request)
    ensures var n := |s.tickets|;
            var looked := Take(text, Take(text, Take(text, s, Open), Count(n, r)), Look(n));
            Take(text, Take(text, looked, Store(n)), CommitRequest(n))
            == s.(jobs := Enqueued(text, s.jobs, r, s.clock), tickets := s.tickets + [Ticket(s.clock, [], Idle, false)])
  {
    var n, blank := |s.tickets|, Ticket(s.clock, [], Idle, true);
    assert s.jobs + JobsOf(blank.rows) == s.jobs;
    var first := Take(text, s, Open);
    var end := Ticket(s.clock, [], Idle, false);
    assert forall t: Ticket :: first.tickets[n := t] == s.tickets + [t];
    assert JobsOf([Waiting(NewJob(r, s.clock), r.debounce.Some?, |s.jobs|)]) == [NewJob(r, s.clock)];
    assert s.jobs + JobsOf([]) == s.jobs;
  }

  // ---------------------------------------------------------------------------------------------
  // The invariant
  // ---------------------------------------------------------------------------------------------

  function RunsOf(runs: seq<HandlerRun>, i: nat): nat {
    if runs == [] then 0 else RunsOf(runs[..|runs| - 1], i) + (if runs[|runs| - 1].job == i then 1 else 0)
  }

  function Allowed(j: Job): int { if j.maxAttempts > 1 then j.maxAttempts else 1 }

  predicate EndedOk(runs: seq<HandlerRun>, i: nat) { HandlerRun(i, true) in runs }

  /** A row counts its committed runs, has had no more than allowed, and has one left while pending; it is
      completed if one of them ended well, and failed if all that are allowed did not. */
  predicate Counted(j: Job, runs: nat, ok: bool) {
    && j.attempts == runs <= Allowed(j) && (j.state.Pending? ==> runs < Allowed(j))
    && (j.state.Completed? <==> ok) && (j.state.Failed? <==> runs == Allowed(j) && !ok)
  }

  predicate AllCounted(s: State) {
    forall i :: 0 <= i < |s.jobs| ==> Counted(s.jobs[i], RunsOf(s.runs, i), EndedOk(s.runs, i))
  }

  predicate NoRunsAhead(s: State) { forall r :: r in s.runs ==> r.job < |s.jobs| }

  /** No two open transactions hold the same job, and what they hold is still pending for everybody else. */
  predicate Exclusive(s: State) {
    && (forall w, w' :: w in s.open && w' in s.open && w != w' ==> s.open[w].id != s.open[w'].id)
    && (forall w :: w in s.open ==> s.open[w].id < |s.jobs| && s.jobs[s.open[w].id].state.Pending?)
  }

  /** A lease is taken and given up within one transaction: nobody ever sees it. */
  predicate NoLeaseSeen(jobs: seq<Job>) { forall i :: 0 <= i < |jobs| ==> !jobs[i].state.Leased? }

  predicate Unrun(j: Job) { j.state.Pending? && j.attempts == 0 && j.maxAttempts == DEFAULT_MAX_ATTEMPTS }

  predicate NewRows(t: Ticket) { forall k :: 0 <= k < |t.rows| ==> Unrun(t.rows[k].job) }

  predicate AllNew(s: State) { forall t :: 0 <= t < |s.tickets| ==> NewRows(s.tickets[t]) }

  predicate Sound(s: State) { Exclusive(s) && NoLeaseSeen(s.jobs) && AllCounted(s) && NoRunsAhead(s) && AllNew(s) }

  lemma {:induction false} InFlightUpdate(jobs: seq<Job>, i: nat, j: Job)
    requires i < |jobs|
    ensures InFlight(jobs[i := j]) == InFlight(jobs) - (if Live(jobs[i]) then 1 else 0) + (if Live(j) then 1 else 0)
  {
    var n := |jobs| - 1;
    if i == n {
      assert jobs[i := j][..n] == jobs[..n];
    } else {
      assert jobs[i := j][..n] == jobs[..n][i := j];
      InFlightUpdate(jobs[..n], i, j);
    }
  }

  lemma {:induction false} InFlightAppend(a: seq<Job>, b: seq<Job>)
    ensures InFlight(a + b) == InFlight(a) + InFlight(b)
    decreases |b|
  {
    if b == [] {
      assert a + b == a;
    } else {
      assert (a + b)[..|a + b| - 1] == a + b[..|b| - 1];
      InFlightAppend(a, b[..|b| - 1]);
    }
  }

  lemma {:induction false} NewRowsAreInFlight(rows: seq<Waiting>)
    requires forall k :: 0 <= k < |rows| ==> Unrun(rows[k].job)
    ensures InFlight(JobsOf(rows)) == |rows|
  {
    if rows != [] {
      var n := |rows| - 1;
      NewRowsAreInFlight(rows[..n]);
      assert JobsOf(rows)[..n] == JobsOf(rows[..n]);
    }
  }

  lemma OneMoreRun(runs: seq<HandlerRun>, r: HandlerRun, k: nat)
    ensures RunsOf(runs + [r], k) == RunsOf(runs, k) + (if r.job == k then 1 else 0)
    ensures EndedOk(runs + [r], k) <==> EndedOk(runs, k) || (r.job == k && r.ok)
  {
    assert (runs + [r])[..|runs|] == runs;
    assert r == HandlerRun(r.job, r.ok);
  }

  lemma {:induction false} NeverRun(runs: seq<HandlerRun>, i: nat)
    requires forall r :: r in runs ==> r.job != i
    ensures RunsOf(runs, i) == 0 && !EndedOk(runs, i)
  {
    if runs != [] {
      NeverRun(runs[..|runs| - 1], i);
    }
  }

  lemma BeginKeeps(text: Json -> string, s: State, w: nat, i: nat)
    requires Sound(s)
    ensures Sound(Take(text, s, Begin(w, i)))
  {
    assert forall v :: v in s.open ==> s.open[v].id in Locked(s.open);
  }

  lemma CommitCounts(jobs: seq<Job>, runs: seq<HandlerRun>, id: nat, began: int, ok: bool, i: nat)
    requires id < |jobs| && i < |jobs| && jobs[id].state.Pending?
    requires Counted(jobs[i], RunsOf(runs, i), EndedOk(runs, i))
    ensures var after := runs + [HandlerRun(id, ok)];
            Counted(jobs[id := Worked(jobs[id], began, ok)][i], RunsOf(after, i), EndedOk(after, i))
  {
    OneMoreRun(runs, HandlerRun(id, ok), i);
  }

  lemma CommitExcludes(text: Json -> string, s: State, w: nat, ok: bool)
    requires Exclusive(s) && NoLeaseSeen(s.jobs) && w in s.open
    ensures Exclusive(Take(text, s, Commit(w, ok))) && NoLeaseSeen(Take(text, s, Commit(w, ok)).jobs)
  {
    var s' := Take(text, s, Commit(w, ok));
    assert s.open[w].id < |s.jobs|;
    forall v | v in s'.open
      ensures s'.open[v].id < |s'.jobs| && s'.jobs[s'.open[v].id].state.Pending?
    {
      assert v != w && s.open[v].id != s.open[w].id;
    }
  }

  lemma CommitKeeps(text: Json -> string, s: State, w: nat, ok: bool)
    requires Sound(s) && w in s.open
    ensures Sound(Take(text, s, Commit(w, ok)))
  {
    var tx, s' := s.open[w], Take(text, s, Commit(w, ok));
    CommitExcludes(text, s, w, ok);
    forall i | 0 <= i < |s'.jobs|
      ensures Counted(s'.jobs[i], RunsOf(s'.runs, i), EndedOk(s'.runs, i))
    {
      assert Counted(s.jobs[i], RunsOf(s.runs, i), EndedOk(s.runs, i));
      CommitCounts(s.jobs, s.runs, tx.id, tx.began, ok, i);
    }
  }

  lemma NewRowCounts(jobs: seq<Job>, rows: seq<Waiting>, runs: seq<HandlerRun>, i: nat)
    requires |jobs| <= i < |jobs| + |rows| && (forall r :: r in runs ==> r.job < |jobs|)
    requires forall k :: 0 <= k < |rows| ==> Unrun(rows[k].job)
    ensures var j := (jobs + JobsOf(rows))[i]; Counted(j, RunsOf(runs, i), EndedOk(runs, i)) && !j.state.Leased?
  {
    NeverRun(runs, i);
    assert (jobs + JobsOf(rows))[i] == rows[i - |jobs|].job;
  }

  lemma RequestCommitKeeps(text: Json -> string, s: State, t: nat)
    requires Sound(s) && IsIdle(s, t)
    ensures Sound(Take(text, s, CommitRequest(t)))
  {
    var rows, s' := s.tickets[t].rows, Take(text, s, CommitRequest(t));
    assert NewRows(s.tickets[t]);
    forall i | 0 <= i < |s'.jobs|
      ensures Counted(s'.jobs[i], RunsOf(s'.runs, i), EndedOk(s'.runs, i)) && !s'.jobs[i].state.Leased?
    {
      if i < |s.jobs| {
        assert s'.jobs[i] == s.jobs[i] && Counted(s.jobs[i], RunsOf(s.runs, i), EndedOk(s.runs, i));
      } else {
        NewRowCounts(s.jobs, rows, s.runs, i);
      }
    }
  }

  lemma TicketKeeps(text: Json -> string, s: State, e: Step)
    requires Sound(s) && (e.Open? || e.Count? || e.Look? || e.Store? || e.AbortRequest?)
    ensures Sound(Take(text, s, e))
  {
    var s' := Take(text, s, e);
    forall t | 0 <= t < |s'.tickets|
      ensures NewRows(s'.tickets[t])
    {
      assert t < |s.tickets| ==> NewRows(s.tickets[t]);
    }
  }

  lemma CancelKeeps(text: Json -> string, s: State, i: nat)
    requires Sound(s)
    ensures Sound(Take(text, s, Cancel(i)))
  {
    if i < |s.jobs| && i !in Locked(s.open) {
      assert Counted(s.jobs[i], RunsOf(s.runs, i), EndedOk(s.runs, i));
      assert forall v :: v in s.open ==> s.open[v].id in Locked(s.open);
    }
  }

  /** With leases never seen there is nothing to reclaim. */
  lemma ReclaimIsIdle(jobs: seq<Job>, now: int)
    requires NoLeaseSeen(jobs)
    ensures AllReclaimed(jobs, now) == jobs
  {
    assert forall i :: 0 <= i < |jobs| ==> !jobs[i].state.Leased? && AllReclaimed(jobs, now)[i] == jobs[i];
  }

  lemma TakeKeeps(text: Json -> string, s: State, e: Step)
    requires Sound(s)
    ensures Sound(Take(text, s, e))
  {
    match e
    case Begin(w, i) => BeginKeeps(text, s, w, i);
    case Commit(w, ok) =>
      if w in s.open {
        CommitKeeps(text, s, w, ok);
      }
    case Rollback(_) =>
    case CommitRequest(t) =>
      if IsIdle(s, t) {
        RequestCommitKeeps(text, s, t);
      }
    case Cancel(i) => CancelKeeps(text, s, i);
    case Reclaim => ReclaimIsIdle(s.jobs, s.clock);
    case Wait(_) =>
    case _ => TicketKeeps(text, s, e);
  }

  lemma {:induction false} RunKeeps(text: Json -> string, s: State, steps: seq<Step>)
    requires Sound(s)
    ensures Sound(Run(text, s, steps))
  {
    if steps != [] {
      RunKeeps(text, s, steps[..|steps| - 1]);
      TakeKeeps(text, Run(text, s, steps[..|steps| - 1]), steps[|steps| - 1]);
    }
  }

  /** In every run of the queue no job is held twice, each job's handler run is committed at most its allowed
      number of times, and no lease is ever there to reclaim. */
  lemma EveryRunIsSound(text: Json -> string, steps: seq<Step>)
    ensures var s := Run(text, EMPTY, steps);
            && (forall w, w' :: w in s.open && w' in s.open && s.open[w].id == s.open[w'].id ==> w == w')
            && (forall i :: 0 <= i < |s.jobs| ==> RunsOf(s.runs, i) <= Allowed(s.jobs[i]))
            && AllReclaimed(s.jobs, s.clock) == s.jobs
  {
    RunKeeps(text, EMPTY, steps);
    var s := Run(text, EMPTY, steps);
    ReclaimIsIdle(s.jobs, s.clock);
    forall i | 0 <= i < |s.jobs|
      ensures RunsOf(s.runs, i) <= Allowed(s.jobs[i])
    {
      assert Counted(s.jobs[i], RunsOf(s.runs, i), EndedOk(s.runs, i));
    }
  }

  /** At every moment of every run a job is completed exactly if a committed run of its handler ended well, and
      failed exactly if all the runs that it is allowed have been committed and none did. */
  lemma OutcomesDecide(text: Json -> string, steps: seq<Step>, i: nat)
    requires i < |Run(text, EMPTY, steps).jobs|
    ensures var s := Run(text, EMPTY, steps);
            && (s.jobs[i].state.Completed? <==> HandlerRun(i, true) in s.runs)
            && (s.jobs[i].state.Failed? <==> RunsOf(s.runs, i) == Allowed(s.jobs[i]) && HandlerRun(i, true) !in s.runs)
  {
    RunKeeps(text, EMPTY, steps);
    var s := Run(text, EMPTY, steps);
    assert Counted(s.jobs[i], RunsOf(s.runs, i), EndedOk(s.runs, i));
  }

  /** What the end of a worker's transaction makes of its job: a run that ended well completes it; another one
      puts it back, due thirty seconds after the transaction began, or fails it if it was the last allowed. */
  lemma CommitSettles(text: Json -> string, s: State, w: nat, ok: bool)
    requires Sound(s) && w in s.open
    ensures var tx, s' := s.open[w], Take(text, s, Commit(w, ok));
            && w !in s'.open && |s'.jobs| == |s.jobs| && s'.runs == s.runs + [HandlerRun(tx.id, ok)]
            && (forall i :: 0 <= i < |s.jobs| && i != tx.id ==> s'.jobs[i] == s.jobs[i])
            && var j := s'.jobs[tx.id];
               && j.attempts == s.jobs[tx.id].attempts + 1
               && (if ok then j.state.Completed?
                   else if j.attempts < s.jobs[tx.id].maxAttempts
                   then j.state.Pending? && j.availableAt == tx.began + 30_000
                   else j.state.Failed?)
  {
  }

  /** Nobody begins a job before it is due. */
  lemma NotBegunEarly(text: Json -> string, s: State, w: nat, i: nat)
    requires i < |s.jobs| && s.clock < s.jobs[i].availableAt
    ensures Take(text, s, Begin(w, i)) == s
  {
  }

  // ---------------------------------------------------------------------------------------------
  // Terminal states are final
  // ---------------------------------------------------------------------------------------------

  lemma TakeLeavesTerminal(text: Json -> string, s: State, e: Step, i: nat)
    requires Sound(s) && i < |s.jobs| && Terminal(s.jobs[i])
    ensures i < |Take(text, s, e).jobs| && Take(text, s, e).jobs[i] == s.jobs[i]
  {
  }

  /** A job that is completed, failed or canceled stays exactly as it is, whatever happens next. */
  lemma {:induction false} TerminalIsFinal(text: Json -> string, s: State, steps: seq<Step>, i: nat)
    requires Sound(s) && i < |s.jobs| && Terminal(s.jobs[i])
    ensures i < |Run(text, s, steps).jobs| && Run(text, s, steps).jobs[i] == s.jobs[i]
  {
    if steps != [] {
      var before := steps[..|steps| - 1];
      RunKeeps(text, s, before);
      TerminalIsFinal(text, s, before, i);
      TakeLeavesTerminal(text, Run(text, s, before), steps[|steps| - 1], i);
    }
  }

  // ---------------------------------------------------------------------------------------------
  // How many jobs can be in flight
  // ---------------------------------------------------------------------------------------------

  /** An enqueue is open from its count to the end of its request. */
  function OpenOf(t: Ticket): nat { |t.rows| + (if t.phase.Idle? then 0 else 1) }

  function OpenEnqueues(ts: seq<Ticket>): nat {
    if ts == [] then 0 else OpenEnqueues(ts[..|ts| - 1]) + OpenOf(ts[|ts| - 1])
  }

  /** The open enqueues of other requests, which a count of this one does not see. */
  function UnseenBy(s: State, t: nat): int
    requires t < |s.tickets|
  {
    OpenEnqueues(s.tickets) - OpenOf(s.tickets[t])
  }

  /** If the step is a count that passes, it misses no more than `k` open enqueues. */
  predicate MissesAtMost(s: State, e: Step, k: nat) {
    e.Count? && IsIdle(s, e.ticket) && CountedTicket(s.jobs, s.tickets[e.ticket], e.request).phase.Counting? ==>
      UnseenBy(s, e.ticket) <= k
  }

  predicate AllMissAtMost(text: Json -> string, s: State, steps: seq<Step>, k: nat) {
    steps == [] || (AllMissAtMost(text, s, steps[..|steps| - 1], k)
                    && MissesAtMost(Run(text, s, steps[..|steps| - 1]), steps[|steps| - 1], k))
  }

  predicate Bounded(s: State, k: nat) { InFlight(s.jobs) + OpenEnqueues(s.tickets) <= MAX_PENDING_PER_TENANT + k }

  lemma {:induction false} OpenUpdate(ts: seq<Ticket>, i: nat, t: Ticket)
    requires i < |ts|
    ensures OpenEnqueues(ts[i := t]) == OpenEnqueues(ts) - OpenOf(ts[i]) + OpenOf(t)
  {
    var n := |ts| - 1;
    if i == n {
      assert ts[i := t][..n] == ts[..n];
    } else {
      assert ts[i := t][..n] == ts[..n][i := t];
      OpenUpdate(ts[..n], i, t);
    }
  }

  /** A count that passes saw fewer jobs in flight than the bound; what it did not see is open elsewhere. */
  lemma CountStaysBounded(text: Json -> string, s: State, t: nat, r: Request, k: nat)
    requires Sound(s) && Bounded(s, k) && IsIdle(s, t) && MissesAtMost(s, Count(t, r), k)
    ensures Bounded(Take(text, s, Count(t, r)), k)
  {
    var rows := s.tickets[t].rows;
    assert NewRows(s.tickets[t]);
    InFlightAppend(s.jobs, JobsOf(rows));
    NewRowsAreInFlight(rows);
    OpenUpdate(s.tickets, t, CountedTicket(s.jobs, s.tickets[t], r));
  }

  lemma RequestCommitStaysBounded(text: Json -> string, s: State, t: nat, k: nat)
    requires Sound(s) && Bounded(s, k) && IsIdle(s, t)
    ensures Bounded(Take(text, s, CommitRequest(t)), k)
  {
    var rows := s.tickets[t].rows;
    assert NewRows(s.tickets[t]);
    InFlightAppend(s.jobs, JobsOf(rows));
    NewRowsAreInFlight(rows);
    OpenUpdate(s.tickets, t, Closed(s.tickets[t]));
  }

  lemma WorkStaysBounded(text: Json -> string, s: State, w: nat, ok: bool, k: nat)
    requires Sound(s) && Bounded(s, k) && w in s.open
    ensures Bounded(Take(text, s, Commit(w, ok)), k)
  {
    var tx := s.open[w];
    InFlightUpdate(s.jobs, tx.id, Worked(s.jobs[tx.id], tx.began, ok));
  }

  lemma TicketStaysBounded(text: Json -> string, s: State, t: nat, t': Ticket, k: nat)
    requires Bounded(s, k) && t < |s.tickets| && OpenOf(t') <= OpenOf(s.tickets[t])
    ensures Bounded(s.(tickets := s.tickets[t := t']), k)
  {
    OpenUpdate(s.tickets, t, t');
  }

  lemma OpenStaysBounded(s: State, t: Ticket, k: nat)
    requires Bounded(s, k) && OpenOf(t) == 0
    ensures Bounded(s.(tickets := s.tickets + [t]), k)
  {
    assert (s.tickets + [t])[..|s.tickets|] == s.tickets;
  }

  lemma TakeStaysBounded(text: Json -> string, s: State, e: Step, k: nat)
    requires Sound(s) && Bounded(s, k) && MissesAtMost(s, e, k)
    ensures Bounded(Take(text, s, e), k)
  {
    match e
    case Commit(w, ok) =>
      if w in s.open {
        WorkStaysBounded(text, s, w, ok, k);
      }
    case Open => OpenStaysBounded(s, Ticket(s.clock, [], Idle, true), k);
    case Count(t, r) =>
      if IsIdle(s, t) {
        CountStaysBounded(text, s, t, r, k);
      }
    case Look(t) =>
      if IsCounting(s, t) {
        TicketStaysBounded(text, s, t, LookedTicket(text, s.jobs, s.tickets[t]), k);
      }
    case Store(t) =>
      if IsClear(s, t) {
        TicketStaysBounded(text, s, t, InsertedTicket(s.tickets[t]), k);
      }
    case CommitRequest(t) =>
      if IsIdle(s, t) {
        RequestCommitStaysBounded(text, s, t, k);
      }
    case AbortRequest(t) =>
      if t < |s.tickets| {
        TicketStaysBounded(text, s, t, Closed(s.tickets[t]), k);
      }
    case Cancel(i) =>
      if i < |s.jobs| {
        InFlightUpdate(s.jobs, i, CanceledIf(s.jobs[i]));
      }
    case Reclaim => ReclaimIsIdle(s.jobs, s.clock);
    case _ =>
  }

  lemma {:induction false} RunStaysBounded(text: Json -> string, steps: seq<Step>, k: nat)
    requires AllMissAtMost(text, EMPTY, steps, k)
    ensures Bounded(Run(text, EMPTY, steps), k)
  {
    if steps != [] {
      var before := steps[..|steps| - 1];
      RunStaysBounded(text, before, k);
      RunKeeps(text, EMPTY, before);
      TakeStaysBounded(text, Run(text, EMPTY, before), steps[|steps| - 1], k);
    }
  }

  /** If no count that passes misses more than `k` open enqueues of other requests, no more than 500 + k jobs
      are in flight: the bound of 500 holds as long as requests do not overlap, however many jobs each of them
      enqueues. */
  lemma InFlightIsBounded(text: Json -> string, steps: seq<Step>, k: nat)
    requires AllMissAtMost(text, EMPTY, steps, k)
    ensures InFlight(Run(text, EMPTY, steps).jobs) <= MAX_PENDING_PER_TENANT + k
  {
    RunStaysBounded(text, steps, k);
  }

  // That bound is reached: by requests of one job each, no more than k + 1 of them open at once.

  /** At no moment of the run are more than `most` enqueues open. */
  predicate AtMostOpen(text: Json -> string, s: State, steps: seq<Step>, most: nat) {
    OpenEnqueues(Run(text, s, steps).tickets) <= most
    && (steps != [] ==> AtMostOpen(text, s, steps[..|steps| - 1], most))
  }

  lemma CountOpensOneMore(text: Json -> string, s: State, e: Step, most: nat)
    requires OpenEnqueues(Take(text, s, e).tickets) <= most && most >= 1
    ensures MissesAtMost(s, e, most - 1)
  {
    if e.Count? && IsIdle(s, e.ticket) {
      OpenUpdate(s.tickets, e.ticket, CountedTicket(s.jobs, s.tickets[e.ticket], e.request));
    }
  }

  lemma {:induction false} FewOpenMissFew(text: Json -> string, steps: seq<Step>, most: nat)
    requires AtMostOpen(text, EMPTY, steps, most) && most >= 1
    ensures AllMissAtMost(text, EMPTY, steps, most - 1)
  {
    if steps != [] {
      var before := steps[..|steps| - 1];
      FewOpenMissFew(text, before, most);
      CountOpensOneMore(text, Run(text, EMPTY, before), steps[|steps| - 1], most);
    }
  }

  const PLAIN := Request(Export, Null, None)

  const PLAIN_ROW := Waiting(NewJob(PLAIN, 0), false, 0)

  function Copies(n: nat): seq<Job> { seq(n, i => NewJob(PLAIN, 0)) }

  const DONE := Ticket(0, [], Idle, false)

  /** `n` requests are through, `k` more have inserted one job each and wait to commit. */
  function Piled(n: nat, seen: nat, k: nat): State {
    State(Copies(n), map[], 0, [],
          seq(n, i => DONE) + seq(k, i => Ticket(0, [Waiting(NewJob(PLAIN, 0), false, seen)], Idle, true)))
  }

  lemma {:induction false} CopiesInFlight(n: nat)
    ensures InFlight(Copies(n)) == n
  {
    if n > 0 {
      assert Copies(n)[..n - 1] == Copies(n - 1);
      CopiesInFlight(n - 1);
    }
  }

  lemma {:induction false} PiledOpen(n: nat, seen: nat, k: nat)
    ensures OpenEnqueues(Piled(n, seen, k).tickets) == k
  {
    var ts := Piled(n, seen, k).tickets;
    if k > 0 {
      assert ts[..|ts| - 1] == Piled(n, seen, k - 1).tickets;
      PiledOpen(n, seen, k - 1);
    } else if n > 0 {
      assert ts[..n - 1] == Piled(n - 1, seen, 0).tickets;
      PiledOpen(n - 1, seen, 0);
    }
  }

  /** The state on the way to one more waiting request. */
  function Next(s: State, t: Ticket): State { s.(tickets := s.tickets + [t]) }

  lemma NextReplaced(s: State, t: Ticket, t': Ticket)
    ensures Next(s, t).(tickets := Next(s, t).tickets[|s.tickets| := t']) == Next(s, t')
  {
    assert Next(s, t).tickets[|s.tickets| := t'] == s.tickets + [t'];
  }

  lemma PileCounts(text: Json -> string, s: State, n: nat, k: nat)
    requires s == Piled(n, n, k) && n < MAX_PENDING_PER_TENANT
    ensures Take(text, Next(s, Ticket(0, [], Idle, true)), Count(n + k, PLAIN))
            == Next(s, Ticket(0, [], Counting(PLAIN), true))
  {
    CopiesInFlight(n);
    assert Copies(n) + JobsOf([]) == Copies(n);
    NextReplaced(s, Ticket(0, [], Idle, true), Ticket(0, [], Counting(PLAIN), true));
  }

  lemma PileLooks(text: Json -> string, s: State, n: nat, k: nat)
    requires s == Piled(n, n, k)
    ensures Take(text, Next(s, Ticket(0, [], Counting(PLAIN), true)), Look(n + k))
            == Next(s, Ticket(0, [], Clear(PLAIN, n), true))
  {
    NextReplaced(s, Ticket(0, [], Counting(PLAIN), true), Ticket(0, [], Clear(PLAIN, n), true));
  }

  lemma PileStores(text: Json -> string, s: State, n: nat, k: nat)
    requires s == Piled(n, n, k)
    ensures Take(text, Next(s, Ticket(0, [], Clear(PLAIN, n), true)), Store(n + k)) == Piled(n, n, k + 1)
  {
    var row := Waiting(NewJob(PLAIN, 0), false, n);
    assert [] + [row] == [row];
    NextReplaced(s, Ticket(0, [], Clear(PLAIN, n), true), Ticket(0, [row], Idle, true));
    assert Next(s, Ticket(0, [row], Idle, true)).tickets == Piled(n, n, k + 1).tickets;
  }

  /** The first waiting request commits. */
  lemma CommitFirst(text: Json -> string, n: nat, seen: nat, k: nat)
    requires k > 0
    ensures Take(text, Piled(n, seen, k), CommitRequest(n)) == Piled(n + 1, seen, k - 1)
  {
    var s, s' := Piled(n, seen, k), Piled(n + 1, seen, k - 1);
    assert JobsOf([Waiting(NewJob(PLAIN, 0), false, seen)]) == [NewJob(PLAIN, 0)];
    assert Copies(n) + [NewJob(PLAIN, 0)] == Copies(n + 1);
    assert s.tickets[n := DONE] == s'.tickets;
  }

  lemma AtMostOneMore(text: Json -> string, steps: seq<Step>, e: Step, k: nat)
    requires AtMostOpen(text, EMPTY, steps, k)
    requires OpenEnqueues(Take(text, Run(text, EMPTY, steps), e).tickets) <= k
    ensures AtMostOpen(text, EMPTY, steps + [e], k)
  {
    RunOneMore(text, EMPTY, steps, e);
    assert (steps + [e])[..|steps|] == steps;
  }

  lemma OpenNext(s: State, t: Ticket)
    ensures OpenEnqueues(Next(s, t).tickets) == OpenEnqueues(s.tickets) + OpenOf(t)
  {
    assert Next(s, t).tickets[..|s.tickets|] == s.tickets;
  }

  lemma StepTo(text: Json -> string, steps: seq<Step>, s: State, e: Step, s': State, most: nat)
    requires Run(text, EMPTY, steps) == s && Take(text, s, e) == s'
    requires AtMostOpen(text, EMPTY, steps, most) && OpenEnqueues(s'.tickets) <= most
    ensures Run(text, EMPTY, steps + [e]) == s' && AtMostOpen(text, EMPTY, steps + [e], most)
  {
    RunOneMore(text, EMPTY, steps, e);
    AtMostOneMore(text, steps, e, most);
  }

  /** A request opens and counts. */
  lemma PileHalf(text: Json -> string, steps: seq<Step>, s: State, n: nat, k: nat, most: nat)
    requires s == Piled(n, n, k) && Run(text, EMPTY, steps) == s && n < MAX_PENDING_PER_TENANT
    requires AtMostOpen(text, EMPTY, steps, most) && OpenEnqueues(s.tickets) < most
    ensures var more := steps + [Open] + [Count(n + k, PLAIN)];
            Run(text, EMPTY, more) == Next(s, Ticket(0, [], Counting(PLAIN), true))
            && AtMostOpen(text, EMPTY, more, most)
  {
    var t0, t1 := Ticket(0, [], Idle, true), Ticket(0, [], Counting(PLAIN), true);
    OpenNext(s, t0);
    OpenNext(s, t1);
    StepTo(text, steps, s, Open, Next(s, t0), most);
    PileCounts(text, s, n, k);
    StepTo(text, steps + [Open], Next(s, t0), Count(n + k, PLAIN), Next(s, t1), most);
  }

  /** It looks. */
  lemma PileSees(text: Json -> string, half: seq<Step>, s: State, n: nat, k: nat, most: nat)
    requires s == Piled(n, n, k) && Run(text, EMPTY, half) == Next(s, Ticket(0, [], Counting(PLAIN), true))
    requires AtMostOpen(text, EMPTY, half, most) && OpenEnqueues(s.tickets) < most
    ensures var more := half + [Look(n + k)];
            Run(text, EMPTY, more) == Next(s, Ticket(0, [], Clear(PLAIN, n), true))
            && AtMostOpen(text, EMPTY, more, most)
  {
    var t1, t2 := Ticket(0, [], Counting(PLAIN), true), Ticket(0, [], Clear(PLAIN, n), true);
    OpenNext(s, t2);
    PileLooks(text, s, n, k);
    StepTo(text, half, Next(s, t1), Look(n + k), Next(s, t2), most);
  }

  /** It inserts. */
  lemma PileWrites(text: Json -> string, steps: seq<Step>, s: State, s': State, n: nat, k: nat, most: nat)
    requires s == Piled(n, n, k) && s' == Piled(n, n, k + 1)
    requires Run(text, EMPTY, steps) == Next(s, Ticket(0, [], Clear(PLAIN, n), true))
    requires AtMostOpen(text, EMPTY, steps, most) && OpenEnqueues(s'.tickets) <= most
    ensures Run(text, EMPTY, steps + [Store(n + k)]) == s' && AtMostOpen(text, EMPTY, steps + [Store(n + k)], most)
  {
    PileStores(text, s, n, k);
    StepTo(text, steps, Next(s, Ticket(0, [], Clear(PLAIN, n), true)), Store(n + k), s', most);
  }

  lemma PileFrom(text: Json -> string, steps: seq<Step>, s: State, s': State, n: nat, k: nat, most: nat)
    returns (more: seq<Step>)
    requires s == Piled(n, n, k) && s' == Piled(n, n, k + 1) && Run(text, EMPTY, steps) == s
    requires n < MAX_PENDING_PER_TENANT && AtMostOpen(text, EMPTY, steps, most)
    requires OpenEnqueues(s.tickets) < most && OpenEnqueues(s'.tickets) <= most
    ensures Run(text, EMPTY, more) == s' && AtMostOpen(text, EMPTY, more, most)
  {
    PileHalf(text, steps, s, n, k, most);
    var half := steps + [Open] + [Count(n + k, PLAIN)];
    PileSees(text, half, s, n, k, most);
    PileWrites(text, half + [Look(n + k)], s, s', n, k, most);
    more := half + [Look(n + k)] + [Store(n + k)];
  }

  /** Four more steps put one more request in waiting. */
  lemma PileSteps(text: Json -> string, steps: seq<Step>, n: nat, k: nat, most: nat) returns (more: seq<Step>)
    requires Run(text, EMPTY, steps) == Piled(n, n, k) && n < MAX_PENDING_PER_TENANT
    requires AtMostOpen(text, EMPTY, steps, most) && k < most
    ensures Run(text, EMPTY, more) == Piled(n, n, k + 1) && AtMostOpen(text, EMPTY, more, most)
  {
    PiledOpen(n, n, k);
    PiledOpen(n, n, k + 1);
    more := PileFrom(text, steps, Piled(n, n, k), Piled(n, n, k + 1), n, k, most);
  }

  lemma CommitStep(text: Json -> string, steps: seq<Step>, n: nat, seen: nat, k: nat, most: nat)
    returns (more: seq<Step>)
    requires Run(text, EMPTY, steps) == Piled(n, seen, k) && k > 0 && AtMostOpen(text, EMPTY, steps, most) && k <= most
    ensures Run(text, EMPTY, more) == Piled(n + 1, seen, k - 1) && AtMostOpen(text, EMPTY, more, most)
  {
    CommitFirst(text, n, seen, k);
    PiledOpen(n + 1, seen, k - 1);
    StepTo(text, steps, Piled(n, seen, k), CommitRequest(n), Piled(n + 1, seen, k - 1), most);
    more := steps + [CommitRequest(n)];
  }

  lemma SeenIsUnread(n: nat, seen: nat, seen': nat)
    ensures Piled(n, seen, 0) == Piled(n, seen', 0)
  {
    assert Piled(n, seen, 0).tickets == Piled(n, seen', 0).tickets;
  }

  /** One request after the other fills the table. */
  lemma {:induction false} Fill(text: Json -> string, n: nat, most: nat) returns (steps: seq<Step>)
    requires n < MAX_PENDING_PER_TENANT && most >= 1
    ensures Run(text, EMPTY, steps) == Piled(n, n, 0) && AtMostOpen(text, EMPTY, steps, most)
  {
    if n == 0 {
      steps := [];
      assert Piled(0, 0, 0).tickets == [] && Copies(0) == [];
    } else {
      steps := Fill(text, n - 1, most);
      steps := PileSteps(text, steps, n - 1, 0, most);
      steps := CommitStep(text, steps, n - 1, n - 1, 1, most);
      SeenIsUnread(n, n - 1, n);
    }
  }

  lemma {:induction false} Pile(text: Json -> string, n: nat, k: nat, most: nat) returns (steps: seq<Step>)
    requires n < MAX_PENDING_PER_TENANT && 1 <= most && k <= most
    ensures Run(text, EMPTY, steps) == Piled(n, n, k) && AtMostOpen(text, EMPTY, steps, most)
  {
    if k == 0 {
      steps := Fill(text, n, most);
    } else {
      steps := Pile(text, n, k - 1, most);
      steps := PileSteps(text, steps, n, k - 1, most);
    }
  }

  lemma {:induction false} CommitPile(text: Json -> string, k: nat, j: nat) returns (steps: seq<Step>)
    requires k >= 1 && j <= k
    ensures Run(text, EMPTY, steps) == Piled(MAX_PENDING_PER_TENANT - 1 + j, MAX_PENDING_PER_TENANT - 1, k - j)
    ensures AtMostOpen(text, EMPTY, steps, k)
  {
    if j == 0 {
      steps := Pile(text, MAX_PENDING_PER_TENANT - 1, k, k);
    } else {
      steps := CommitPile(text, k, j - 1);
      steps := CommitStep(text, steps, MAX_PENDING_PER_TENANT - 1 + j - 1, MAX_PENDING_PER_TENANT - 1, k - j + 1, k);
    }
  }

  lemma PiledJobs(n: nat, seen: nat, k: nat)
    ensures Piled(n, seen, k).jobs == Copies(n)
  {
  }

  lemma CommitAll(text: Json -> string, k: nat) returns (steps: seq<Step>, jobs: seq<Job>)
    ensures Run(text, EMPTY, steps).jobs == jobs && InFlight(jobs) == MAX_PENDING_PER_TENANT + k
    ensures AtMostOpen(text, EMPTY, steps, k + 1)
  {
    jobs := Copies(MAX_PENDING_PER_TENANT + k);
    steps := CommitPile(text, k + 1, k + 1);
    PiledJobs(MAX_PENDING_PER_TENANT + k, MAX_PENDING_PER_TENANT - 1, 0);
    CopiesInFlight(MAX_PENDING_PER_TENANT + k);
  }

  ghost predicate Reaches(text: Json -> string, steps: seq<Step>, k: nat) {
    AllMissAtMost(text, EMPTY, steps, k) && InFlight(Run(text, EMPTY, steps).jobs) == MAX_PENDING_PER_TENANT + k
  }

  lemma ReachesBy(text: Json -> string, steps: seq<Step>, jobs: seq<Job>, k: nat)
    requires AllMissAtMost(text, EMPTY, steps, k) && Run(text, EMPTY, steps).jobs == jobs
    requires InFlight(jobs) == MAX_PENDING_PER_TENANT + k
    ensures Reaches(text, steps, k)
  {
  }

  lemma ReachingRun(text: Json -> string, k: nat) returns (steps: seq<Step>)
    ensures Reaches(text, steps, k)
  {
    var jobs;
    steps, jobs := CommitAll(text, k);
    FewOpenMissFew(text, steps, k + 1);
    ReachesBy(text, steps, jobs, k);
  }

  /** The bound is reached for every k: one enqueue missed by a count makes it 501. */
  lemma InFlightBoundIsReached(text: Json -> string, k: nat)
    ensures exists steps :: Reaches(text, steps, k)
  {
    var steps := ReachingRun(text, k);
  }

  // ---------------------------------------------------------------------------------------------
  // One pending job per reference
  // ---------------------------------------------------------------------------------------------

  predicate Repeats(text: Json -> string, a: Job, b: Job) {
    && a.state.Pending? && b.state.Pending? && a.kind == b.kind
    && RefOf(text, a.payload).Some? && RefOf(text, a.payload) == RefOf(text, b.payload)
  }

  /** No two pending jobs of one kind bear the same reference. */
  predicate Unrepeated(text: Json -> string, jobs: seq<Job>) {
    forall i, j :: 0 <= i < j < |jobs| ==> !Repeats(text, jobs[i], jobs[j])
  }

  /** The caller put a reference into the payload on its own, and a pending job has it. */
  predicate Smuggled(text: Json -> string, jobs: seq<Job>, r: Request) {
    && r.debounce.None? && RefOf(text, r.payload).Some?
    && Existing(text, jobs, r.kind, RefOf(text, r.payload).value).Some?
    && InFlight(jobs) < MAX_PENDING_PER_TENANT
  }

  lemma NewRef(text: Json -> string, r: Request, now: int)
    ensures RefOf(text, NewJob(r, now).payload)
         == if r.debounce.Some? then (if r.payload.Obj? then r.debounce else None) else RefOf(text, r.payload)
  {
  }

  /** Enqueueing repeats a pending reference exactly if the caller smuggled it in. */
  lemma EnqueueRepeatsExactlyIf(text: Json -> string, jobs: seq<Job>, r: Request, now: int)
    requires Unrepeated(text, jobs)
    ensures Unrepeated(text, Enqueued(text, jobs, r, now)) <==> !Smuggled(text, jobs, r)
  {
    var d := Decide(text, jobs, r, now);
    NewRef(text, r, now);
    if d.Insert? {
      var all := jobs + [d.job];
      if Smuggled(text, jobs, r) {
        var i := Existing(text, jobs, r.kind, RefOf(text, r.payload).value).value;
        assert all[i] == jobs[i] && all[|jobs|] == d.job;
      } else {
        var reff := RefOf(text, d.job.payload);
        assert reff.Some? ==> Existing(text, jobs, r.kind, reff.value).None?;
        assert reff.Some? ==> forall i :: 0 <= i < |jobs| ==> !Same(text, jobs[i], r.kind, reff.value);
      }
    }
  }

  /** A repeated request is answered with the job it found, unless its payload cannot carry the reference. */
  lemma RepeatCollapsesExactlyIf(text: Json -> string, jobs: seq<Job>, r: Request, now: int, later: int)
    requires r.debounce.Some? && Decide(text, jobs, r, now).Insert?
    requires InFlight(Enqueued(text, jobs, r, now)) < MAX_PENDING_PER_TENANT
    ensures Decide(text, Enqueued(text, jobs, r, now), r, later) == Reuse(|jobs|) <==> r.payload.Obj?
    ensures !r.payload.Obj? ==> Decide(text, Enqueued(text, jobs, r, now), r, later).Insert?
  {
    var job := NewJob(r, now);
    var all := jobs + [job];
    assert all[..|jobs|] == jobs;
    NewRef(text, r, now);
    assert Existing(text, all[..|all| - 1], r.kind, r.debounce.value).None?;
  }

  predicate Meets(text: Json -> string, jobs: seq<Job>, start: nat, j: Job) {
    exists i :: start <= i < |jobs| && Repeats(text, jobs[i], j)
  }

  /** Some debounced row meets a job that was committed after its look: another enqueue of the reference was
      open between that look and this commit, and its job is still pending. */
  predicate Overlapped(text: Json -> string, jobs: seq<Job>, rows: seq<Waiting>) {
    exists b :: 0 <= b < |rows| && rows[b].debounced && Meets(text, jobs, rows[b].seen, rows[b].job)
  }

  /** Some row was not looked for, though its payload bears a reference, and meets a pending job. */
  predicate SmuggledIn(text: Json -> string, jobs: seq<Job>, rows: seq<Waiting>) {
    exists b :: 0 <= b < |rows| && !rows[b].debounced
                && (Meets(text, jobs, 0, rows[b].job) || Meets(text, JobsOf(rows[..b]), 0, rows[b].job))
  }

  /** A debounced row repeats nothing of what its look saw. */
  predicate LookedFor(text: Json -> string, jobs: seq<Job>, own: seq<Waiting>, seen: nat, j: Job) {
    && seen <= |jobs|
    && (forall i :: 0 <= i < seen ==> !Repeats(text, jobs[i], j))
    && (forall a :: 0 <= a < |own| ==> !Repeats(text, own[a].job, j))
  }

  predicate TicketLooked(text: Json -> string, jobs: seq<Job>, t: Ticket) {
    && (forall b :: 0 <= b < |t.rows| && t.rows[b].debounced ==>
          LookedFor(text, jobs, t.rows[..b], t.rows[b].seen, t.rows[b].job))
    && (t.phase.Clear? && t.phase.request.debounce.Some? ==>
          LookedFor(text, jobs, t.rows, t.phase.seen, NewJob(t.phase.request, t.began)))
  }

  predicate Looked(text: Json -> string, s: State) {
    forall t :: 0 <= t < |s.tickets| ==> TicketLooked(text, s.jobs, s.tickets[t])
  }

  /** Rows keep their kind and payload and never become pending again. */
  predicate Fades(jobs: seq<Job>, jobs': seq<Job>) {
    |jobs| <= |jobs'| && forall i :: 0 <= i < |jobs| ==>
      jobs'[i].kind == jobs[i].kind && jobs'[i].payload == jobs[i].payload
      && (jobs'[i].state.Pending? ==> jobs[i].state.Pending?)
  }

  lemma TicketStaysLooked(text: Json -> string, jobs: seq<Job>, jobs': seq<Job>, t: Ticket)
    requires TicketLooked(text, jobs, t) && Fades(jobs, jobs')
    ensures TicketLooked(text, jobs', t)
  {
    forall b | 0 <= b < |t.rows| && t.rows[b].debounced
      ensures LookedFor(text, jobs', t.rows[..b], t.rows[b].seen, t.rows[b].job)
    {
      assert LookedFor(text, jobs, t.rows[..b], t.rows[b].seen, t.rows[b].job);
    }
  }

  lemma TakeFades(text: Json -> string, s: State, e: Step)
    requires Sound(s)
    ensures Fades(s.jobs, Take(text, s, e).jobs)
  {
    if e.Reclaim? {
      ReclaimIsIdle(s.jobs, s.clock);
    }
  }

  /** What the select does not find, the new row does not repeat. */
  lemma LookIsLookedFor(text: Json -> string, jobs: seq<Job>, t: Ticket)
    requires t.phase.Counting? && TicketLooked(text, jobs, t)
    ensures TicketLooked(text, jobs, LookedTicket(text, jobs, t))
  {
    var r := t.phase.request;
    var all, j := jobs + JobsOf(t.rows), NewJob(r, t.began);
    NewRef(text, r, t.began);
    if r.debounce.Some? && Existing(text, all, r.kind, r.debounce.value).None? {
      forall i | 0 <= i < |all|
        ensures !Repeats(text, all[i], j)
      {
        assert !Same(text, all[i], r.kind, r.debounce.value);
      }
      assert forall i :: 0 <= i < |jobs| ==> all[i] == jobs[i];
      assert forall a :: 0 <= a < |t.rows| ==> all[|jobs| + a] == t.rows[a].job;
    }
  }

  lemma InsertIsLookedFor(text: Json -> string, jobs: seq<Job>, t: Ticket)
    requires t.phase.Clear? && TicketLooked(text, jobs, t)
    ensures TicketLooked(text, jobs, InsertedTicket(t))
  {
    var t' := InsertedTicket(t);
    forall b | 0 <= b < |t'.rows| && t'.rows[b].debounced
      ensures LookedFor(text, jobs, t'.rows[..b], t'.rows[b].seen, t'.rows[b].job)
    {
      if b < |t.rows| {
        assert t'.rows[..b] == t.rows[..b] && t'.rows[b] == t.rows[b];
      } else {
        assert t'.rows[..b] == t.rows;
      }
    }
  }

  lemma TakeStaysLooked(text: Json -> string, s: State, e: Step)
    requires Sound(s) && Looked(text, s)
    ensures Looked(text, Take(text, s, e))
  {
    var s' := Take(text, s, e);
    TakeFades(text, s, e);
    forall t | 0 <= t < |s'.tickets|
      ensures TicketLooked(text, s'.jobs, s'.tickets[t])
    {
      if t < |s.tickets| {
        assert TicketLooked(text, s.jobs, s.tickets[t]);
        if e.Look? && e.ticket == t && IsCounting(s, t) {
          LookIsLookedFor(text, s.jobs, s.tickets[t]);
        } else if e.Store? && e.ticket == t && IsClear(s, t) {
          InsertIsLookedFor(text, s.jobs, s.tickets[t]);
        } else {
          TicketStaysLooked(text, s.jobs, s'.jobs, s.tickets[t]);
        }
      }
    }
  }

  lemma {:induction false} RunStaysLooked(text: Json -> string, steps: seq<Step>)
    ensures Looked(text, Run(text, EMPTY, steps))
  {
    if steps != [] {
      RunStaysLooked(text, steps[..|steps| - 1]);
      RunKeeps(text, EMPTY, steps[..|steps| - 1]);
      TakeStaysLooked(text, Run(text, EMPTY, steps[..|steps| - 1]), steps[|steps| - 1]);
    }
  }

  lemma RepeatShows(text: Json -> string, jobs: seq<Job>, rows: seq<Waiting>, start: nat, b: nat)
    requires b < |rows| && (Meets(text, jobs, start, rows[b].job) || Meets(text, JobsOf(rows[..b]), 0, rows[b].job))
    ensures !Unrepeated(text, jobs + JobsOf(rows))
  {
    var all := jobs + JobsOf(rows);
    assert all[|jobs| + b] == rows[b].job;
    if Meets(text, jobs, start, rows[b].job) {
      var i :| start <= i < |jobs| && Repeats(text, jobs[i], rows[b].job);
      assert Repeats(text, all[i], all[|jobs| + b]);
    } else {
      var a :| 0 <= a < |JobsOf(rows[..b])| && Repeats(text, JobsOf(rows[..b])[a], rows[b].job);
      assert Repeats(text, all[|jobs| + a], all[|jobs| + b]);
    }
  }

  lemma RowRepeatsNothing(text: Json -> string, jobs: seq<Job>, t: Ticket, b: nat, i: nat)
    requires TicketLooked(text, jobs, t) && b < |t.rows| && i < |jobs| + b
    requires !Overlapped(text, jobs, t.rows) && !SmuggledIn(text, jobs, t.rows)
    ensures !Repeats(text, (jobs + JobsOf(t.rows))[i], t.rows[b].job)
  {
    var all, row := jobs + JobsOf(t.rows), t.rows[b];
    if i < |jobs| {
      assert all[i] == jobs[i];
      if row.debounced {
        assert LookedFor(text, jobs, t.rows[..b], row.seen, row.job);
        assert !Meets(text, jobs, row.seen, row.job);
      } else {
        assert !Meets(text, jobs, 0, row.job);
      }
    } else {
      var a := i - |jobs|;
      assert all[i] == t.rows[a].job == t.rows[..b][a].job == JobsOf(t.rows[..b])[a];
      if row.debounced {
        assert LookedFor(text, jobs, t.rows[..b], row.seen, row.job);
      } else {
        assert !Meets(text, JobsOf(t.rows[..b]), 0, row.job);
      }
    }
  }

  /** A commit repeats a reference exactly if an enqueue of the same reference overlapped it, or its caller
      smuggled the reference in. */
  lemma CommitRepeatsExactlyIf(text: Json -> string, jobs: seq<Job>, t: Ticket)
    requires TicketLooked(text, jobs, t) && Unrepeated(text, jobs)
    ensures !Unrepeated(text, jobs + JobsOf(t.rows))
            <==> Overlapped(text, jobs, t.rows) || SmuggledIn(text, jobs, t.rows)
  {
    var all := jobs + JobsOf(t.rows);
    if Overlapped(text, jobs, t.rows) {
      var b :| 0 <= b < |t.rows| && t.rows[b].debounced && Meets(text, jobs, t.rows[b].seen, t.rows[b].job);
      RepeatShows(text, jobs, t.rows, t.rows[b].seen, b);
    } else if SmuggledIn(text, jobs, t.rows) {
      var b :| 0 <= b < |t.rows| && !t.rows[b].debounced
               && (Meets(text, jobs, 0, t.rows[b].job) || Meets(text, JobsOf(t.rows[..b]), 0, t.rows[b].job));
      RepeatShows(text, jobs, t.rows, 0, b);
    } else {
      forall i, j | 0 <= i < j < |all|
        ensures !Repeats(text, all[i], all[j])
      {
        if j < |jobs| {
          assert all[i] == jobs[i] && all[j] == jobs[j];
        } else {
          assert all[j] == t.rows[j - |jobs|].job;
          RowRepeatsNothing(text, jobs, t, j - |jobs|, i);
        }
      }
    }
  }

  /** The step does not commit a row that meets a pending job of its reference. */
  predicate Apart(text: Json -> string, s: State, e: Step) {
    e.CommitRequest? && IsIdle(s, e.ticket) ==>
      !Overlapped(text, s.jobs, s.tickets[e.ticket].rows) && !SmuggledIn(text, s.jobs, s.tickets[e.ticket].rows)
  }

  predicate AllApart(text: Json -> string, s: State, steps: seq<Step>) {
    steps == [] || (AllApart(text, s, steps[..|steps| - 1])
                    && Apart(text, Run(text, s, steps[..|steps| - 1]), steps[|steps| - 1]))
  }

  /** No reference is repeated at any moment of the run. */
  predicate NeverRepeated(text: Json -> string, s: State, steps: seq<Step>) {
    Unrepeated(text, Run(text, s, steps).jobs) && (steps != [] ==> NeverRepeated(text, s, steps[..|steps| - 1]))
  }

  lemma FadedStaysUnrepeated(text: Json -> string, jobs: seq<Job>, jobs': seq<Job>)
    requires Unrepeated(text, jobs) && Fades(jobs, jobs') && |jobs'| == |jobs|
    ensures Unrepeated(text, jobs')
  {
    forall i, j | 0 <= i < j < |jobs'|
      ensures !Repeats(text, jobs'[i], jobs'[j])
    {
      assert !Repeats(text, jobs[i], jobs[j]);
    }
  }

  lemma TakeRepeatsExactlyIf(text: Json -> string, s: State, e: Step)
    requires Sound(s) && Looked(text, s) && Unrepeated(text, s.jobs)
    ensures Unrepeated(text, Take(text, s, e).jobs) <==> Apart(text, s, e)
  {
    if e.CommitRequest? && IsIdle(s, e.ticket) {
      assert TicketLooked(text, s.jobs, s.tickets[e.ticket]);
      CommitRepeatsExactlyIf(text, s.jobs, s.tickets[e.ticket]);
    } else {
      TakeFades(text, s, e);
      assert |Take(text, s, e).jobs| == |s.jobs|;
      FadedStaysUnrepeated(text, s.jobs, Take(text, s, e).jobs);
    }
  }

  /** At most one job per kind and reference is pending at every moment of a run exactly if no enqueue of the
      run is overlapped by another of the same reference and none smuggles a reference in. */
  lemma {:induction false} OnePendingPerReference(text: Json -> string, steps: seq<Step>)
    ensures NeverRepeated(text, EMPTY, steps) <==> AllApart(text, EMPTY, steps)
  {
    if steps != [] {
      var before := steps[..|steps| - 1];
      OnePendingPerReference(text, before);
      if NeverRepeated(text, EMPTY, before) {
        RunKeeps(text, EMPTY, before);
        RunStaysLooked(text, before);
        NeverRepeatedNow(text, before);
        TakeRepeatsExactlyIf(text, Run(text, EMPTY, before), steps[|steps| - 1]);
      }
    }
  }

  lemma NeverRepeatedNow(text: Json -> string, steps: seq<Step>)
    requires NeverRepeated(text, EMPTY, steps)
    ensures Unrepeated(text, Run(text, EMPTY, steps).jobs)
  {
  }

  // ---------------------------------------------------------------------------------------------
  // Where the guarantees end
  // ---------------------------------------------------------------------------------------------

  /** Were a lease committed on its own, reclaiming it could repeat a reference: a new job may have taken
      its place meanwhile. */
  lemma ReclaimingCanRepeat(text: Json -> string, r: Request, now: int)
    requires r.debounce.Some? && r.payload.Obj?
    ensures var leased := [Claimed(NewJob(r, now), now)];
            var jobs := Enqueued(text, leased, r, now);
            Unrepeated(text, jobs) && !Unrepeated(text, AllReclaimed(jobs, now + LEASE_MS + 1))
  {
    var job := NewJob(r, now);
    var leased := [Claimed(job, now)];
    NewRef(text, r, now);
    assert leased[..0] == [];
    assert InFlight(leased) == 1;
    assert Existing(text, leased, r.kind, r.debounce.value).None?;
    var jobs := leased + [job];
    var after := AllReclaimed(jobs, now + LEASE_MS + 1);
    assert after[0].state.Pending? && after[1] == job;
  }

  /** A worker that dies gives its job back untouched: its run is not counted, so nothing bounds how often a
      handler that kills its worker is started. */
  lemma DyingIsNotCounted(text: Json -> string, s: State, w: nat, i: nat)
    requires w !in s.open
    ensures Take(text, Take(text, s, Begin(w, i)), Rollback(w)) == s
  {
    var s' := Take(text, s, Begin(w, i));
    assert s'.open - {w} == s.open;
  }
}
