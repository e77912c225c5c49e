/** One provider's rows under any number of turns at once.

    Every turn of every call loads the rows into a pool of its own, may mark the credential it used, and may
    write its pool back; between these, other turns do the same. */
module DispatchRaces {
  import opened Common
  import opened Pool
  import opened Resolver
  import opened DispatchSafety

  /** The rows, the time, and the pools that have been loaded and may still be written back. */
  datatype State = State(rows: seq<Row>, clock: int, pools: map<nat, seq<Cred>>)

  /** A write-back takes the server's time before it starts, and the database's when it does. */
  datatype Step =
    | LoadPool(turn: nat)
    | MarkEntry(turn: nat, at: nat, status: Status)
    | Write(turn: nat, nowMs: int, dbNow: int)
    | Drop(turn: nat)
    | Wait(ms: nat)

  /** A turn marks only what it found ready, and heals only what was cooling. */
  predicate Markable(pool: seq<Cred>, at: nat, status: Status, clock: int) {
    at < |pool| && Ready(pool[at].status, clock) && (status.Healthy? ==> pool[at].status.Cooling?)
  }

  predicate Writes(s: State, e: Step) { e.Write? && e.turn in s.pools && e.nowMs <= e.dbNow <= s.clock }

  /** A step that cannot be taken changes nothing. */
  function Take(s: State, e: Step): State {
    match e
    case LoadPool(t) => s.(pools := s.pools[t := Load(s.rows)])
    case MarkEntry(t, at, status) =>
      if t in s.pools && Markable(s.pools[t], at, status, s.clock)
      then s.(pools := s.pools[t := Marked(s.pools[t], s.pools[t][at].hint, status)])
      else s
    case Write(t, nowMs, dbNow) =>
      if Writes(s, e) then s.(rows := WrittenBack(s.rows, s.pools[t], nowMs, dbNow), pools := s.pools - {t}) else s
    case Drop(t) => s.(pools := s.pools - {t})
    case Wait(ms) => s.(clock := s.clock + ms)
  }

  function Run(s: State, steps: seq<Step>): State {
    if steps == [] then s else Take(Run(s, steps[..|steps| - 1]), steps[|steps| - 1])
  }

  predicate Matches(rows: seq<Row>, pool: seq<Cred>) {
    |pool| == |rows| && forall k :: 0 <= k < |rows| ==> pool[k].hint == rows[k].hint
  }

  /** Hints are distinct, and the pools have an entry for each row. */
  predicate Sound(s: State) { Distinct(s.rows) && forall t :: t in s.pools ==> Matches(s.rows, s.pools[t]) }

  lemma FoundAt(rows: seq<Row>, pool: seq<Cred>, i: nat)
    requires Distinct(rows) && Matches(rows, pool) && i < |rows|
    ensures Find(pool, rows[i].hint) == Some(i)
  {
    assert pool[i].hint == rows[i].hint;
  }

  lemma MarkedEntry(rows: seq<Row>, pool: seq<Cred>, at: nat, status: Status)
    requires Distinct(rows) && Matches(rows, pool) && at < |pool|
    ensures Marked(pool, pool[at].hint, status) == pool[at := pool[at].(status := status)]
    ensures Matches(rows, Marked(pool, pool[at].hint, status))
  {
    FoundAt(rows, pool, at);
  }

  lemma TakeKeeps(s: State, e: Step)
    requires Sound(s)
    ensures Sound(Take(s, e)) && |Take(s, e).rows| == |s.rows| && s.clock <= Take(s, e).clock
  {
    match e
    case MarkEntry(t, at, status) =>
      if t in s.pools && at < |s.pools[t]| {
        MarkedEntry(s.rows, s.pools[t], at, status);
      }
    case Write(t, nowMs, dbNow) =>
      if t in s.pools {
        KeepsKeys(s.rows, s.pools[t], nowMs, dbNow);
      }
    case _ =>
  }

  lemma {:induction false} RunKeeps(s: State, steps: seq<Step>)
    requires Sound(s)
    ensures Sound(Run(s, steps)) && |Run(s, steps).rows| == |s.rows| && s.clock <= Run(s, steps).clock
  {
    if steps != [] {
      RunKeeps(s, steps[..|steps| - 1]);
      TakeKeeps(Run(s, steps[..|steps| - 1]), steps[|steps| - 1]);
    }
  }

  /** Loading, marking and writing with nothing between is the write-back of a turn that is alone. */
  lemma AloneIsOneTurn(s: State, t: nat, k: nat, status: Status)
    requires Sound(s) && Writable(s.rows, k, s.clock, s.clock, status)
    ensures Take(Take(Take(s, LoadPool(t)), MarkEntry(t, k, status)), Write(t, s.clock, s.clock)).rows
         == After(s.rows, k, status, s.clock, s.clock)
  {
    assert Load(s.rows)[k] == EntryOf(s.rows[k]);
  }

  // ---------------------------------------------------------------------------------------------
  // Why a write-back is one step
  // ---------------------------------------------------------------------------------------------

  /** A write-back on its way: the rows as committed, and those it has updated. These are locked until it
      commits, and nobody sees them before. */
  datatype Updating = Updating(rows: seq<Row>, held: map<nat, Row>)

  /** One UPDATE of the write-back, or a commit of somebody else's. */
  datatype Writing = Update(i: nat) | Elsewhere(rows: seq<Row>)

  /** Others change no locked row, and no row's hint. */
  predicate Allowed(u: Updating, rows: seq<Row>) {
    |rows| == |u.rows| && forall i :: 0 <= i < |rows| ==>
      rows[i].hint == u.rows[i].hint && (i in u.held ==> rows[i] == u.rows[i])
  }

  function Progress(u: Updating, pool: seq<Cred>, nowMs: int, dbNow: int, e: Writing): Updating {
    match e
    case Update(i) =>
      if i < |u.rows| && i !in u.held then u.(held := u.held[i := WriteBack(u.rows[i], pool, nowMs, dbNow)]) else u
    case Elsewhere(rows) => if Allowed(u, rows) then u.(rows := rows) else u
  }

  function Updated(u: Updating, pool: seq<Cred>, nowMs: int, dbNow: int, es: seq<Writing>): Updating {
    if es == [] then u else Progress(Updated(u, pool, nowMs, dbNow, es[..|es| - 1]), pool, nowMs, dbNow, es[|es| - 1])
  }

  function Committed(u: Updating): seq<Row> {
    seq(|u.rows|, i requires 0 <= i < |u.rows| => if i in u.held then u.held[i] else u.rows[i])
  }

  predicate HeldRight(u: Updating, pool: seq<Cred>, nowMs: int, dbNow: int) {
    forall i :: i in u.held ==> i < |u.rows| && u.held[i] == WriteBack(u.rows[i], pool, nowMs, dbNow)
  }

  lemma {:induction false} UpdatesStayRight(u: Updating, pool: seq<Cred>, nowMs: int, dbNow: int, es: seq<Writing>)
    requires HeldRight(u, pool, nowMs, dbNow)
    ensures HeldRight(Updated(u, pool, nowMs, dbNow, es), pool, nowMs, dbNow)
  {
    if es != [] {
      var before := Updated(u, pool, nowMs, dbNow, es[..|es| - 1]);
      UpdatesStayRight(u, pool, nowMs, dbNow, es[..|es| - 1]);
      assert HeldRight(Progress(before, pool, nowMs, dbNow, es[|es| - 1]), pool, nowMs, dbNow);
    }
  }

  predicate IsUpdated(u: Updating, pool: seq<Cred>, i: nat)
    requires i < |u.rows|
  {
    Find(pool, u.rows[i].hint).Some? ==> i in u.held
  }

  predicate AllUpdated(u: Updating, pool: seq<Cred>) { forall i :: 0 <= i < |u.rows| ==> IsUpdated(u, pool, i) }

  /** The updates of a write-back go row by row while others commit; but when it commits, having updated every
      row that its pool knows, the rows are those of one step taken at that moment. */
  lemma RowByRowIsOneStep(rows: seq<Row>, pool: seq<Cred>, nowMs: int, dbNow: int, es: seq<Writing>)
    requires AllUpdated(Updated(Updating(rows, map[]), pool, nowMs, dbNow, es), pool)
    ensures var u := Updated(Updating(rows, map[]), pool, nowMs, dbNow, es);
            Committed(u) == WrittenBack(u.rows, pool, nowMs, dbNow)
  {
    var u := Updated(Updating(rows, map[]), pool, nowMs, dbNow, es);
    UpdatesStayRight(Updating(rows, map[]), pool, nowMs, dbNow, es);
    forall i | 0 <= i < |u.rows|
      ensures Committed(u)[i] == WriteBack(u.rows[i], pool, nowMs, dbNow)
    {
      if i in u.held {
        assert Committed(u)[i] == u.held[i];
      } else {
        assert Committed(u)[i] == u.rows[i];
        assert IsUpdated(u, pool, i);
      }
    }
  }

  // ---------------------------------------------------------------------------------------------
  // One write-back, whatever the pool holds
  // ---------------------------------------------------------------------------------------------

  /** What the pool makes of a row, given what it held of it when it was loaded or marked. */
  lemma WriteBackAt(rows: seq<Row>, pool: seq<Cred>, nowMs: int, dbNow: int, i: nat)
    requires i < |rows|
    ensures |WrittenBack(rows, pool, nowMs, dbNow)| == |rows|
    ensures var at, after := Find(pool, rows[i].hint), StatusFromDb(WrittenBack(rows, pool, nowMs, dbNow)[i]);
            match at
            case None => after == StatusFromDb(rows[i])
            case Some(k) =>
              match pool[k].status
              case Dead => after.Dead?
              case Cooling(v) => after == Cooling(dbNow + Max(v - nowMs, 0))
              case Healthy => after == if rows[i].status == DbDead then Dead else Healthy
  {
    assert WrittenBack(rows, pool, nowMs, dbNow)[i] == WriteBack(rows[i], pool, nowMs, dbNow);
  }

  /** Whatever older rows the pool was loaded from, and whatever was marked in it: a row is set aside until
      `u` after the write-back exactly if the pool held it dead, or cooling for that long, or held it healthy
      while the row had died. */
  lemma WriteBackHoldsExactlyIf(rows: seq<Row>, pool: seq<Cred>, nowMs: int, dbNow: int, i: nat, k: nat, u: int,
                                clock: int)
    requires i < |rows| && Find(pool, rows[i].hint) == Some(k) && dbNow <= clock
    ensures var held := pool[k].status;
            Held(StatusFromDb(WrittenBack(rows, pool, nowMs, dbNow)[i]), u, clock)
            <==> clock >= u || held.Dead? || (held.Cooling? && dbNow + Max(held.until - nowMs, 0) >= u)
                 || (held.Healthy? && rows[i].status == DbDead)
  {
    WriteBackAt(rows, pool, nowMs, dbNow, i);
  }

  /** A row is dead after the write-back exactly if the pool held it dead, or healthy while it had died. The
      update that stores a cooldown does not look at what it overwrites. */
  lemma WriteBackIsDeadExactlyIf(rows: seq<Row>, pool: seq<Cred>, nowMs: int, dbNow: int, i: nat, k: nat)
    requires i < |rows| && Find(pool, rows[i].hint) == Some(k)
    ensures StatusFromDb(WrittenBack(rows, pool, nowMs, dbNow)[i]).Dead?
            <==> pool[k].status.Dead? || (pool[k].status.Healthy? && rows[i].status == DbDead)
  {
    WriteBackAt(rows, pool, nowMs, dbNow, i);
  }

  // ---------------------------------------------------------------------------------------------
  // A penalty over whole runs
  // ---------------------------------------------------------------------------------------------

  predicate RowHeld(s: State, i: nat, u: int)
    requires i < |s.rows|
  {
    Held(StatusFromDb(s.rows[i]), u, s.clock)
  }

  /** The step writes back a pool that does not hold row i for long enough. */
  predicate Loses(s: State, e: Step, i: nat, u: int)
    requires Sound(s) && i < |s.rows|
  {
    && Writes(s, e) && s.clock < u
    && match s.pools[e.turn][i].status
       case Dead => false
       case Cooling(v) => e.dbNow + Max(v - e.nowMs, 0) < u
       case Healthy => s.rows[i].status != DbDead
  }

  lemma TakeHoldsExactlyIf(s: State, e: Step, i: nat, u: int)
    requires Sound(s) && i < |s.rows| && RowHeld(s, i, u)
    ensures |Take(s, e).rows| == |s.rows| && (RowHeld(Take(s, e), i, u) <==> !Loses(s, e, i, u))
  {
    TakeKeeps(s, e);
    if Writes(s, e) {
      var pool := s.pools[e.turn];
      FoundAt(s.rows, pool, i);
      WriteBackHoldsExactlyIf(s.rows, pool, e.nowMs, e.dbNow, i, i, u, s.clock);
    }
  }

  predicate AlwaysHeld(s: State, steps: seq<Step>, i: nat, u: int)
    requires Sound(s) && i < |s.rows|
  {
    RunKeeps(s, steps);
    RowHeld(Run(s, steps), i, u) && (steps != [] ==> AlwaysHeld(s, steps[..|steps| - 1], i, u))
  }

  predicate NeverLoses(s: State, steps: seq<Step>, i: nat, u: int)
    requires Sound(s) && i < |s.rows|
  {
    steps == [] || (
      RunKeeps(s, steps[..|steps| - 1]);
      NeverLoses(s, steps[..|steps| - 1], i, u) && !Loses(Run(s, steps[..|steps| - 1]), steps[|steps| - 1], i, u))
  }

  lemma HeldNow(s: State, steps: seq<Step>, i: nat, u: int)
    requires Sound(s) && i < |s.rows| && AlwaysHeld(s, steps, i, u)
    ensures |Run(s, steps).rows| == |s.rows| && RowHeld(Run(s, steps), i, u)
  {
    RunKeeps(s, steps);
  }

  /** In any run, a credential set aside until `u` stays so at every moment exactly if no pool is written
      back that holds it for less. */
  lemma {:induction false} PenaltyLastsExactlyIf(s: State, steps: seq<Step>, i: nat, u: int)
    requires Sound(s) && i < |s.rows| && RowHeld(s, i, u)
    ensures AlwaysHeld(s, steps, i, u) <==> NeverLoses(s, steps, i, u)
  {
    if steps != [] {
      var before := steps[..|steps| - 1];
      RunKeeps(s, before);
      PenaltyLastsExactlyIf(s, before, i, u);
      if AlwaysHeld(s, before, i, u) {
        HeldNow(s, before, i, u);
        TakeHoldsExactlyIf(Run(s, before), steps[|steps| - 1], i, u);
      }
    }
  }

  /** Every pool that may still be written back knows of the penalty. */
  predicate AllAware(s: State, i: nat, u: int)
    requires Sound(s) && i < |s.rows|
  {
    forall t :: t in s.pools ==> Held(s.pools[t][i].status, u, s.clock)
  }

  lemma TakeStaysAware(s: State, e: Step, i: nat, u: int)
    requires Sound(s) && i < |s.rows| && RowHeld(s, i, u) && AllAware(s, i, u)
    ensures Sound(Take(s, e)) && i < |Take(s, e).rows| && RowHeld(Take(s, e), i, u) && AllAware(Take(s, e), i, u)
  {
    TakeKeeps(s, e);
    TakeHoldsExactlyIf(s, e, i, u);
    if e.MarkEntry? && e.turn in s.pools && Markable(s.pools[e.turn], e.at, e.status, s.clock) {
      MarkedEntry(s.rows, s.pools[e.turn], e.at, e.status);
    }
  }

  lemma {:induction false} AwareRunsHold(s: State, steps: seq<Step>, i: nat, u: int)
    requires Sound(s) && i < |s.rows| && RowHeld(s, i, u) && AllAware(s, i, u)
    ensures Sound(Run(s, steps)) && i < |Run(s, steps).rows| && RowHeld(Run(s, steps), i, u)
    ensures AllAware(Run(s, steps), i, u)
  {
    if steps != [] {
      AwareRunsHold(s, steps[..|steps| - 1], i, u);
      TakeStaysAware(Run(s, steps[..|steps| - 1]), steps[|steps| - 1], i, u);
    }
  }

  /** Row i is set aside until `u` whatever happens next. */
  ghost predicate HeldForever(s: State, i: nat, u: int)
    requires Sound(s) && i < |s.rows|
  {
    forall steps :: HeldAfter(s, steps, i, u)
  }

  predicate HeldAfter(s: State, steps: seq<Step>, i: nat, u: int)
    requires Sound(s) && i < |s.rows|
  {
    RunKeeps(s, steps);
    RowHeld(Run(s, steps), i, u)
  }

  lemma UnawareLoses(s: State, t: nat, i: nat, u: int)
    requires Sound(s) && i < |s.rows| && RowHeld(s, i, u) && s.rows[i].status != DbDead
    requires t in s.pools && !Held(s.pools[t][i].status, u, s.clock)
    ensures !HeldAfter(s, [Write(t, s.clock, s.clock)], i, u)
  {
    var e := Write(t, s.clock, s.clock);
    TakeHoldsExactlyIf(s, e, i, u);
    assert Loses(s, e, i, u);
    assert [e][..0] == [];
    assert Run(s, [e]) == Take(Run(s, [e][..0]), e) == Take(s, e);
  }

  /** A cooldown is sure to be served exactly if every turn in flight loaded its pool after it was stored, or
      otherwise holds the credential for as long. */
  lemma PenaltyIsSafeExactlyIf(s: State, i: nat, u: int)
    requires Sound(s) && i < |s.rows| && RowHeld(s, i, u) && s.rows[i].status != DbDead
    ensures HeldForever(s, i, u) <==> AllAware(s, i, u)
  {
    if AllAware(s, i, u) {
      forall steps
        ensures HeldAfter(s, steps, i, u)
      {
        AwareRunsHold(s, steps, i, u);
      }
    } else {
      var t :| t in s.pools && !Held(s.pools[t][i].status, u, s.clock);
      UnawareLoses(s, t, i, u);
    }
  }

  /** A credential set aside until `u` is not the one that a turn chooses before. */
  lemma HeldIsNotChosen(s: State, i: nat, u: int)
    requires i < |s.rows| && RowHeld(s, i, u) && s.clock < u
    ensures Best(Load(s.rows), s.clock) != Some(i)
  {
    assert Load(s.rows)[i].status == StatusFromDb(s.rows[i]);
  }

  /** With no other turn in flight, a penalty written back is served, whatever the turns to come do. */
  lemma AlonePenaltyIsServed(s: State, t: nat, nowMs: int, dbNow: int, i: nat, until: int, steps: seq<Step>)
    requires Sound(s) && i < |s.rows| && s.pools.Keys == {t} && s.pools[t][i].status == Cooling(until)
    requires nowMs <= dbNow <= s.clock
    ensures var s' := Run(Take(s, Write(t, nowMs, dbNow)), steps);
            |s'.rows| == |s.rows| && (s'.clock < until ==> Best(Load(s'.rows), s'.clock) != Some(i))
  {
    var e := Write(t, nowMs, dbNow);
    var first := Take(s, e);
    TakeKeeps(s, e);
    FoundAt(s.rows, s.pools[t], i);
    WriteBackHoldsExactlyIf(s.rows, s.pools[t], nowMs, dbNow, i, i, until, s.clock);
    AwareRunsHold(first, steps, i, until);
    RunKeeps(first, steps);
    var s' := Run(first, steps);
    if s'.clock < until {
      HeldIsNotChosen(s', i, until);
    }
  }

  // ---------------------------------------------------------------------------------------------
  // A death over whole runs
  // ---------------------------------------------------------------------------------------------

  predicate RowDead(s: State, i: nat)
    requires i < |s.rows|
  {
    s.rows[i].status == DbDead
  }

  predicate AllSeeDead(s: State, i: nat)
    requires Sound(s) && i < |s.rows|
  {
    forall t :: t in s.pools ==> s.pools[t][i].status.Dead?
  }

  lemma TakeIsDeadExactlyIf(s: State, e: Step, i: nat)
    requires Sound(s) && i < |s.rows| && RowDead(s, i)
    ensures |Take(s, e).rows| == |s.rows|
    ensures RowDead(Take(s, e), i) <==> !(Writes(s, e) && s.pools[e.turn][i].status.Cooling?)
  {
    TakeKeeps(s, e);
    if Writes(s, e) {
      FoundAt(s.rows, s.pools[e.turn], i);
      WriteBackIsDeadExactlyIf(s.rows, s.pools[e.turn], e.nowMs, e.dbNow, i, i);
    }
  }

  lemma TakeSeesDead(s: State, e: Step, i: nat)
    requires Sound(s) && i < |s.rows| && RowDead(s, i) && AllSeeDead(s, i)
    ensures Sound(Take(s, e)) && i < |Take(s, e).rows| && RowDead(Take(s, e), i) && AllSeeDead(Take(s, e), i)
  {
    TakeKeeps(s, e);
    TakeIsDeadExactlyIf(s, e, i);
    if e.MarkEntry? && e.turn in s.pools && Markable(s.pools[e.turn], e.at, e.status, s.clock) {
      MarkedEntry(s.rows, s.pools[e.turn], e.at, e.status);
    }
  }

  lemma {:induction false} SeenDeadStaysDead(s: State, steps: seq<Step>, i: nat)
    requires Sound(s) && i < |s.rows| && RowDead(s, i) && AllSeeDead(s, i)
    ensures Sound(Run(s, steps)) && i < |Run(s, steps).rows|
    ensures RowDead(Run(s, steps), i) && AllSeeDead(Run(s, steps), i)
  {
    if steps != [] {
      SeenDeadStaysDead(s, steps[..|steps| - 1], i);
      TakeSeesDead(Run(s, steps[..|steps| - 1]), steps[|steps| - 1], i);
    }
  }

  predicate DeadAfter(s: State, steps: seq<Step>, i: nat)
    requires Sound(s) && i < |s.rows|
  {
    RunKeeps(s, steps);
    RowDead(Run(s, steps), i)
  }

  ghost predicate DeadForever(s: State, i: nat)
    requires Sound(s) && i < |s.rows|
  {
    forall steps :: DeadAfter(s, steps, i)
  }

  lemma CoolingRevives(s: State, t: nat, i: nat)
    requires Sound(s) && i < |s.rows| && RowDead(s, i) && t in s.pools && s.pools[t][i].status.Cooling?
    ensures !DeadAfter(s, [Write(t, s.clock, s.clock)], i)
  {
    var e := Write(t, s.clock, s.clock);
    TakeIsDeadExactlyIf(s, e, i);
    assert [e][..0] == [];
    assert Run(s, [e]) == Take(Run(s, [e][..0]), e) == Take(s, e);
  }

  lemma HealthyRevives(s: State, t: nat, i: nat)
    requires Sound(s) && i < |s.rows| && RowDead(s, i) && t in s.pools && s.pools[t][i].status.Healthy?
    ensures !DeadAfter(s, [MarkEntry(t, i, Cooling(s.clock)), Write(t, s.clock, s.clock)], i)
  {
    var m, e := MarkEntry(t, i, Cooling(s.clock)), Write(t, s.clock, s.clock);
    var marked := Take(s, m);
    MarkedEntry(s.rows, s.pools[t], i, Cooling(s.clock));
    TakeKeeps(s, m);
    TakeIsDeadExactlyIf(marked, e, i);
    assert [m, e][..1] == [m] && [m][..0] == [];
    assert Run(s, [m]) == Take(Run(s, [m][..0]), m) == marked;
    assert Run(s, [m, e]) == Take(Run(s, [m, e][..1]), e) == Take(marked, e);
  }

  /** A dead credential is sure to stay dead exactly if every turn in flight holds it as dead: one that loaded
      the rows before the death can write it back to life. */
  lemma DeathIsFinalExactlyIf(s: State, i: nat)
    requires Sound(s) && i < |s.rows| && RowDead(s, i)
    ensures DeadForever(s, i) <==> AllSeeDead(s, i)
  {
    if AllSeeDead(s, i) {
      forall steps
        ensures DeadAfter(s, steps, i)
      {
        SeenDeadStaysDead(s, steps, i);
      }
    } else {
      var t :| t in s.pools && !s.pools[t][i].status.Dead?;
      if s.pools[t][i].status.Cooling? {
        CoolingRevives(s, t, i);
      } else {
        HealthyRevives(s, t, i);
      }
    }
  }

  // ---------------------------------------------------------------------------------------------
  // Two turns at once
  // ---------------------------------------------------------------------------------------------

  /** A pool loaded before another turn's write-back and written after it: a fresh penalty is healed, and a
      fresh death of a credential that had been cooling is undone, whatever credential the turn was using. */
  lemma StaleWriteBackUndoes(rows: seq<Row>, i: nat, j: nat, theirs: Status, mine: Status, nowMs: int, dbNow: int)
    requires Distinct(rows) && i < |rows| && j < |rows| && i != j && (theirs.Cooling? || theirs.Dead?)
    ensures var first := After(rows, i, theirs, nowMs, dbNow);
            var second := WrittenBack(first, Marked(Load(rows), rows[j].hint, mine), nowMs, dbNow);
            && |first| == |second| == |rows|
            && (rows[i].status == DbOk && theirs.Cooling? ==>
                  StatusFromDb(first[i]).Cooling? && StatusFromDb(second[i]).Healthy?)
            && (rows[i].status == DbExhausted && theirs.Dead? ==>
                  StatusFromDb(first[i]).Dead? && StatusFromDb(second[i]).Cooling?)
  {
    MarkedAt(rows, i, theirs);
    MarkedAt(rows, j, mine);
    var first, stale := After(rows, i, theirs, nowMs, dbNow), Marked(Load(rows), rows[j].hint, mine);
    assert Matches(rows, Load(rows)) && Matches(rows, Marked(Load(rows), rows[i].hint, theirs)) && Matches(rows, stale);
    KeepsKeys(rows, Marked(Load(rows), rows[i].hint, theirs), nowMs, dbNow);
    FoundAt(rows, Marked(Load(rows), rows[i].hint, theirs), i);
    FoundAt(rows, stale, i);
    WriteBackAt(rows, Marked(Load(rows), rows[i].hint, theirs), nowMs, dbNow, i);
    WriteBackAt(first, stale, nowMs, dbNow, i);
  }
}
