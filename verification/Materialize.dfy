/** The op log of one tenant and its materialization (qcue-rs/app-server/src/sync/materialize.rs, routes.rs,
    emit.rs): devices push ops in any order, any number of times; applying takes the pending ones in clock
    order, as one batch. */
module Materialize {
  import opened Common
  import opened Json
  import opened Reducer
  import opened Batches

  datatype Device = Device(user: nat, platform: string, name: string, site: nat)

  /** A row of the op log. Devices and rows are numbered by their place. */
  datatype OpRow = OpRow(device: nat, op: SyncOp, applied: bool)

  datatype Pushed = Pushed(device: nat, op: SyncOp)

  // ---------------------------------------------------------------------------------------------
  // Clock order
  // ---------------------------------------------------------------------------------------------

  predicate Precedes(a: SyncOp, b: SyncOp) {
    a.wall < b.wall || (a.wall == b.wall && (a.lamport < b.lamport || (a.lamport == b.lamport && a.site < b.site)))
  }

  predicate SameClock(a: SyncOp, b: SyncOp) { a.wall == b.wall && a.lamport == b.lamport && a.site == b.site }

  /** Strictly ascending clocks. */
  predicate Ascending(os: seq<SyncOp>) { forall i, j :: 0 <= i < j < |os| ==> Precedes(os[i], os[j]) }

  predicate DistinctClocks(os: seq<SyncOp>) { forall i, j :: 0 <= i < j < |os| ==> !SameClock(os[i], os[j]) }

  function Put(os: seq<SyncOp>, o: SyncOp): (out: seq<SyncOp>)
    ensures |out| == |os| + 1
    ensures forall x :: x in out <==> x in os || x == o
  {
    if os == [] then [o]
    else if Precedes(o, os[|os| - 1]) then
      var init := Put(os[..|os| - 1], o);
      assert forall x :: x in os <==> x in os[..|os| - 1] || x == os[|os| - 1];
      init + [os[|os| - 1]]
    else os + [o]
  }

  /** ORDER BY the clock. */
  function Sorted(os: seq<SyncOp>): (out: seq<SyncOp>)
    ensures |out| == |os|
    ensures forall x :: x in out <==> x in os
  {
    if os == [] then []
    else
      assert forall x :: x in os <==> x in os[..|os| - 1] || x == os[|os| - 1];
      Put(Sorted(os[..|os| - 1]), os[|os| - 1])
  }

  lemma {:induction false} PutAscends(os: seq<SyncOp>, o: SyncOp)
    requires Ascending(os) && forall i :: 0 <= i < |os| ==> !SameClock(os[i], o)
    ensures Ascending(Put(os, o))
  {
    if os != [] && Precedes(o, os[|os| - 1]) {
      var n := |os| - 1;
      PutAscends(os[..n], o);
      var init := Put(os[..n], o);
      forall i | 0 <= i < |init|
        ensures Precedes(init[i], os[n])
      {
        assert init[i] in os[..n] || init[i] == o;
      }
    }
  }

  lemma {:induction false} SortedAscends(os: seq<SyncOp>)
    requires DistinctClocks(os)
    ensures Ascending(Sorted(os))
  {
    if os != [] {
      var n := |os| - 1;
      SortedAscends(os[..n]);
      forall i | 0 <= i < n
        ensures !SameClock(Sorted(os[..n])[i], os[n])
      {
        assert Sorted(os[..n])[i] in os[..n];
        var k :| 0 <= k < n && os[..n][k] == Sorted(os[..n])[i];
        assert !SameClock(os[k], os[n]);
      }
      PutAscends(Sorted(os[..n]), os[n]);
    }
  }

  /** By wall clock, then by lamport, then by site; ops that agree in all three in either order. */
  predicate NotAfter(a: SyncOp, b: SyncOp) {
    && a.wall <= b.wall
    && (a.wall == b.wall ==> a.lamport <= b.lamport)
    && (a.wall == b.wall && a.lamport == b.lamport ==> a.site <= b.site)
  }

  predicate InClockOrder(os: seq<SyncOp>) { forall i, j :: 0 <= i < j < |os| ==> NotAfter(os[i], os[j]) }

  lemma {:induction false} PutInOrder(os: seq<SyncOp>, o: SyncOp)
    requires InClockOrder(os)
    ensures InClockOrder(Put(os, o)) && multiset(Put(os, o)) == multiset(os) + multiset{o}
  {
    if os != [] {
      var n := |os| - 1;
      assert os == os[..n] + [os[n]];
      if Precedes(o, os[n]) {
        PutInOrder(os[..n], o);
        var init := Put(os[..n], o);
        forall i | 0 <= i < |init|
          ensures NotAfter(init[i], os[n])
        {
          assert init[i] in os[..n] || init[i] == o;
        }
      }
    }
  }

  /** Sorting keeps every op, as often as it is there, and puts them by the clock, whether or not clocks differ. */
  lemma {:induction false} SortedByTheClock(os: seq<SyncOp>)
    ensures InClockOrder(Sorted(os)) && multiset(Sorted(os)) == multiset(os)
  {
    if os != [] {
      var n := |os| - 1;
      SortedByTheClock(os[..n]);
      PutInOrder(Sorted(os[..n]), os[n]);
      assert os == os[..n] + [os[n]];
    }
  }

  /** There is one way to put a set of ops in clock order. */
  lemma {:induction false} AscendingIsUnique(a: seq<SyncOp>, b: seq<SyncOp>)
    requires Ascending(a) && Ascending(b) && forall x :: x in a <==> x in b
    ensures a == b
    decreases |a|
  {
    if a == [] {
      if b != [] {
        HeadIsIn(b);
      }
    } else {
      var m, n := |a| - 1, |b| - 1;
      assert a[m] in a;
      assert b != [];
      assert b[n] in b;
      LastIsGreatest(a, b[n]);
      LastIsGreatest(b, a[m]);
      assert a[m] == b[n];
      forall x
        ensures x in a[..m] <==> x in b[..n]
      {
        WithoutLast(a, x);
        WithoutLast(b, x);
      }
      AscendingIsUnique(a[..m], b[..n]);
      assert a == a[..m] + [a[m]] && b == b[..n] + [b[n]];
    }
  }

  lemma HeadIsIn(os: seq<SyncOp>)
    requires os != []
    ensures os[0] in os
  {
  }

  lemma LastIsGreatest(os: seq<SyncOp>, x: SyncOp)
    requires Ascending(os) && x in os
    ensures x == os[|os| - 1] || Precedes(x, os[|os| - 1])
  {
  }

  lemma WithoutLast(os: seq<SyncOp>, x: SyncOp)
    requires Ascending(os) && os != []
    ensures x in os[..|os| - 1] <==> x in os && x != os[|os| - 1]
  {
    if x in os[..|os| - 1] {
      var k :| 0 <= k < |os| - 1 && os[k] == x;
      assert Precedes(os[k], os[|os| - 1]);
    }
  }

  // ---------------------------------------------------------------------------------------------
  // The op log
  // ---------------------------------------------------------------------------------------------

  /** The unique index: device, site and lamport. */
  predicate SameKey(r: OpRow, p: Pushed) {
    r.device == p.device && r.op.site == p.op.site && r.op.lamport == p.op.lamport
  }

  predicate Known(log: seq<OpRow>, p: Pushed) { exists i :: 0 <= i < |log| && SameKey(log[i], p) }

  function PushOne(log: seq<OpRow>, p: Pushed): seq<OpRow> {
    if Known(log, p) then log else log + [OpRow(p.device, p.op, false)]
  }

  function PushAll(log: seq<OpRow>, ps: seq<Pushed>): seq<OpRow> {
    if ps == [] then log else PushOne(PushAll(log, ps[..|ps| - 1]), ps[|ps| - 1])
  }

  function Pending(log: seq<OpRow>): seq<SyncOp> {
    if log == [] then []
    else
      var before, r := Pending(log[..|log| - 1]), log[|log| - 1];
      if r.applied then before else before + [r.op]
  }

  function AllApplied(log: seq<OpRow>): seq<OpRow> { Map((r: OpRow) => r.(applied := true), log) }

  function Batch(device: nat, os: seq<SyncOp>): seq<Pushed> { Map((o: SyncOp) => Pushed(device, o), os) }

  datatype Hub = Hub(log: seq<OpRow>, canon: Canon)

  const MAX_OPS_PER_PUSH: nat := 1000

  /** One push request: what a device sends, and what becomes of the ops that it makes the server apply. */
  datatype Round = Round(device: nat, ops: seq<SyncOp>, answers: nat -> Answer)

  const START := Hub([], EMPTY)

  function AfterPush(h: Hub, ps: seq<Pushed>): Hub { h.(log := PushAll(h.log, ps)) }

  /** What an apply leaves that goes through. */
  function AfterApply(env: Env, h: Hub): Hub {
    Hub(AllApplied(h.log), ApplyAll(env, h.canon, Sorted(Pending(h.log))))
  }

  /** An apply, and how it ends. */
  function Attempted(env: Env, h: Hub, answers: nat -> Answer): (Hub, End) {
    var (w, end) := Worked(env, h.canon, Sorted(Pending(h.log)), answers);
    (Hub(if end.Through? then AllApplied(h.log) else h.log, Left(h.canon, w, end)), end)
  }

  /** A push request: inserting and applying are one transaction, which takes the inserts back unless all goes
      through. */
  function Taken(env: Env, h: Hub, r: Round): (Hub, End) {
    if |r.ops| > MAX_OPS_PER_PUSH then (h, RolledBack)
    else
      var (h', end) := Attempted(env, AfterPush(h, Batch(r.device, r.ops)), r.answers);
      (if end.Through? then h' else Hub(h.log, h'.canon), end)
  }

  /** The ops that a push request makes the server apply, in their order. */
  function BatchOf(h: Hub, r: Round): seq<SyncOp> { Sorted(Pending(PushAll(h.log, Batch(r.device, r.ops)))) }

  /** An apply that goes through does what the reducer does, and it goes through exactly if nothing in the
      batch stops it. */
  lemma AttemptedExactlyIf(env: Env, h: Hub, answers: nat -> Answer)
    ensures Attempted(env, h, answers).1.Through? <==> NothingStops(env, h.canon, Sorted(Pending(h.log)), answers)
    ensures Attempted(env, h, answers).1.Through? ==> Attempted(env, h, answers).0 == AfterApply(env, h)
  {
    GoesThroughExactlyIf(env, h.canon, Sorted(Pending(h.log)), answers);
  }

  lemma {:induction false} PushGrows(log: seq<OpRow>, ps: seq<Pushed>)
    ensures |log| <= |PushAll(log, ps)| && PushAll(log, ps)[..|log|] == log
  {
    if ps != [] {
      PushGrows(log, ps[..|ps| - 1]);
    }
  }

  lemma {:induction false} PushAllAppend(log: seq<OpRow>, a: seq<Pushed>, b: seq<Pushed>)
    ensures PushAll(log, a + b) == PushAll(PushAll(log, a), b)
    decreases |b|
  {
    if b == [] {
      assert a + b == a;
    } else {
      assert (a + b)[..|a + b| - 1] == a + b[..|b| - 1];
      PushAllAppend(log, a, b[..|b| - 1]);
    }
  }

  /** What the log's unique index compares. */
  datatype Stamp = Stamp(device: nat, site: nat, lamport: int)

  function StampOf(p: Pushed): Stamp { Stamp(p.device, p.op.site, p.op.lamport) }

  function StampIn(r: OpRow): Stamp { Stamp(r.device, r.op.site, r.op.lamport) }

  /** Pushed op k is the first of its stamp, in the log and among the pushed. */
  predicate IsFirst(log: seq<OpRow>, ps: seq<Pushed>, k: nat)
    requires k < |ps|
  {
    && (forall i :: 0 <= i < |log| ==> StampIn(log[i]) != StampOf(ps[k]))
    && forall j :: 0 <= j < k ==> StampOf(ps[j]) != StampOf(ps[k])
  }

  function FirstsOf(log: seq<OpRow>, ps: seq<Pushed>, n: nat): seq<OpRow>
    requires n <= |ps|
  {
    if n == 0 then []
    else
      var k := n - 1;
      FirstsOf(log, ps, k) + if IsFirst(log, ps, k) then [OpRow(ps[k].device, ps[k].op, false)] else []
  }

  lemma {:induction false} FirstsHaveTheStamps(log: seq<OpRow>, ps: seq<Pushed>, n: nat, p: Pushed)
    requires n <= |ps|
    ensures Known(log + FirstsOf(log, ps, n), p)
            <==> (exists i :: 0 <= i < |log| && StampIn(log[i]) == StampOf(p))
                 || exists j :: 0 <= j < n && StampOf(ps[j]) == StampOf(p)
  {
    if n == 0 {
      assert log + [] == log;
      assert forall i :: 0 <= i < |log| ==> (SameKey(log[i], p) <==> StampIn(log[i]) == StampOf(p));
    } else {
      var k := n - 1;
      var before := log + FirstsOf(log, ps, k);
      FirstsHaveTheStamps(log, ps, k, p);
      FirstsHaveTheStamps(log, ps, k, ps[k]);
      if IsFirst(log, ps, k) {
        var row := OpRow(ps[k].device, ps[k].op, false);
        assert log + FirstsOf(log, ps, n) == before + [row];
        KnownOneMore(before, row, p);
      } else {
        assert log + FirstsOf(log, ps, n) == before;
        EarlierStamp(log, ps, k, p);
      }
    }
  }

  lemma KnownOneMore(log: seq<OpRow>, row: OpRow, p: Pushed)
    ensures Known(log + [row], p) <==> Known(log, p) || StampIn(row) == StampOf(p)
  {
    assert (log + [row])[|log|] == row;
    assert forall i :: 0 <= i < |log| ==> (log + [row])[i] == log[i];
  }

  lemma EarlierStamp(log: seq<OpRow>, ps: seq<Pushed>, k: nat, p: Pushed)
    requires k < |ps| && !IsFirst(log, ps, k)
    ensures StampOf(ps[k]) == StampOf(p) ==>
              (exists i :: 0 <= i < |log| && StampIn(log[i]) == StampOf(p))
              || exists j :: 0 <= j < k && StampOf(ps[j]) == StampOf(p)
  {
  }

  /** A push adds to the log, unapplied and in their order, exactly the ops that are the first of their stamp. */
  lemma {:induction false} FirstPushStands(log: seq<OpRow>, ps: seq<Pushed>, n: nat)
    requires n <= |ps|
    ensures PushAll(log, ps[..n]) == log + FirstsOf(log, ps, n)
  {
    if n > 0 {
      var k := n - 1;
      FirstPushStands(log, ps, k);
      assert ps[..n][..k] == ps[..k];
      FirstsHaveTheStamps(log, ps, k, ps[k]);
      assert IsFirst(log, ps, k) <==> !Known(log + FirstsOf(log, ps, k), ps[k]);
    }
  }

  // ---------------------------------------------------------------------------------------------
  // The hub
  // ---------------------------------------------------------------------------------------------

  function Registered(ds: seq<Device>, user: nat, platform: string, name: string): (r: Option<nat>)
    ensures r.Some? ==> r.value < |ds| && ds[r.value].user == user && ds[r.value].platform == platform
                        && ds[r.value].name == name
    ensures r.None? ==> forall i :: 0 <= i < |ds| ==>
                                    !(ds[i].user == user && ds[i].platform == platform && ds[i].name == name)
  {
    if ds == [] then None
    else
      var n := |ds| - 1;
      var earlier := Registered(ds[..n], user, platform, name);
      if earlier.Some? then earlier
      else if ds[n].user == user && ds[n].platform == platform && ds[n].name == name then Some(n)
      else
        assert forall i :: 0 <= i < n ==> ds[..n][i] == ds[i];
        None
  }

  function MaxSite(ds: seq<Device>): (m: nat)
    ensures forall i :: 0 <= i < |ds| ==> ds[i].site <= m
    ensures m == 0 || exists i :: 0 <= i < |ds| && ds[i].site == m
  {
    if ds == [] then 0 else Max(MaxSite(ds[..|ds| - 1]), ds[|ds| - 1].site)
  }

  /** The greatest lamport, even a negative one; 0 where there is none. */
  function TopLamport(log: seq<OpRow>): (m: int)
    ensures forall i :: 0 <= i < |log| ==> log[i].op.lamport <= m
    ensures if log == [] then m == 0 else exists i :: 0 <= i < |log| && log[i].op.lamport == m
  {
    if log == [] then 0
    else
      var n := |log| - 1;
      assert forall i :: 0 <= i < n ==> log[..n][i] == log[i];
      if n == 0 then log[n].op.lamport else Max(TopLamport(log[..n]), log[n].op.lamport)
  }

  predicate DistinctSites(ds: seq<Device>) { forall i, j :: 0 <= i < j < |ds| ==> ds[i].site != ds[j].site }

  lemma EmittedIsApplied(log: seq<OpRow>, row: OpRow)
    requires row.applied
    ensures Pending(log + [row]) == Pending(log)
  {
    assert (log + [row])[..|log|] == log;
  }

  class SyncServer {
    const env: Env
    var devices: seq<Device>
    var log: seq<OpRow>
    var canon: Canon

    /** The site id is the tie-breaker of the clock: one device each. */
    ghost predicate Valid()
      reads this
    {
      DistinctSites(devices)
    }

    constructor (env: Env)
      ensures Valid() && devices == [] && Hub(log, canon) == START && this.env == env
    {
      this.env, devices, log, canon := env, [], [], EMPTY;
    }

    /** A device that is known keeps its row; a new one gets a site of its own, never the server's. */
    method RegisterDevice(user: nat, platform: string, name: string) returns (id: nat, site: nat)
      requires Valid()
      modifies this`devices
      ensures Valid() && id < |devices| && devices[id].site == site
      ensures Registered(devices, user, platform, name) == Some(id)
      ensures Registered(old(devices), user, platform, name).Some? ==> devices == old(devices)
      ensures Registered(old(devices), user, platform, name).None? ==>
                && site >= 1 && devices == old(devices) + [Device(user, platform, name, site)]
                && (site == 1 || exists i :: 0 <= i < |old(devices)| && old(devices)[i].site == site - 1)
    {
      var known := Registered(devices, user, platform, name);
      if known.Some? {
        return known.value, devices[known.value].site;
      }
      site := MaxSite(devices) + 1;
      id := |devices|;
      devices := devices + [Device(user, platform, name, site)];
      assert devices[..|devices| - 1] == old(devices);
    }

    /** The device of server-side ops, made on first use. */
    method ServerDevice(user: nat) returns (id: nat)
      requires Valid()
      modifies this`devices
      ensures Valid() && id < |devices| && devices[id].site == 0
      ensures devices == old(devices) || devices == old(devices) + [Device(user, "server", "server", 0)]
      ensures (exists i :: 0 <= i < |old(devices)| && old(devices)[i].site == 0) ==> devices == old(devices)
    {
      var i := 0;
      while i < |devices|
        invariant i <= |devices| && devices == old(devices)
        invariant forall k :: 0 <= k < i ==> devices[k].site != 0
      {
        if devices[i].site == 0 {
          return i;
        }
        i := i + 1;
      }
      id := |devices|;
      devices := devices + [Device(user, "server", "server", 0)];
    }

    /** A server-side op: for the feed only, it is already applied. */
    method EmitOp(user: nat, wall: int, kind: string, ref: string, op: Json) returns (device: nat, lamport: int)
      requires Valid()
      modifies this`devices, this`log
      ensures Valid() && device < |devices| && devices[device].site == 0
      ensures log == old(log) + [OpRow(device, SyncOp(wall, lamport, 0, kind, ref, op), true)]
      ensures forall i :: 0 <= i < |old(log)| ==> old(log)[i].op.lamport < lamport
      ensures if old(log) == [] then lamport == 1
              else exists i :: 0 <= i < |old(log)| && old(log)[i].op.lamport == lamport - 1
      ensures Pending(log) == Pending(old(log))
    {
      device := ServerDevice(user);
      lamport := TopLamport(log) + 1;
      var row := OpRow(device, SyncOp(wall, lamport, 0, kind, ref, op), true);
      var taken := Known(log, Pushed(device, row.op));
      assert !taken;
      EmittedIsApplied(log, row);
      log := log + [row];
    }

    /** Inserts each op that is not there yet and counts them. */
    method PushOps(device: nat, os: seq<SyncOp>) returns (inserted: nat)
      modifies this`log
      ensures log == PushAll(old(log), Batch(device, os))
      ensures inserted == |log| - |old(log)|
    {
      inserted := 0;
      for i := 0 to |os|
        invariant log == PushAll(old(log), Batch(device, os)[..i])
        invariant inserted == |log| - |old(log)|
      {
        ghost var ps := Batch(device, os);
        assert ps[..i + 1][..i] == ps[..i];
        var p := Pushed(device, os[i]);
        if !Known(log, p) {
          log := log + [OpRow(device, os[i], false)];
          inserted := inserted + 1;
        }
      }
      assert Batch(device, os)[..|os|] == Batch(device, os);
    }

    /** Applies the pending ops in clock order and flags them. Page writes are there for everybody as soon as
        they are made; the rest is there once all has gone through. */
    method ApplyUnapplied(answers: nat -> Answer) returns (applied: nat, end: End)
      modifies this`log, this`canon
      ensures (Hub(log, canon), end) == Attempted(env, old(Hub(log, canon)), answers)
      ensures end.Through? ==> applied == |Pending(old(log))|
    {
      var rows, work := Sorted(Pending(log)), Work(canon.pages, {}, canon.ideas);
      applied, end := 0, Through;
      for i := 0 to |rows|
        invariant applied == i && log == old(log) && end == Through
        invariant Worked(env, old(canon), rows[..i], answers) == (work, Through)
        invariant canon == Canon(work.pages, old(canon).ideas)
      {
        WorkedOneMore(env, old(canon), rows, answers, i);
        var step := Tried(env, work, rows[i], answers(i));
        work, end := step.0, step.1;
        canon := canon.(pages := work.pages);
        if end != Through {
          StoppedStays(env, old(canon), rows, answers, i + 1);
          return;
        }
        applied := applied + 1;
      }
      assert rows[..|rows|] == rows;
      log, canon := AllApplied(log), Seen(work);
    }

    /** One push request, in one transaction. A stalled one is never answered. */
    method PushRoute(device: nat, os: seq<SyncOp>, answers: nat -> Answer) returns (inserted: nat, end: End)
      modifies this`log, this`canon
      ensures (Hub(log, canon), end) == Taken(env, old(Hub(log, canon)), Round(device, os, answers))
      ensures end.Through? ==> inserted == |log| - |old(log)|
    {
      if |os| > MAX_OPS_PER_PUSH {
        return 0, RolledBack;
      }
      var before := log;
      inserted := PushOps(device, os);
      var applied;
      applied, end := ApplyUnapplied(answers);
      if end != Through {
        log := before;
      }
    }
  }

  // ---------------------------------------------------------------------------------------------
  // Applying twice
  // ---------------------------------------------------------------------------------------------

  lemma {:induction false} NothingPends(log: seq<OpRow>)
    ensures Pending(AllApplied(log)) == []
  {
    if log != [] {
      var n := |log| - 1;
      assert AllApplied(log)[..n] == AllApplied(log[..n]);
      NothingPends(log[..n]);
    }
  }

  lemma ApplyingAgainDoesNothing(env: Env, h: Hub, answers: nat -> Answer, again: nat -> Answer)
    ensures var (once, end) := Attempted(env, h, answers);
            end.Through? ==> Pending(once.log) == [] && Attempted(env, once, again) == (once, Through)
  {
    var (once, end) := Attempted(env, h, answers);
    if end.Through? {
      NothingPends(h.log);
      assert AllApplied(AllApplied(h.log)) == AllApplied(h.log);
      assert once.canon.pages - {} == once.canon.pages;
    }
  }

  // ---------------------------------------------------------------------------------------------
  // The order of pushes and repeated pushes do not matter
  // ---------------------------------------------------------------------------------------------

  /** A clock's site and lamport name one op of one device. */
  predicate Clean(ps: seq<Pushed>) {
    forall i, j ::
      0 <= i < |ps| && 0 <= j < |ps| && ps[i].op.site == ps[j].op.site && ps[i].op.lamport == ps[j].op.lamport ==>
        ps[i] == ps[j]
  }

  /** Every row is a pushed op that is not applied yet. */
  predicate OnlyPushed(log: seq<OpRow>, ps: seq<Pushed>) {
    forall i :: 0 <= i < |log| ==> !log[i].applied && Pushed(log[i].device, log[i].op) in ps
  }

  predicate HasRow(log: seq<OpRow>, p: Pushed) { exists i :: 0 <= i < |log| && log[i] == OpRow(p.device, p.op, false) }

  predicate HasAll(log: seq<OpRow>, ps: seq<Pushed>) { forall p :: p in ps ==> HasRow(log, p) }

  predicate SameStamp(a: SyncOp, b: SyncOp) { a.site == b.site && a.lamport == b.lamport }

  predicate DistinctStamps(log: seq<OpRow>) {
    forall i, j :: 0 <= i < j < |log| ==> !SameStamp(log[i].op, log[j].op)
  }

  /** Exactly the pushed ops, once each. */
  predicate Rows(log: seq<OpRow>, ps: seq<Pushed>) { OnlyPushed(log, ps) && HasAll(log, ps) && DistinctStamps(log) }

  lemma CleanPrefix(ps: seq<Pushed>)
    requires Clean(ps) && ps != []
    ensures Clean(ps[..|ps| - 1])
  {
    var n := |ps| - 1;
    assert forall i :: 0 <= i < n ==> ps[..n][i] == ps[i];
  }

  /** Each pushed op has one row, however often it was pushed. */
  lemma {:induction false} PushedRows(ps: seq<Pushed>)
    requires Clean(ps)
    ensures Rows(PushAll([], ps), ps)
  {
    if ps != [] {
      var n := |ps| - 1;
      CleanPrefix(ps);
      PushedRows(ps[..n]);
      OneMorePush(PushAll([], ps[..n]), ps[..n], ps);
    }
  }

  lemma CleanPair(ps: seq<Pushed>, p: Pushed, q: Pushed)
    requires Clean(ps) && p in ps && q in ps && SameStamp(p.op, q.op)
    ensures p == q
  {
    var i :| 0 <= i < |ps| && ps[i] == p;
    var j :| 0 <= j < |ps| && ps[j] == q;
    assert ps[i].op.site == ps[j].op.site;
  }

  /** A known op is there already. */
  lemma KnownHasRow(log: seq<OpRow>, before: seq<Pushed>, ps: seq<Pushed>, p: Pushed)
    requires Clean(ps) && p in ps && (forall q :: q in before ==> q in ps) && Rows(log, before) && Known(log, p)
    ensures HasRow(log, p)
  {
    var i :| 0 <= i < |log| && SameKey(log[i], p);
    var q := Pushed(log[i].device, log[i].op);
    assert q in before;
    CleanPair(ps, p, q);
    assert log[i] == OpRow(p.device, p.op, false);
  }

  /** A new op is the first of its stamp. */
  lemma UnknownIsNew(log: seq<OpRow>, before: seq<Pushed>, ps: seq<Pushed>, p: Pushed, i: nat)
    requires Clean(ps) && p in ps && (forall q :: q in before ==> q in ps) && Rows(log, before) && !Known(log, p)
    requires i < |log|
    ensures !SameStamp(log[i].op, p.op)
  {
    var q := Pushed(log[i].device, log[i].op);
    assert q in before;
    if SameStamp(log[i].op, p.op) {
      CleanPair(ps, p, q);
      assert SameKey(log[i], p);
    }
  }

  lemma RowStays(log: seq<OpRow>, r: OpRow, q: Pushed)
    requires HasRow(log, q) || r == OpRow(q.device, q.op, false)
    ensures HasRow(log + [r], q)
  {
    var out := log + [r];
    if HasRow(log, q) {
      var i :| 0 <= i < |log| && log[i] == OpRow(q.device, q.op, false);
      assert out[i] == log[i];
    } else {
      assert out[|log|] == r;
    }
  }

  lemma OneMorePush(log: seq<OpRow>, before: seq<Pushed>, ps: seq<Pushed>)
    requires ps != [] && before == ps[..|ps| - 1] && Clean(ps) && Rows(log, before)
    ensures Rows(PushOne(log, ps[|ps| - 1]), ps)
  {
    var p := ps[|ps| - 1];
    assert forall q :: q in ps <==> q in before || q == p;
    if Known(log, p) {
      KnownHasRow(log, before, ps, p);
    } else {
      var r := OpRow(p.device, p.op, false);
      forall q | q in ps
        ensures HasRow(log + [r], q)
      {
        RowStays(log, r, q);
      }
      forall i | 0 <= i < |log|
        ensures !SameStamp(log[i].op, p.op)
      {
        UnknownIsNew(log, before, ps, p, i);
      }
    }
  }

  function OpsOf(log: seq<OpRow>): seq<SyncOp> { Map((r: OpRow) => r.op, log) }

  lemma {:induction false} AllPend(log: seq<OpRow>)
    requires forall i :: 0 <= i < |log| ==> !log[i].applied
    ensures Pending(log) == OpsOf(log)
  {
    if log != [] {
      AllPend(log[..|log| - 1]);
      assert OpsOf(log) == OpsOf(log[..|log| - 1]) + [log[|log| - 1].op];
    }
  }

  /** The ops that pend after these pushes: the pushed ones, with distinct clocks. */
  lemma PendingAfterPushes(ps: seq<Pushed>)
    requires Clean(ps)
    ensures var os := Pending(PushAll([], ps));
            DistinctClocks(os) && forall o :: o in os <==> exists p :: p in ps && p.op == o
  {
    var log := PushAll([], ps);
    PushedRows(ps);
    AllPend(log);
    var os := OpsOf(log);
    forall o
      ensures o in os <==> exists p :: p in ps && p.op == o
    {
      if o in os {
        var i :| 0 <= i < |os| && os[i] == o;
        assert Pushed(log[i].device, log[i].op) in ps;
      }
      if p :| p in ps && p.op == o {
        assert HasRow(log, p);
        var i :| 0 <= i < |log| && log[i] == OpRow(p.device, p.op, false);
        assert os[i] == o;
      }
    }
  }

  lemma SameBatch(ps: seq<Pushed>, qs: seq<Pushed>)
    requires Clean(ps) && Clean(qs) && forall p :: p in ps <==> p in qs
    ensures Sorted(Pending(PushAll([], ps))) == Sorted(Pending(PushAll([], qs)))
  {
    var a, b := Pending(PushAll([], ps)), Pending(PushAll([], qs));
    PendingAfterPushes(ps);
    PendingAfterPushes(qs);
    SortedAscends(a);
    SortedAscends(b);
    forall x
      ensures x in Sorted(a) <==> x in Sorted(b)
    {
      assert x in Sorted(a) <==> x in a;
      assert x in Sorted(b) <==> x in b;
    }
    AscendingIsUnique(Sorted(a), Sorted(b));
  }

  /** For a single apply: the same ops, pushed before it in any order and with any repetitions, make it end in
      the same way and leave the same tables. */
  lemma PushOrderIsInvisible(env: Env, ps: seq<Pushed>, qs: seq<Pushed>, answers: nat -> Answer)
    requires Clean(ps) && Clean(qs) && forall p :: p in ps <==> p in qs
    ensures var (a, end) := Attempted(env, AfterPush(START, ps), answers);
            var (b, end') := Attempted(env, AfterPush(START, qs), answers);
            a.canon == b.canon && end == end'
  {
    SameBatch(ps, qs);
  }

  /** For a single apply: whatever the order of the pushes before it, it goes through exactly if nothing in the
      ops in clock order stops it. Then each slug has the pages that the reducer makes of these ops; and where
      they name one type between deletions, one page with the last title and the last body in clock order since
      its last deletion. */
  lemma PagesFollowTheClock(env: Env, ps: seq<Pushed>, os: seq<SyncOp>, answers: nat -> Answer, slug: string)
    requires Clean(ps) && Ascending(os) && forall o :: o in os <==> exists p :: p in ps && p.op == o
    ensures var (h, end) := Attempted(env, AfterPush(START, ps), answers);
            && (end.Through? <==> NothingStops(env, EMPTY, os, answers))
            && (end.Through? ==> h.canon == ApplyAll(env, EMPTY, os))
            && (end.Through? && Steady(os, slug) ==>
                  PageAt(env, h.canon, slug) == PageOf(env.sanitize, slug, TouchesSince(os, slug)))
  {
    var a := Pending(PushAll([], ps));
    PendingAfterPushes(ps);
    SortedAscends(a);
    assert forall x :: x in Sorted(a) <==> x in os;
    AscendingIsUnique(Sorted(a), os);
    AttemptedExactlyIf(env, AfterPush(START, ps), answers);
    if Steady(os, slug) {
      LastWriterIsSeen(env, os, slug);
    }
  }

  /** A second push of the same ops inserts nothing. */
  lemma {:induction false} RepeatedPushInsertsNothing(log: seq<OpRow>, ps: seq<Pushed>, again: seq<Pushed>)
    requires forall p :: p in again ==> p in ps
    ensures PushAll(PushAll(log, ps), again) == PushAll(log, ps)
    decreases |again|
  {
    if again != [] {
      var n := |again| - 1;
      assert again[n] in again;
      RepeatedPushInsertsNothing(log, ps, again[..n]);
      PushedIsKnown(log, ps, again[n]);
    }
  }

  lemma {:induction false} PushedIsKnown(log: seq<OpRow>, ps: seq<Pushed>, p: Pushed)
    requires p in ps
    ensures Known(PushAll(log, ps), p)
  {
    var n := |ps| - 1;
    var before := PushAll(log, ps[..n]);
    if p == ps[n] {
      if !Known(before, p) {
        assert PushAll(log, ps)[|before|] == OpRow(p.device, p.op, false);
      }
    } else {
      PushedIsKnown(log, ps[..n], p);
      var i :| 0 <= i < |before| && SameKey(before[i], p);
      assert PushAll(log, ps)[i] == before[i];
    }
  }

  // ---------------------------------------------------------------------------------------------
  // Applying in two rounds
  // ---------------------------------------------------------------------------------------------

  lemma {:induction false} PendingAppend(a: seq<OpRow>, b: seq<OpRow>)
    ensures Pending(a + b) == Pending(a) + Pending(b)
    decreases |b|
  {
    if b == [] {
      assert a + b == a;
    } else {
      assert (a + b)[..|a + b| - 1] == a + b[..|b| - 1];
      PendingAppend(a, b[..|b| - 1]);
    }
  }

  predicate AllPrecede(a: seq<SyncOp>, b: seq<SyncOp>) {
    forall i, j :: 0 <= i < |a| && 0 <= j < |b| ==> Precedes(a[i], b[j])
  }

  lemma SecondRoundPends(log: seq<OpRow>, more: seq<OpRow>)
    ensures Pending(AllApplied(log) + more) == Pending(more)
    ensures AllApplied(AllApplied(log) + more) == AllApplied(log + more)
  {
    PendingAppend(AllApplied(log), more);
    NothingPends(log);
  }

  /** Two applies that go through, the ops of the first all before those of the second, do what one apply
      does; and that one goes through exactly if, besides, the second writes no page that the first deleted. */
  lemma RoundsCompose(env: Env, log: seq<OpRow>, canon: Canon, more: seq<OpRow>,
                      answers: nat -> Answer)
    requires DistinctClocks(Pending(log)) && DistinctClocks(Pending(more)) && AllPrecede(Pending(log), Pending(more))
    requires Attempted(env, Hub(log, canon), answers).1.Through?
    ensures var first := Attempted(env, Hub(log, canon), answers).0;
            var later := From(answers, |Pending(log)|);
            var (apart, end) := Attempted(env, Hub(first.log + more, first.canon), later);
            var (together, end') := Attempted(env, Hub(log + more, canon), answers);
            && (end'.Through? <==> end.Through? && !Rewrites(env, canon, Sorted(Pending(log)), Sorted(Pending(more))))
            && (end.Through? && end'.Through? ==> apart == together)
  {
    var a, b := Sorted(Pending(log)), Sorted(Pending(more));
    SecondRoundPends(log, more);
    PendingAppend(log, more);
    SortedTogether(Pending(log), Pending(more));
    ApplyAllAppend(env, canon, a, b);
    AttemptedExactlyIf(env, Hub(log, canon), answers);
    var first := Attempted(env, Hub(log, canon), answers).0;
    assert first == Hub(AllApplied(log), ApplyAll(env, canon, a));
    AttemptedExactlyIf(env, Hub(first.log + more, first.canon), From(answers, |a|));
    AttemptedExactlyIf(env, Hub(log + more, canon), answers);
    TogetherExactlyIf(env, canon, a, b, answers);
  }

  lemma SortedTogether(a: seq<SyncOp>, b: seq<SyncOp>)
    requires DistinctClocks(a) && DistinctClocks(b) && AllPrecede(a, b)
    ensures Sorted(a + b) == Sorted(a) + Sorted(b)
  {
    forall i, j | 0 <= i < j < |a + b|
      ensures !SameClock((a + b)[i], (a + b)[j])
    {
      assert i < |a| <= j ==> Precedes(a[i], b[j - |a|]);
    }
    SortedAscends(a + b);
    SortedAscends(a);
    SortedAscends(b);
    var s := Sorted(a) + Sorted(b);
    forall i, j | 0 <= i < |Sorted(a)| && 0 <= j < |Sorted(b)|
      ensures Precedes(Sorted(a)[i], Sorted(b)[j])
    {
      assert Sorted(a)[i] in a && Sorted(b)[j] in b;
      var k :| 0 <= k < |a| && a[k] == Sorted(a)[i];
      var m :| 0 <= m < |b| && b[m] == Sorted(b)[j];
      assert Precedes(a[k], b[m]);
    }
    assert Ascending(s);
    forall x
      ensures x in Sorted(a + b) <==> x in s
    {
      assert x in Sorted(a + b) <==> x in a + b;
      assert x in s <==> x in Sorted(a) || x in Sorted(b);
    }
    AscendingIsUnique(Sorted(a + b), s);
  }
}
