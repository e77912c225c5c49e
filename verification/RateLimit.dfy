/** The fixed-window request limiter with reaping (qcue-rs/app-server/src/middleware.rs, bump_and_check).
    Time is a number of milliseconds that never goes back. */
module RateLimit {
  import opened Common

  const WINDOW: nat := 60 * 1000
  const MAX_TRACKED_KEYS: nat := 100_000

  datatype Bucket = Bucket(count: nat, windowStart: nat)

  datatype Request = Request(key: string, limit: nat, now: nat)

  // ---------------------------------------------------------------------------------------------
  // The reference: one bucket per key, never forgotten
  // ---------------------------------------------------------------------------------------------

  /** The bucket after a request of its key, which starts a new window when the old one has elapsed. */
  function Bump(b: Option<Bucket>, now: nat): Bucket {
    match b
    case None => Bucket(1, now)
    case Some(b) => if now - b.windowStart >= WINDOW then Bucket(1, now) else Bucket(b.count + 1, b.windowStart)
  }

  /** The bucket of `key` after these requests. */
  function BucketOf(rs: seq<Request>, key: string): Option<Bucket> {
    if rs == [] then None
    else
      var n := |rs| - 1;
      if rs[n].key == key then Some(Bump(BucketOf(rs[..n], key), rs[n].now)) else BucketOf(rs[..n], key)
  }

  /** Whether the request after `rs` is over its limit. */
  predicate Over(rs: seq<Request>, r: Request) { Bump(BucketOf(rs, r.key), r.now).count > r.limit }

  predicate Timely(rs: seq<Request>) {
    forall i, j :: 0 <= i < j < |rs| ==> rs[i].now <= rs[j].now
  }

  // ---------------------------------------------------------------------------------------------
  // The limiter
  // ---------------------------------------------------------------------------------------------

  type Table = map<string, Bucket>

  predicate Fresh(b: Bucket, now: nat) { now - b.windowStart < WINDOW }

  /** At the cap, every bucket whose window has elapsed is dropped. */
  function Reaped(t: Table, now: nat): Table {
    if |t| >= MAX_TRACKED_KEYS then map k | k in t && Fresh(t[k], now) :: t[k] else t
  }

  function Entry(t: Table, key: string): Option<Bucket> { if key in t then Some(t[key]) else None }

  function After(t: Table, r: Request): Table {
    Reaped(t, r.now)[r.key := Bump(Entry(Reaped(t, r.now), r.key), r.now)]
  }

  class Limiter {
    var buckets: Table

    constructor ()
      ensures buckets == map[]
    {
      buckets := map[];
    }

    method BumpAndCheck(key: string, limit: nat, now: nat) returns (over: bool)
      modifies this
      ensures buckets == After(old(buckets), Request(key, limit, now))
      ensures key in buckets && over == (buckets[key].count > limit)
    {
      if |buckets| >= MAX_TRACKED_KEYS {
        buckets := map k | k in buckets && now - buckets[k].windowStart < WINDOW :: buckets[k];
      }
      var bucket := if key in buckets then buckets[key] else Bucket(0, now);
      if now - bucket.windowStart >= WINDOW {
        bucket := Bucket(0, now);
      }
      bucket := bucket.(count := bucket.count + 1);
      buckets := buckets[key := bucket];
      over := bucket.count > limit;
    }
  }

  /** The limiter's table after these requests, from an empty one. */
  function TableOf(rs: seq<Request>): Table {
    if rs == [] then map[] else After(TableOf(rs[..|rs| - 1]), rs[|rs| - 1])
  }

  // ---------------------------------------------------------------------------------------------
  // Reaping changes no answer
  // ---------------------------------------------------------------------------------------------

  /** The table holds what the reference holds, or lacks a bucket that has run out by `now`. */
  predicate Faithful(t: Table, b: Option<Bucket>, key: string, now: nat) {
    if key in t then b == Some(t[key]) else b.None? || !Fresh(b.value, now)
  }

  lemma {:induction false} TableIsFaithful(rs: seq<Request>, key: string)
    requires Timely(rs) && rs != []
    ensures Faithful(TableOf(rs), BucketOf(rs, key), key, rs[|rs| - 1].now)
  {
    var n := |rs| - 1;
    var before, r := rs[..n], rs[n];
    if before == [] {
      assert TableOf(before) == map[] && BucketOf(before, key).None?;
    } else {
      assert before[|before| - 1].now <= r.now;
      TableIsFaithful(before, key);
    }
    StepIsFaithful(TableOf(before), BucketOf(before, key), key, r);
  }

  /** A bucket that has run out counts like a missing one. */
  lemma StepIsFaithful(t: Table, b: Option<Bucket>, key: string, r: Request)
    requires Faithful(t, b, key, r.now)
    ensures Faithful(After(t, r), if r.key == key then Some(Bump(b, r.now)) else b, key, r.now)
  {
  }

  /** The answer to every request is that of a limiter which never forgets a bucket. */
  lemma ReapingIsInvisible(rs: seq<Request>, r: Request)
    requires Timely(rs + [r])
    ensures r.key in After(TableOf(rs), r)
    ensures After(TableOf(rs), r)[r.key].count > r.limit <==> Over(rs, r)
  {
    var all := rs + [r];
    assert all[..|all| - 1] == rs;
    TableIsFaithful(all, r.key);
  }

  /** And it keeps the table small: it holds more than MAX_TRACKED_KEYS buckets only while all of them are of
      windows that still run. */
  lemma TableIsBounded(rs: seq<Request>, key: string)
    requires rs != [] && |TableOf(rs)| > 100_000 && key in TableOf(rs)
    ensures rs[|rs| - 1].now - TableOf(rs)[key].windowStart < 60_000
  {
    var r := rs[|rs| - 1];
    var t := TableOf(rs[..|rs| - 1]);
    var kept := Reaped(t, r.now);
    assert TableOf(rs) == kept[r.key := Bump(Entry(kept, r.key), r.now)];
    assert TableOf(rs).Keys == kept.Keys + {r.key};
    assert |TableOf(rs).Keys| <= |kept.Keys| + 1;
    assert |t| < 100_000 ==> kept == t;
  }

  // ---------------------------------------------------------------------------------------------
  // How many requests get through
  // ---------------------------------------------------------------------------------------------

  /** Requests of `key` with a time in [from, from + WINDOW). */
  predicate Within(r: Request, key: string, from: nat) { r.key == key && from <= r.now < from + WINDOW }

  /** How many of those were let through. */
  function Admitted(rs: seq<Request>, key: string, from: nat): nat {
    if rs == [] then 0
    else
      var n := |rs| - 1;
      Admitted(rs[..n], key, from) + (if Within(rs[n], key, from) && !Over(rs[..n], rs[n]) then 1 else 0)
  }

  /** All requests of `key` are made under the same limit (the key names the route class). */
  predicate Uniform(rs: seq<Request>, key: string, limit: nat) {
    forall k :: 0 <= k < |rs| && rs[k].key == key ==> rs[k].limit == limit
  }

  /** A window that was already open when the interval began let its first request through before it. */
  function Carried(limit: nat): nat { if limit == 0 then 0 else limit - 1 }

  /** The windows that reach into the interval: at most one older one, and one that opened inside it. */
  lemma {:induction false} AdmittedSoFar(rs: seq<Request>, key: string, limit: nat, from: nat)
    requires Timely(rs) && Uniform(rs, key, limit)
    ensures var b, a := BucketOf(rs, key), Admitted(rs, key, from);
            match b
            case None => a == 0
            case Some(b) =>
              b.count >= 1 &&
              if b.windowStart >= from + WINDOW then a <= Carried(limit) + limit
              else if b.windowStart >= from then a <= Carried(limit) + Min(b.count, limit)
              else a <= Min(b.count - 1, Carried(limit))
    ensures rs != [] && rs[|rs| - 1].now < from ==> Admitted(rs, key, from) == 0
    ensures BucketOf(rs, key).Some? ==> rs != [] && BucketOf(rs, key).value.windowStart <= rs[|rs| - 1].now
  {
    if rs != [] {
      var n := |rs| - 1;
      AdmittedSoFar(rs[..n], key, limit, from);
      assert n > 0 ==> rs[..n][n - 1] == rs[n - 1] && rs[n - 1].now <= rs[n].now;
    }
  }

  /** In any minute, wherever it starts, fewer than twice the limit get through. */
  lemma FewerThanTwiceTheLimit(rs: seq<Request>, key: string, limit: nat, from: nat)
    requires Timely(rs) && Uniform(rs, key, limit)
    ensures Admitted(rs, key, from) <= Carried(limit) + limit
  {
    AdmittedSoFar(rs, key, limit, from);
  }

  /** One request opens a window, the rest of its allowance comes at its very end, and the next window's
      allowance right after. */
  function WorstCase(key: string, limit: nat, late: nat, next: nat): seq<Request>
    decreases late + next
  {
    if next > 0 then WorstCase(key, limit, late, next - 1) + [Request(key, limit, WINDOW)]
    else if late > 0 then WorstCase(key, limit, late - 1, 0) + [Request(key, limit, WINDOW - 1)]
    else [Request(key, limit, 0)]
  }

  /** One more request of the same key, let through inside the interval. */
  lemma OneMoreIsAdmitted(rs: seq<Request>, r: Request, from: nat)
    requires Timely(rs) && Uniform(rs, r.key, r.limit)
    requires rs != [] ==> rs[|rs| - 1].now <= r.now
    requires Within(r, r.key, from) && !Over(rs, r)
    ensures Timely(rs + [r]) && Uniform(rs + [r], r.key, r.limit)
    ensures Admitted(rs + [r], r.key, from) == Admitted(rs, r.key, from) + 1
    ensures BucketOf(rs + [r], r.key) == Some(Bump(BucketOf(rs, r.key), r.now))
  {
    var all := rs + [r];
    assert all[..|all| - 1] == rs;
  }

  /** These requests are all at one limit, `admitted` of them got through from time 1 on, and this is the
      bucket they left at time `now`. */
  ghost predicate Leaves(rs: seq<Request>, key: string, limit: nat, admitted: nat, b: Bucket, now: nat) {
    && Timely(rs) && Uniform(rs, key, limit)
    && Admitted(rs, key, 1) == admitted
    && BucketOf(rs, key) == Some(b)
    && rs != [] && rs[|rs| - 1].now == now
  }

  lemma StepLeaves(rs: seq<Request>, key: string, limit: nat, admitted: nat, b: Bucket, before: nat, now: nat)
    requires Leaves(rs, key, limit, admitted, b, before) && before <= now
    requires 1 <= now <= WINDOW && Bump(Some(b), now).count <= limit
    ensures Leaves(rs + [Request(key, limit, now)], key, limit, admitted + 1, Bump(Some(b), now), now)
  {
    OneMoreIsAdmitted(rs, Request(key, limit, now), 1);
  }

  lemma FirstLeaves(key: string, limit: nat)
    ensures Leaves([Request(key, limit, 0)], key, limit, 0, Bucket(1, 0), 0)
  {
    var r := Request(key, limit, 0);
    assert [r][..0] == [];
    assert BucketOf([r], key) == Some(Bump(BucketOf([r][..0], key), 0));
  }

  lemma {:induction false} LateLeaves(key: string, limit: nat, late: nat)
    requires late < limit
    ensures Leaves(WorstCase(key, limit, late, 0), key, limit, late, Bucket(1 + late, 0),
                   if late > 0 then WINDOW - 1 else 0)
  {
    if late == 0 {
      FirstLeaves(key, limit);
    } else {
      LateLeaves(key, limit, late - 1);
      StepLeaves(WorstCase(key, limit, late - 1, 0), key, limit, late - 1, Bucket(late, 0),
                 if late > 1 then WINDOW - 1 else 0, WINDOW - 1);
    }
  }

  lemma {:induction false} WorstCaseLeaves(key: string, limit: nat, late: nat, next: nat)
    requires late < limit && 1 <= next <= limit
    ensures Leaves(WorstCase(key, limit, late, next), key, limit, late + next, Bucket(next, WINDOW), WINDOW)
  {
    if next == 1 {
      LateLeaves(key, limit, late);
      StepLeaves(WorstCase(key, limit, late, 0), key, limit, late, Bucket(1 + late, 0),
                 if late > 0 then WINDOW - 1 else 0, WINDOW);
    } else {
      WorstCaseLeaves(key, limit, late, next - 1);
      StepLeaves(WorstCase(key, limit, late, next - 1), key, limit, late + next - 1, Bucket(next - 1, WINDOW),
                 WINDOW, WINDOW);
    }
  }

  /** The bound is reached, so it cannot be improved. */
  lemma TheBoundIsReached(key: string, limit: nat)
    requires limit >= 1
    ensures exists rs :: Timely(rs) && Uniform(rs, key, limit) && Admitted(rs, key, 1) == Carried(limit) + limit
  {
    WorstCaseLeaves(key, limit, limit - 1, limit);
    var rs := WorstCase(key, limit, limit - 1, limit);
    assert Timely(rs) && Uniform(rs, key, limit) && Admitted(rs, key, 1) == Carried(limit) + limit;
  }

  function CountWithin(rs: seq<Request>, key: string, from: int): nat {
    if rs == [] then 0
    else
      var n := |rs| - 1;
      CountWithin(rs[..n], key, from) + (if rs[n].key == key && rs[n].now >= from then 1 else 0)
  }

  lemma {:induction false} BucketCountsWindow(rs: seq<Request>, key: string)
    requires Timely(rs) && BucketOf(rs, key).Some?
    ensures var b := BucketOf(rs, key).value;
            1 <= b.count <= CountWithin(rs, key, b.windowStart) && b.windowStart <= rs[|rs| - 1].now
  {
    var n := |rs| - 1;
    if BucketOf(rs[..n], key).Some? {
      BucketCountsWindow(rs[..n], key);
      assert rs[n - 1].now <= rs[n].now;
    }
  }

  lemma {:induction false} CountIsMonotone(rs: seq<Request>, key: string, from: int, later: int)
    requires from <= later
    ensures CountWithin(rs, key, later) <= CountWithin(rs, key, from)
  {
    if rs != [] {
      CountIsMonotone(rs[..|rs| - 1], key, from, later);
    }
  }

  /** Nobody is refused without having made more than `limit` requests, this one included, in the last minute. */
  lemma RefusalIsEarned(rs: seq<Request>, r: Request)
    requires Timely(rs + [r]) && Over(rs, r)
    ensures CountWithin(rs + [r], r.key, r.now - WINDOW + 1) > r.limit
  {
    var all := rs + [r];
    assert all[..|all| - 1] == rs;
    BucketCountsWindow(all, r.key);
    var b := BucketOf(all, r.key).value;
    StartIsRecent(rs, r);
    CountIsMonotone(all, r.key, r.now - WINDOW + 1, b.windowStart);
  }

  lemma StartIsRecent(rs: seq<Request>, r: Request)
    ensures r.now - Bump(BucketOf(rs, r.key), r.now).windowStart < WINDOW
  {
  }
}
