/** Loading a provider's pool from its rows and writing it back (qcue-rs/app-server/src/dispatch/resolver.rs). */
module Resolver {
  import opened Common
  import opened Pool

  datatype DbStatus = DbOk | DbExhausted | DbDead

  /** A row of the credentials table; the cooldown may be NULL. */
  datatype Row = Row(id: nat, hint: string, priority: int, status: DbStatus, cooldown: Option<int>)

  function StatusFromDb(r: Row): Status {
    match r.status
    case DbDead => Dead
    case DbExhausted => Cooling(r.cooldown.GetOr(0))
    case DbOk => Healthy
  }

  function EntryOf(r: Row): Cred { Cred(r.id, r.hint, r.priority, StatusFromDb(r)) }

  /** One UPDATE. The cooldown is stored as a delay from the database's now, the remaining time being taken
      by the server's clock at `nowMs`. */
  function Written(r: Row, status: Status, nowMs: int, dbNow: int): Row {
    match status
    case Dead => if r.status == DbDead then r else r.(status := DbDead)
    case Cooling(until) => r.(status := DbExhausted, cooldown := Some(dbNow + Max(until - nowMs, 0)))
    case Healthy => if r.status == DbExhausted then r.(status := DbOk, cooldown := None) else r
  }

  function WriteBack(r: Row, entries: seq<Cred>, nowMs: int, dbNow: int): Row {
    match Find(entries, r.hint)
    case Some(i) => Written(r, entries[i].status, nowMs, dbNow)
    case None => r
  }

  function WrittenBack(rows: seq<Row>, entries: seq<Cred>, nowMs: int, dbNow: int): seq<Row> {
    seq(|rows|, k requires 0 <= k < |rows| => WriteBack(rows[k], entries, nowMs, dbNow))
  }

  /** Every row whose hint the pool knows takes the pool's status, in one transaction. */
  method PersistTransitions(rows: seq<Row>, entries: seq<Cred>, nowMs: int, dbNow: int) returns (out: seq<Row>)
    ensures out == WrittenBack(rows, entries, nowMs, dbNow)
  {
    out := [];
    for i := 0 to |rows|
      invariant |out| == i
      invariant forall k :: 0 <= k < i ==> out[k] == WriteBack(rows[k], entries, nowMs, dbNow)
    {
      var row := rows[i];
      var at := Find(entries, row.hint);
      if at.Some? {
        match entries[at.value].status {
          case Dead =>
            if row.status != DbDead { row := row.(status := DbDead); }
          case Cooling(until) =>
            var remaining := if until > nowMs then until - nowMs else 0;
            row := row.(status := DbExhausted, cooldown := Some(dbNow + remaining));
          case Healthy =>
            if row.status == DbExhausted { row := row.(status := DbOk, cooldown := None); }
        }
      }
      out := out + [row];
    }
  }

  predicate Distinct(rows: seq<Row>) {
    forall i, j :: 0 <= i < j < |rows| ==> rows[i].hint != rows[j].hint && rows[i].id != rows[j].id
  }

  function Load(rows: seq<Row>): seq<Cred> { seq(|rows|, k requires 0 <= k < |rows| => EntryOf(rows[k])) }

  /** What becomes of a status on its way through the database. */
  predicate Survives(before: Status, after: Status, nowMs: int, dbNow: int) {
    match before
    case Dead => after.Dead?
    case Cooling(u) => after == Cooling(dbNow + Max(u - nowMs, 0))
    case Healthy => after.Healthy?
  }

  /** With distinct hints, storing a pool and loading it again keeps every status; cooldowns keep the time
      that was left. */
  lemma StoreAndLoad(rows: seq<Row>, entries: seq<Cred>, nowMs: int, dbNow: int, k: nat)
    requires Distinct(rows) && |entries| == |rows| && k < |rows|
    requires forall j :: 0 <= j < |rows| ==> entries[j].hint == rows[j].hint
    requires entries[k].status.Healthy? ==> rows[k].status != DbDead
    ensures Survives(entries[k].status, StatusFromDb(WrittenBack(rows, entries, nowMs, dbNow)[k]), nowMs, dbNow)
    ensures Distinct(WrittenBack(rows, entries, nowMs, dbNow))
    ensures WrittenBack(rows, entries, nowMs, dbNow)[k].id == rows[k].id
  {
    assert entries[k].hint == rows[k].hint;
    assert Find(entries, rows[k].hint) == Some(k);
    assert WrittenBack(rows, entries, nowMs, dbNow)[k] == Written(rows[k], entries[k].status, nowMs, dbNow);
    KeepsKeys(rows, entries, nowMs, dbNow);
  }

  lemma KeepsKeys(rows: seq<Row>, entries: seq<Cred>, nowMs: int, dbNow: int)
    ensures var out := WrittenBack(rows, entries, nowMs, dbNow);
            |out| == |rows| && forall j :: 0 <= j < |rows| ==> out[j].id == rows[j].id && out[j].hint == rows[j].hint
    ensures Distinct(rows) ==> Distinct(WrittenBack(rows, entries, nowMs, dbNow))
  {
  }
}
