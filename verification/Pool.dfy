/** The three-state credential pool (qcue-rs/router/src/pool.rs), with times in milliseconds. */
module Pool {
  import opened Common

  datatype Status = Healthy | Cooling(until: int) | Dead

  datatype Cred = Cred(id: nat, hint: string, priority: int, status: Status)

  const MAX_COOLDOWN_MS := 5 * 60 * 1000

  function TtlForStatus(status: nat): int { if status == 401 then 30 * 1000 else 60 * 1000 }

  predicate Ready(s: Status, now: int) { s.Healthy? || (s.Cooling? && now >= s.until) }

  predicate Eligible(c: Cred, now: int) { Ready(c.status, now) }

  /** `i` is eligible, nothing eligible ranks before it, and nothing earlier in the list ranks with it. */
  predicate FirstChoice(entries: seq<Cred>, now: int, i: nat) {
    && i < |entries| && Eligible(entries[i], now)
    && forall j :: 0 <= j < |entries| && Eligible(entries[j], now) ==>
                     entries[i].priority <= entries[j].priority && (j < i ==> entries[i].priority < entries[j].priority)
  }

  /** The choice among these entries. */
  function Best(entries: seq<Cred>, now: int): (r: Option<nat>)
    ensures r.None? <==> forall j :: 0 <= j < |entries| ==> !Eligible(entries[j], now)
    ensures r.Some? ==> FirstChoice(entries, now, r.value)
  {
    if entries == [] then None
    else
      var n := |entries| - 1;
      var r := Best(entries[..n], now);
      assert forall j :: 0 <= j < n ==> entries[..n][j] == entries[j];
      if Eligible(entries[n], now) && (r.None? || entries[n].priority < entries[r.value].priority) then Some(n) else r
  }

  lemma ChoiceIsUnique(entries: seq<Cred>, now: int, i: nat, j: nat)
    requires FirstChoice(entries, now, i) && FirstChoice(entries, now, j)
    ensures i == j
  {
  }

  /** The first entry with this hint. */
  function Find(entries: seq<Cred>, hint: string): (r: Option<nat>)
    ensures r.Some? ==> r.value < |entries| && entries[r.value].hint == hint
                        && forall j :: 0 <= j < r.value ==> entries[j].hint != hint
    ensures r.None? ==> forall j :: 0 <= j < |entries| ==> entries[j].hint != hint
  {
    if entries == [] then None
    else if entries[0].hint == hint then Some(0)
    else
      match Find(entries[1..], hint)
      case Some(k) => Some(k + 1)
      case None => None
  }

  function Marked(entries: seq<Cred>, hint: string, status: Status): seq<Cred> {
    match Find(entries, hint)
    case Some(i) => entries[i := entries[i].(status := status)]
    case None => entries
  }

  /** When a failing credential may be tried again: the provider's hint or a default, but never later than
      MAX_COOLDOWN_MS from now. */
  function CooldownEnd(status: nat, resetAt: Option<int>, now: int): int {
    Min(resetAt.GetOr(now + TtlForStatus(status)), now + MAX_COOLDOWN_MS)
  }

  /** A penalty lasts half a minute for a 401 and a minute otherwise, unless the provider says until when; and
      never more than five minutes. */
  lemma PenaltyLength(status: nat, resetAt: Option<int>, now: int)
    ensures resetAt.None? && status == 401 ==> CooldownEnd(status, resetAt, now) - now == 30_000
    ensures resetAt.None? && status != 401 ==> CooldownEnd(status, resetAt, now) - now == 60_000
    ensures resetAt.Some? ==> CooldownEnd(status, resetAt, now) == Min(resetAt.value, now + 300_000)
  {
  }

  predicate Heals(entries: seq<Cred>, hint: string) {
    Find(entries, hint).Some? && entries[Find(entries, hint).value].status.Cooling?
  }

  class CredentialPool {
    var entries: seq<Cred>

    constructor (loaded: seq<Cred>)
      ensures entries == loaded
    {
      entries := loaded;
    }

    /** Fill-first: the eligible entry of lowest priority number, the earliest among equals. */
    method Select(now: int) returns (r: Option<nat>)
      ensures r == Best(entries, now)
    {
      r := None;
      for i := 0 to |entries|
        invariant r.None? ==> forall j :: 0 <= j < i ==> !Eligible(entries[j], now)
        invariant r.Some? ==> r.value < i && FirstChoice(entries[..i], now, r.value)
      {
        assert forall j :: 0 <= j < i ==> entries[..i][j] == entries[j];
        if Eligible(entries[i], now) && (r.None? || entries[i].priority < entries[r.value].priority) {
          r := Some(i);
        }
      }
      assert entries[..|entries|] == entries;
      if r.Some? {
        ChoiceIsUnique(entries, now, r.value, Best(entries, now).value);
      }
    }

    method Mark(hint: string, status: Status)
      modifies this
      ensures entries == Marked(old(entries), hint, status)
    {
      var i := Find(entries, hint);
      if i.Some? {
        entries := entries[i.value := entries[i.value].(status := status)];
      }
    }

    /** Penalises the credential that failed, and says whether another one can be tried now. */
    method MarkExhaustedAndRotate(status: nat, resetAt: Option<int>, hint: string, now: int) returns (next: Option<nat>)
      modifies this
      ensures entries == Marked(old(entries), hint, Cooling(CooldownEnd(status, resetAt, now)))
      ensures next == Best(entries, now)
    {
      var until := if resetAt.Some? then resetAt.value else now + TtlForStatus(status);
      if until > now + MAX_COOLDOWN_MS {
        until := now + MAX_COOLDOWN_MS;
      }
      Mark(hint, Cooling(until));
      next := Select(now);
    }

    /** Clears a cooldown and says whether there was one; a dead credential stays dead. */
    method MarkOk(hint: string) returns (healed: bool)
      modifies this
      ensures healed == Heals(old(entries), hint)
      ensures entries == if healed then Marked(old(entries), hint, Healthy) else old(entries)
    {
      healed := false;
      var i := Find(entries, hint);
      if i.Some? && entries[i.value].status.Cooling? {
        entries := entries[i.value := entries[i.value].(status := Healthy)];
        healed := true;
      }
    }

    method MarkDead(hint: string)
      modifies this
      ensures entries == Marked(old(entries), hint, Dead)
    {
      Mark(hint, Dead);
    }
  }
}
