/** What a provider call answers, and what each turn of it leads to, told by what the outside world did. */
module DispatchAnswers {
  import opened Common
  import C = Classify
  import opened Pool
  import opened Resolver
  import opened Dispatch
  import opened DispatchSafety
  import B = DispatchBounds

  // ---------------------------------------------------------------------------------------------
  // One turn
  // ---------------------------------------------------------------------------------------------

  function PoolAt(links: seq<string>, s: State): seq<Cred>
    requires s.idx < |links|
  {
    Load(RowsOf(s.store, links[s.idx]))
  }

  /** The credential that the turn takes. */
  function Picked(links: seq<string>, s: State, a: Attempt): Option<nat>
    requires s.idx < |links|
  {
    if a.loadFails then None else Best(PoolAt(links, s), s.clock + a.waitMs)
  }

  /** The turn sends a request. */
  predicate Asks(links: seq<string>, s: State, a: Attempt)
    requires s.idx < |links|
  {
    Picked(links, s, a).Some? && !a.decryptFails && !a.insecure
  }

  /** And gets to see what comes back. */
  predicate Hears(links: seq<string>, s: State, a: Attempt)
    requires s.idx < |links|
  {
    Asks(links, s, a) && !a.cancelledInFlight
  }

  /** What the turn by itself comes to. */
  function Verdict(links: seq<string>, s: State, a: Attempt): Result<(), Failure>
    requires s.idx < |links|
  {
    if a.loadFails || PoolAt(links, s) == [] then Err(NoCredentials)
    else if Picked(links, s, a).None? then Err(NoEligible)
    else if a.decryptFails then Err(DecryptFailed)
    else if a.insecure then Err(InsecureUrl)
    else if a.cancelledInFlight then Err(Cancelled)
    else if a.reply == Success(true) then Ok(())
    else if a.reply == Success(false) then Err(BadBody)
    else if a.reply == Unreachable then Err(Network)
    else Err(Http(a.reply.status))
  }

  /** What an error status leads to, going by the status and the message; see Classify. */
  function ActionOn(r: Reply): C.Action { if r.ErrorStatus? then C.Expected(r.status, r.message) else C.Abort }

  /** The turn hears an error that leads to this. */
  predicate LeadsTo(links: seq<string>, s: State, a: Attempt, action: C.Action, to: C.Action)
    requires s.idx < |links|
  {
    Hears(links, s, a) && a.reply.ErrorStatus? && action == to
  }

  /** As long as the provider asks for, or half a minute for a 401 and a minute otherwise; at most five minutes. */
  function PenaltyEnd(links: seq<string>, s: State, a: Attempt): int
    requires s.idx < |links| && a.reply.ErrorStatus?
  {
    s.clock + a.waitMs + Min(a.reply.resetMs.GetOr(if a.reply.status == 401 then 30_000 else 60_000), 300_000)
  }

  /** With the failing credential penalised there is one left that is eligible: another one, or the same if its
      penalty is over at once. */
  predicate OneIsLeft(links: seq<string>, s: State, a: Attempt)
    requires s.idx < |links| && Picked(links, s, a).Some? && a.reply.ErrorStatus?
  {
    exists j :: 0 <= j < |PoolAt(links, s)| && Eligible(PoolAt(links, s)[j], s.clock + a.waitMs)
                && (j != Picked(links, s, a).value || PenaltyEnd(links, s, a) <= s.clock + a.waitMs)
  }

  /** The turn goes on with the same provider. */
  predicate Rotates(links: seq<string>, s: State, a: Attempt, action: C.Action)
    requires s.idx < |links|
  {
    LeadsTo(links, s, a, action, C.Rotate) && OneIsLeft(links, s, a)
  }

  /** The turn ends the call: with an answer, or where a failure is final, or with no link left to go to. */
  predicate Ends(links: seq<string>, s: State, a: Attempt, action: C.Action)
    requires s.idx < |links|
  {
    || (Picked(links, s, a).Some? && !a.decryptFails && (a.insecure || a.cancelledInFlight || a.reply.Success?))
    || LeadsTo(links, s, a, action, C.Abort)
    || (s.idx + 1 == |links| && !Rotates(links, s, a, action))
  }

  /** The error that a turn leaves for the end of the call. */
  function LeftBehind(links: seq<string>, s: State, a: Attempt): Option<Failure>
    requires s.idx < |links|
  {
    if Hears(links, s, a) && !a.reply.Success? && Verdict(links, s, a).Err? then Some(Verdict(links, s, a).error)
    else None
  }

  lemma DecidesAsExpected(r: Reply)
    requires r.ErrorStatus?
    ensures Decide(r).action == ActionOn(r) != C.Backoff
    ensures Decide(r).fatal <==> C.Condemns(r.message)
  {
    C.StatusDecides(r.status, r.message);
    C.CondemnedExactlyIf(r.status, r.message);
  }

  lemma IdleIsUnpicked(links: seq<string>, s: State, a: Attempt)
    requires s.idx < |links|
    ensures Idle(links, s, a) <==> Picked(links, s, a).None?
    ensures Picked(links, s, a).Some? ==> Chosen(links, s, a) == PoolAt(links, s)[Picked(links, s, a).value]
  {
    assert RowsOf(s.store, links[s.idx]) == [] ==> PoolAt(links, s) == [];
  }

  lemma OneIsLeftIs(links: seq<string>, s: State, a: Attempt)
    requires s.idx < |links| && WellKeyed(s.store) && Picked(links, s, a).Some? && a.reply.ErrorStatus?
    ensures var pool := PoolAt(links, s);
            var marked := Marked(pool, pool[Picked(links, s, a).value].hint, Cooling(PenaltyEnd(links, s, a)));
            OneIsLeft(links, s, a) <==> Best(marked, s.clock + a.waitMs).Some?
  {
    var rows, k, now := RowsOf(s.store, links[s.idx]), Picked(links, s, a).value, s.clock + a.waitMs;
    assert rows == [] || Distinct(rows);
    MarkedAt(rows, k, Cooling(PenaltyEnd(links, s, a)));
    var marked := Marked(Load(rows), rows[k].hint, Cooling(PenaltyEnd(links, s, a)));
    assert forall j :: 0 <= j < |rows| ==>
        (Eligible(marked[j], now) <==> if j == k then PenaltyEnd(links, s, a) <= now else Eligible(Load(rows)[j], now));
    assert Eligible(Load(rows)[k], now);
  }

  /** The turn as it is taken, with the classifier's decision. */
  function TurnOf(links: seq<string>, s: State, a: Attempt): (State, Outcome)
    requires s.idx < |links|
  {
    Step(links, s, a, Decide(a.reply))
  }

  lemma AdvanceIs(links: seq<string>, s: State, left: Option<Failure>, otherwise: Failure)
    ensures var (s', o) := Advance(links, s, left, otherwise);
            if s.idx + 1 < |links| then o == Again(left) && s' == s.(idx := s.idx + 1)
            else o == Done(Err(otherwise)) && s' == s
  {
  }

  lemma RotateIs(d: Decision, links: seq<string>, s: State, provider: string, pool: seq<Cred>, c: Cred, a: Attempt,
                 now: int, until: int)
    requires d.action.Rotate? && a.reply.ErrorStatus?
    requires until == CooldownEnd(a.reply.status, ResetAt(a.reply, now), now)
    ensures var (s', o) := OnError(d, links, s, provider, pool, c, a, now);
            var left, err := Best(Marked(pool, c.hint, Cooling(until)), now).Some?, Http(a.reply.status);
            && (o == if left || s.idx + 1 < |links| then Again(Some(err)) else Done(Err(err)))
            && s'.idx == if !left && s.idx + 1 < |links| then s.idx + 1 else s.idx
  {
    var s' := AfterRotate(s, provider, pool, c, a, now);
    assert s'.idx == s.idx;
    AdvanceIs(links, s', Some(Http(a.reply.status)), Http(a.reply.status));
  }

  lemma OtherErrorIs(d: Decision, links: seq<string>, s: State, provider: string, pool: seq<Cred>, c: Cred, a: Attempt,
                     now: int)
    requires (d.action.Fallback? || d.action.Compress? || d.action.Abort?) && a.reply.ErrorStatus?
    ensures var (s', o) := OnError(d, links, s, provider, pool, c, a, now);
            var err := Http(a.reply.status);
            && (o == if !d.action.Abort? && s.idx + 1 < |links| then Again(Some(err)) else Done(Err(err)))
            && (o.Again? ==> s'.idx == s.idx + 1)
  {
    AdvanceIs(links, s, Some(Http(a.reply.status)), Http(a.reply.status));
  }

  lemma ErrorEnds(links: seq<string>, s: State, a: Attempt, action: C.Action, left: bool)
    requires s.idx < |links| && Hears(links, s, a) && a.reply.ErrorStatus? && left == OneIsLeft(links, s, a)
    ensures Rotates(links, s, a, action) <==> action.Rotate? && left
    ensures Ends(links, s, a, action) <==> action.Abort? || (s.idx + 1 == |links| && !(action.Rotate? && left))
    ensures Verdict(links, s, a) == Err(Http(a.reply.status)) && LeftBehind(links, s, a) == Some(Http(a.reply.status))
  {
    assert PoolAt(links, s) != [];
  }

  /** What an error status comes to; `left` says whether the pool has an eligible credential left. */
  predicate ErrorFacts(links: seq<string>, s: State, a: Attempt, action: C.Action, left: bool, next: State, o: Outcome)
    requires a.reply.ErrorStatus?
  {
    var ends := action.Abort? || (s.idx + 1 >= |links| && !(action.Rotate? && left));
    && (o == if ends then Done(Err(Http(a.reply.status))) else Again(Some(Http(a.reply.status))))
    && (o.Again? ==> next.idx == if action.Rotate? && left then s.idx else s.idx + 1)
  }

  lemma ErrorOutcome(links: seq<string>, s: State, a: Attempt, d: Decision, sent: State, provider: string,
                     pool: seq<Cred>, c: Cred, left: bool, now: int, until: int)
    requires s.idx < |links| && a.reply.ErrorStatus? && !d.action.Backoff? && sent.idx == s.idx
    requires until == CooldownEnd(a.reply.status, ResetAt(a.reply, now), now)
    requires left == Best(Marked(pool, c.hint, Cooling(until)), now).Some?
    ensures var r := OnError(d, links, sent, provider, pool, c, a, now);
            ErrorFacts(links, s, a, d.action, left, r.0, r.1)
  {
    if d.action.Rotate? {
      RotateIs(d, links, sent, provider, pool, c, a, now, until);
    } else {
      OtherErrorIs(d, links, sent, provider, pool, c, a, now);
    }
  }

  /** The turn comes to this. */
  predicate ComesTo(links: seq<string>, s: State, a: Attempt, action: C.Action, next: State, o: Outcome)
    requires s.idx < |links|
  {
    && (o.Done? <==> Ends(links, s, a, action))
    && (o.Done? ==> o.answer == Verdict(links, s, a))
    && (o.Again? ==> o.err == LeftBehind(links, s, a)
                     && next.idx == if Rotates(links, s, a, action) then s.idx else s.idx + 1)
  }

  lemma NothingPicked(links: seq<string>, s: State, a: Attempt, d: Decision)
    requires s.idx < |links| && Picked(links, s, a).None?
    ensures ComesTo(links, s, a, d.action, Step(links, s, a, d).0, Step(links, s, a, d).1)
  {
    IdleIsUnpicked(links, s, a);
    AdvanceIs(links, s.(clock := s.clock + a.waitMs), None, NoCredentials);
    AdvanceIs(links, s.(clock := s.clock + a.waitMs), None, NoEligible);
  }

  lemma NothingHeard(links: seq<string>, s: State, a: Attempt, d: Decision)
    requires s.idx < |links| && Picked(links, s, a).Some? && !Hears(links, s, a)
    ensures ComesTo(links, s, a, d.action, Step(links, s, a, d).0, Step(links, s, a, d).1)
  {
    IdleIsUnpicked(links, s, a);
    StepUses(links, s, a, d);
    AdvanceIs(links, s.(clock := s.clock + a.waitMs), None, DecryptFailed);
  }

  lemma NoErrorHeard(links: seq<string>, s: State, a: Attempt, d: Decision)
    requires s.idx < |links| && Hears(links, s, a) && !a.reply.ErrorStatus?
    ensures ComesTo(links, s, a, d.action, Step(links, s, a, d).0, Step(links, s, a, d).1)
  {
    IdleIsUnpicked(links, s, a);
    StepUses(links, s, a, d);
    var chosen, c := s.(clock := s.clock + a.waitMs), Chosen(links, s, a);
    AdvanceIs(links, Requested(chosen, links[s.idx], c.id, a), Some(Network), Network);
  }

  lemma UseOfError(d: Decision, links: seq<string>, s: State, provider: string, pool: seq<Cred>, c: Cred, a: Attempt)
    requires !a.decryptFails && !a.insecure && !a.cancelledInFlight && a.reply.ErrorStatus?
    ensures Use(d, links, s, provider, pool, c, a)
         == OnError(d, links, Requested(s, provider, c.id, a), provider, pool, c, a, s.clock)
  {
  }

  lemma ErrorComesTo(links: seq<string>, s: State, a: Attempt, next: State, o: Outcome, action: C.Action, left: bool)
    requires s.idx < |links| && Hears(links, s, a) && a.reply.ErrorStatus? && left == OneIsLeft(links, s, a)
    requires ErrorFacts(links, s, a, action, left, next, o)
    ensures ComesTo(links, s, a, action, next, o)
  {
    ErrorEnds(links, s, a, action, left);
  }

  lemma StepFacts(links: seq<string>, s: State, a: Attempt, d: Decision, c: Cred, left: bool, until: int)
    requires s.idx < |links| && Hears(links, s, a) && a.reply.ErrorStatus? && !d.action.Backoff?
    requires c == PoolAt(links, s)[Picked(links, s, a).value] && until == PenaltyEnd(links, s, a)
    requires left == Best(Marked(PoolAt(links, s), c.hint, Cooling(until)), s.clock + a.waitMs).Some?
    ensures ErrorFacts(links, s, a, d.action, left, Step(links, s, a, d).0, Step(links, s, a, d).1)
  {
    var chosen := s.(clock := s.clock + a.waitMs);
    ErrorStep(links, s, a, d, chosen, c);
    ErrorOutcome(links, s, a, d, Requested(chosen, links[s.idx], c.id, a), links[s.idx], PoolAt(links, s), c, left,
                 chosen.clock, until);
  }

  lemma ErrorHeard(links: seq<string>, s: State, a: Attempt, d: Decision, left: bool, next: State, o: Outcome)
    requires s.idx < |links| && WellKeyed(s.store) && Hears(links, s, a) && a.reply.ErrorStatus? && !d.action.Backoff?
    requires left == OneIsLeft(links, s, a) && (next, o) == Step(links, s, a, d)
    ensures ErrorFacts(links, s, a, d.action, left, next, o)
  {
    OneIsLeftIs(links, s, a);
    StepFacts(links, s, a, d, PoolAt(links, s)[Picked(links, s, a).value], left, PenaltyEnd(links, s, a));
  }

  lemma ErrorStep(links: seq<string>, s: State, a: Attempt, d: Decision, chosen: State, c: Cred)
    requires s.idx < |links| && Hears(links, s, a) && a.reply.ErrorStatus?
    requires chosen == s.(clock := s.clock + a.waitMs) && c == PoolAt(links, s)[Picked(links, s, a).value]
    ensures Step(links, s, a, d) == OnError(d, links, Requested(chosen, links[s.idx], c.id, a), links[s.idx],
                                            PoolAt(links, s), c, a, chosen.clock)
  {
    IdleIsUnpicked(links, s, a);
    StepUses(links, s, a, d);
    UseOfError(d, links, chosen, links[s.idx], PoolAt(links, s), c, a);
  }

  lemma StepComesTo(links: seq<string>, s: State, a: Attempt, d: Decision)
    requires s.idx < |links| && WellKeyed(s.store) && (a.reply.ErrorStatus? ==> !d.action.Backoff?)
    ensures ComesTo(links, s, a, d.action, Step(links, s, a, d).0, Step(links, s, a, d).1)
  {
    if Picked(links, s, a).None? {
      NothingPicked(links, s, a, d);
    } else if !Hears(links, s, a) {
      NothingHeard(links, s, a, d);
    } else if !a.reply.ErrorStatus? {
      NoErrorHeard(links, s, a, d);
    } else {
      var left, r := OneIsLeft(links, s, a), Step(links, s, a, d);
      ErrorHeard(links, s, a, d, left, r.0, r.1);
      ErrorComesTo(links, s, a, r.0, r.1, d.action, left);
    }
  }

  /** A turn ends the call exactly if it is one that ends it, and then the call answers what the turn comes to.
      Otherwise it goes on, with the same provider exactly if it rotates, and else with the next. */
  lemma TurnComesTo(links: seq<string>, s: State, a: Attempt)
    requires s.idx < |links| && WellKeyed(s.store)
    ensures ComesTo(links, s, a, ActionOn(a.reply), TurnOf(links, s, a).0, TurnOf(links, s, a).1)
  {
    if a.reply.ErrorStatus? {
      DecidesAsExpected(a.reply);
    }
    StepComesTo(links, s, a, Decide(a.reply));
  }

  // ---------------------------------------------------------------------------------------------
  // What a turn leaves: its requests and penalties, and the rows
  // ---------------------------------------------------------------------------------------------

  /** The requests, penalties and deaths of a turn. */
  function Noted(links: seq<string>, s: State, a: Attempt, action: C.Action, fatal: bool): seq<Event>
    requires s.idx < |links|
  {
    if !Asks(links, s, a) then []
    else
      var provider, id, now := links[s.idx], PoolAt(links, s)[Picked(links, s, a).value].id, s.clock + a.waitMs;
      if LeadsTo(links, s, a, action, C.Rotate)
      then [Sent(provider, id, now), Penalised(provider, id, now, PenaltyEnd(links, s, a), a.stored)]
      else if LeadsTo(links, s, a, action, C.Abort) && fatal
      then [Sent(provider, id, now), Killed(provider, id, a.stored)]
      else [Sent(provider, id, now)]
  }

  /** A turn that picks a credential sends a request with it, unless the key cannot be used; and penalises or condemns
      it exactly if the answer calls for that. */
  lemma StepNotes(links: seq<string>, s: State, a: Attempt, d: Decision)
    requires s.idx < |links| && (a.reply.ErrorStatus? ==> !d.action.Backoff?)
    ensures Step(links, s, a, d).0.log == s.log + Noted(links, s, a, d.action, d.fatal)
  {
    IdleIsUnpicked(links, s, a);
    if Picked(links, s, a).None? {
      IdleIsForward(links, s, a, d);
      assert s.log + [] == s.log;
    } else {
      var provider, chosen := links[s.idx], s.(clock := s.clock + a.waitMs);
      var c := PoolAt(links, s)[Picked(links, s, a).value];
      StepUses(links, s, a, d);
      B.UseLogs(d, links, chosen, provider, PoolAt(links, s), c, a);
      UsesAreNoted(links, s, a, d, provider, c, chosen.clock);
    }
  }

  lemma ErrorsAreNoted(d: Decision, provider: string, c: Cred, a: Attempt, now: int, until: int)
    requires a.reply.ErrorStatus? && !d.action.Backoff?
    requires until == CooldownEnd(a.reply.status, ResetAt(a.reply, now), now)
    ensures B.ErrorEvents(d, provider, c, a, now)
         == if d.action.Rotate? then [Penalised(provider, c.id, now, until, a.stored)]
            else if d.action.Abort? && d.fatal then [Killed(provider, c.id, a.stored)]
            else []
  {
  }

  lemma UsesAreNoted(links: seq<string>, s: State, a: Attempt, d: Decision, provider: string, c: Cred, now: int)
    requires s.idx < |links| && (a.reply.ErrorStatus? ==> !d.action.Backoff?) && Picked(links, s, a).Some?
    requires provider == links[s.idx] && c == PoolAt(links, s)[Picked(links, s, a).value] && now == s.clock + a.waitMs
    ensures B.UseEvents(d, provider, c, a, now) == Noted(links, s, a, d.action, d.fatal)
  {
    var sent := Sent(provider, c.id, now);
    assert [sent] + [] == [sent];
    if Hears(links, s, a) && a.reply.ErrorStatus? {
      ErrorsAreNoted(d, provider, c, a, now, PenaltyEnd(links, s, a));
      assert forall e: Event :: [sent] + [e] == [sent, e];
    }
  }

  /** What becomes of the credential that the turn took: a cooldown is over, a penalty, or death. */
  function NewStatus(links: seq<string>, s: State, a: Attempt, action: C.Action, fatal: bool): Option<Status>
    requires s.idx < |links|
  {
    if !Hears(links, s, a) then None
    else if a.reply.Success? then
      if PoolAt(links, s)[Picked(links, s, a).value].status.Cooling? then Some(Healthy) else None
    else if LeadsTo(links, s, a, action, C.Rotate) then Some(Cooling(PenaltyEnd(links, s, a)))
    else if LeadsTo(links, s, a, action, C.Abort) && fatal then Some(Dead)
    else None
  }

  lemma PickedIsFound(links: seq<string>, s: State, a: Attempt, k: nat)
    requires s.idx < |links| && WellKeyed(s.store) && Picked(links, s, a) == Some(k)
    ensures links[s.idx] in s.store && Distinct(s.store[links[s.idx]]) && k < |s.store[links[s.idx]]|
    ensures Find(PoolAt(links, s), s.store[links[s.idx]][k].hint) == Some(k)
    ensures PoolAt(links, s)[k] == EntryOf(s.store[links[s.idx]][k])
  {
    var rows := RowsOf(s.store, links[s.idx]);
    assert PoolAt(links, s)[k].hint == rows[k].hint;
  }

  /** The store after a write-back at `written` in which row k has this status; with none, or where the
      write-back fails, it stays. */
  function StoreMarked(store: Store, provider: string, k: nat, status: Option<Status>, a: Attempt, written: int)
    : Store
  {
    if status.None? || !a.stored || provider !in store || k >= |store[provider]| then store
    else store[provider := After(store[provider], k, status.value, written, written + a.writeLagMs)]
  }

  /** The store after a turn in which the credential taken gets this status. */
  function StoreAfter(links: seq<string>, s: State, a: Attempt, status: Option<Status>): Store
    requires s.idx < |links|
  {
    StoreMarked(s.store, links[s.idx], Picked(links, s, a).GetOr(0), status, a, s.clock + a.waitMs + a.latencyMs)
  }

  /** Of the rows only that of the picked credential changes, and only if it heals, is penalised or condemned. */
  lemma StepStores(links: seq<string>, s: State, a: Attempt, d: Decision)
    requires s.idx < |links| && WellKeyed(s.store) && (a.reply.ErrorStatus? ==> !d.action.Backoff?)
    ensures Step(links, s, a, d).0.store == StoreAfter(links, s, a, NewStatus(links, s, a, d.action, d.fatal))
  {
    IdleIsUnpicked(links, s, a);
    if Picked(links, s, a).Some? {
      var k := Picked(links, s, a).value;
      PickedIsFound(links, s, a, k);
      StepUses(links, s, a, d);
      UseStores(links, s, a, d, s.(clock := s.clock + a.waitMs), links[s.idx], s.store[links[s.idx]], k);
    }
  }

  /** What a write-back of the pool leaves in which this status is marked. */
  function Marking(s: State, provider: string, pool: seq<Cred>, hint: string, status: Option<Status>, a: Attempt)
    : Store
  {
    if status.Some? then Stored(s, provider, Marked(pool, hint, status.value), a, s.clock).store else s.store
  }

  /** What an error status does to the credential. */
  function ErrorStatusOf(d: Decision, until: int): Option<Status> {
    if d.action.Rotate? then Some(Cooling(until)) else if d.action.Abort? && d.fatal then Some(Dead) else None
  }

  lemma ErrorStores(d: Decision, links: seq<string>, s: State, provider: string, pool: seq<Cred>, c: Cred, a: Attempt,
                    now: int, until: int)
    requires a.reply.ErrorStatus? && !d.action.Backoff?
    requires until == CooldownEnd(a.reply.status, ResetAt(a.reply, now), now)
    ensures OnError(d, links, s, provider, pool, c, a, now).0.store
         == Marking(s, provider, pool, c.hint, ErrorStatusOf(d, until), a)
  {
    if d.action.Rotate? {
      AdvanceIs(links, AfterRotate(s, provider, pool, c, a, now), Some(Http(a.reply.status)), Http(a.reply.status));
    } else if !d.action.Abort? {
      AdvanceIs(links, s, Some(Http(a.reply.status)), Http(a.reply.status));
    }
  }

  lemma MarkingIs(s: State, provider: string, rows: seq<Row>, k: nat, status: Option<Status>, a: Attempt)
    requires provider in s.store && rows == s.store[provider] && k < |rows|
    ensures Marking(s, provider, Load(rows), rows[k].hint, status, a)
         == StoreMarked(s.store, provider, k, status, a, s.clock)
  {
  }

  function ReplyStatus(d: Decision, pool: seq<Cred>, hint: string, r: Reply, now: int): Option<Status> {
    match r
    case Unreachable => None
    case Success(_) => if Heals(pool, hint) then Some(Healthy) else None
    case ErrorStatus(status, _, _) => ErrorStatusOf(d, CooldownEnd(status, ResetAt(r, now), now))
  }

  lemma HeardStores(d: Decision, links: seq<string>, s: State, provider: string, pool: seq<Cred>, c: Cred, a: Attempt,
                    sent: State, status: Option<Status>)
    requires !a.decryptFails && !a.insecure && !a.cancelledInFlight && (a.reply.ErrorStatus? ==> !d.action.Backoff?)
    requires sent == Requested(s, provider, c.id, a) && status == ReplyStatus(d, pool, c.hint, a.reply, s.clock)
    ensures Use(d, links, s, provider, pool, c, a).0.store == Marking(sent, provider, pool, c.hint, status, a)
  {
    match a.reply
    case Unreachable => AdvanceIs(links, sent, Some(Network), Network);
    case Success(_) =>
    case ErrorStatus(code, _, _) =>
      UseOfError(d, links, s, provider, pool, c, a);
      ErrorStores(d, links, sent, provider, pool, c, a, s.clock, CooldownEnd(code, ResetAt(a.reply, s.clock), s.clock));
  }

  lemma UnheardStores(d: Decision, links: seq<string>, s: State, provider: string, pool: seq<Cred>, c: Cred, a: Attempt)
    requires a.decryptFails || a.insecure || a.cancelledInFlight
    ensures Use(d, links, s, provider, pool, c, a).0.store == s.store
  {
    AdvanceIs(links, s, None, DecryptFailed);
  }

  lemma HeardStatus(links: seq<string>, s: State, a: Attempt, d: Decision, k: nat)
    requires s.idx < |links| && (a.reply.ErrorStatus? ==> !d.action.Backoff?) && Picked(links, s, a) == Some(k)
    requires Hears(links, s, a) && Find(PoolAt(links, s), PoolAt(links, s)[k].hint) == Some(k)
    ensures NewStatus(links, s, a, d.action, d.fatal)
         == ReplyStatus(d, PoolAt(links, s), PoolAt(links, s)[k].hint, a.reply, s.clock + a.waitMs)
  {
  }

  lemma MarkedStore(links: seq<string>, s: State, a: Attempt, sent: State, provider: string, rows: seq<Row>, k: nat,
                    status: Option<Status>)
    requires s.idx < |links| && Picked(links, s, a) == Some(k) && provider == links[s.idx] && sent.store == s.store
    requires provider in s.store && rows == s.store[provider] && k < |rows|
    requires sent.clock == s.clock + a.waitMs + a.latencyMs
    ensures Marking(sent, provider, Load(rows), rows[k].hint, status, a) == StoreAfter(links, s, a, status)
  {
    MarkingIs(sent, provider, rows, k, status, a);
  }

  lemma RequestedIs(s: State, provider: string, id: nat, a: Attempt)
    ensures Requested(s, provider, id, a).store == s.store
    ensures Requested(s, provider, id, a).clock == s.clock + a.latencyMs
  {
  }

  lemma UseStores(links: seq<string>, s: State, a: Attempt, d: Decision, chosen: State, provider: string,
                  rows: seq<Row>, k: nat)
    requires s.idx < |links| && (a.reply.ErrorStatus? ==> !d.action.Backoff?) && Picked(links, s, a) == Some(k)
    requires chosen == s.(clock := s.clock + a.waitMs) && provider == links[s.idx]
    requires provider in s.store && rows == s.store[provider] && k < |rows| && Find(Load(rows), rows[k].hint) == Some(k)
    ensures Use(d, links, chosen, provider, Load(rows), Load(rows)[k], a).0.store
         == StoreAfter(links, s, a, NewStatus(links, s, a, d.action, d.fatal))
  {
    if Hears(links, s, a) {
      HeardStatus(links, s, a, d, k);
      var c, status := Load(rows)[k], NewStatus(links, s, a, d.action, d.fatal);
      var sent := Requested(chosen, provider, c.id, a);
      RequestedIs(chosen, provider, c.id, a);
      HeardStores(d, links, chosen, provider, Load(rows), c, a, sent, status);
      MarkedStore(links, s, a, sent, provider, rows, k, status);
    } else {
      UnheardStores(d, links, chosen, provider, Load(rows), Load(rows)[k], a);
    }
  }

  // ---------------------------------------------------------------------------------------------
  // The turn after a rotation
  // ---------------------------------------------------------------------------------------------

  lemma RotateTakesTime(links: seq<string>, s: State, a: Attempt, d: Decision)
    requires s.idx < |links| && WellKeyed(s.store) && Hears(links, s, a) && a.reply.ErrorStatus? && d.action.Rotate?
    ensures Step(links, s, a, d).0.clock == s.clock + a.waitMs + a.latencyMs + a.writeLagMs
  {
    var chosen, c := s.(clock := s.clock + a.waitMs), PoolAt(links, s)[Picked(links, s, a).value];
    var sent := Requested(chosen, links[s.idx], c.id, a);
    ErrorStep(links, s, a, d, chosen, c);
    var s' := AfterRotate(sent, links[s.idx], PoolAt(links, s), c, a, chosen.clock);
    AdvanceIs(links, s', Some(Http(a.reply.status)), Http(a.reply.status));
  }

  /** Row k was marked cooling, the rows were written back, and are loaded again. */
  predicate Reloaded(rows: seq<Row>, k: nat, until: int, nowMs: int, dbNow: int, rows': seq<Row>) {
    k < |rows| && rows' == After(rows, k, Cooling(until), nowMs, dbNow)
  }

  lemma ReloadedPriority(rows: seq<Row>, k: nat, until: int, nowMs: int, dbNow: int, rows': seq<Row>, j: nat)
    requires Reloaded(rows, k, until, nowMs, dbNow, rows') && j < |rows|
    ensures |rows'| == |rows| && rows'[j].priority == rows[j].priority
  {
    assert rows'[j] == WriteBack(rows[j], Marked(Load(rows), rows[k].hint, Cooling(until)), nowMs, dbNow);
  }

  lemma ReloadedStatus(rows: seq<Row>, k: nat, until: int, now: int, nowMs: int, dbNow: int, rows': seq<Row>, j: nat,
                       later: int)
    requires Reloaded(rows, k, until, nowMs, dbNow, rows') && Distinct(rows) && j < |rows|
    requires Ready(StatusFromDb(rows[k]), now) && now <= nowMs <= dbNow <= later
    ensures |rows'| == |rows|
    ensures j == k ==> StatusFromDb(rows'[j]) == Cooling(dbNow + Max(until - nowMs, 0))
    ensures j != k && Ready(StatusFromDb(rows[j]), now) ==> Ready(StatusFromDb(rows'[j]), later)
    ensures j == k && until <= now ==> Ready(StatusFromDb(rows'[j]), later)
  {
    RowAfter(rows, k, Cooling(until), now, nowMs, dbNow, j);
  }

  /** The pool with the penalty, before it was written back. */
  function WithPenalty(rows: seq<Row>, k: nat, until: int): seq<Cred>
    requires k < |rows|
  {
    Load(rows)[k := Load(rows)[k].(status := Cooling(until))]
  }

  /** What is eligible before the write-back is eligible after it. */
  lemma StaysEligible(rows: seq<Row>, k: nat, until: int, now: int, nowMs: int, dbNow: int, rows': seq<Row>, later: int)
    requires Reloaded(rows, k, until, nowMs, dbNow, rows') && Distinct(rows)
    requires Ready(StatusFromDb(rows[k]), now) && now <= nowMs <= dbNow <= later
    ensures |rows'| == |rows|
    ensures forall j :: 0 <= j < |rows| && Eligible(WithPenalty(rows, k, until)[j], now) ==>
                          Eligible(Load(rows')[j], later)
    ensures forall j :: 0 <= j < |rows| ==> Load(rows')[j].priority == WithPenalty(rows, k, until)[j].priority
  {
    forall j | 0 <= j < |rows|
      ensures |rows'| == |rows|
      ensures Eligible(WithPenalty(rows, k, until)[j], now) ==> Eligible(Load(rows')[j], later)
      ensures Load(rows')[j].priority == WithPenalty(rows, k, until)[j].priority
    {
      ReloadedStatus(rows, k, until, now, nowMs, dbNow, rows', j, later);
      ReloadedPriority(rows, k, until, nowMs, dbNow, rows', j);
    }
    ReloadedPriority(rows, k, until, nowMs, dbNow, rows', k);
  }

  lemma SameFirstChoice(a: seq<Cred>, b: seq<Cred>, now: int, later: int)
    requires |a| == |b| && forall j :: 0 <= j < |a| ==> a[j].priority == b[j].priority
    requires forall j :: 0 <= j < |a| ==> (Eligible(a[j], now) <==> Eligible(b[j], later))
    ensures Best(a, now) == Best(b, later)
  {
    var x, y := Best(a, now), Best(b, later);
    if x.Some? && y.Some? {
      assert FirstChoice(a, now, y.value);
      ChoiceIsUnique(a, now, x.value, y.value);
    }
  }

  /** After a rotation whose penalty was stored, the next turn has a credential of the same provider to take: not
      the penalised one before the end of its penalty, and the one that was left, unless another cooldown has
      ended meanwhile. */
  lemma RotationGoesOn(rows: seq<Row>, k: nat, until: int, now: int, nowMs: int, dbNow: int, rows': seq<Row>,
                       later: int)
    requires Reloaded(rows, k, until, nowMs, dbNow, rows') && Distinct(rows)
    requires Ready(StatusFromDb(rows[k]), now) && now <= nowMs <= dbNow <= later
    requires Best(WithPenalty(rows, k, until), now).Some?
    ensures |rows'| == |rows| && Best(Load(rows'), later).Some?
    ensures later < dbNow + (until - nowMs) ==> Best(Load(rows'), later) != Some(k)
    ensures (forall j :: 0 <= j < |rows| && Eligible(Load(rows')[j], later) ==>
                           Eligible(WithPenalty(rows, k, until)[j], now))
            ==> Best(Load(rows'), later) == Best(WithPenalty(rows, k, until), now)
  {
    var marked, loaded := WithPenalty(rows, k, until), Load(rows');
    StaysEligible(rows, k, until, now, nowMs, dbNow, rows', later);
    ReloadedStatus(rows, k, until, now, nowMs, dbNow, rows', k, later);
    var b := Best(marked, now).value;
    assert Eligible(loaded[b], later);
    if forall j :: 0 <= j < |rows| && Eligible(loaded[j], later) ==> Eligible(marked[j], now) {
      SameFirstChoice(marked, loaded, now, later);
    }
  }

  lemma RotateStatus(links: seq<string>, s: State, a: Attempt, action: C.Action, fatal: bool)
    requires s.idx < |links| && LeadsTo(links, s, a, action, C.Rotate)
    ensures NewStatus(links, s, a, action, fatal) == Some(Cooling(PenaltyEnd(links, s, a)))
  {
  }

  /** A state after a rotation: the penalty is stored, if it could be, and the turn's time has passed. */
  predicate RotatedTo(links: seq<string>, s: State, a: Attempt, next: State)
    requires s.idx < |links| && a.reply.ErrorStatus?
  {
    && next.clock == s.clock + a.waitMs + a.latencyMs + a.writeLagMs
    && next.store == StoreAfter(links, s, a, Some(Cooling(PenaltyEnd(links, s, a))))
  }

  lemma StepRotates(links: seq<string>, s: State, a: Attempt, d: Decision)
    requires s.idx < |links| && WellKeyed(s.store) && LeadsTo(links, s, a, d.action, C.Rotate)
    ensures RotatedTo(links, s, a, Step(links, s, a, d).0)
  {
    StepStores(links, s, a, d);
    RotateStatus(links, s, a, d.action, d.fatal);
    RotateTakesTime(links, s, a, d);
  }

  /** A rotating turn stays on its link, and leaves the rows with the failing credential penalised. */
  lemma TurnRotates(links: seq<string>, s: State, a: Attempt)
    requires s.idx < |links| && WellKeyed(s.store) && LeadsTo(links, s, a, ActionOn(a.reply), C.Rotate)
    ensures RotatedTo(links, s, a, TurnOf(links, s, a).0)
  {
    DecidesAsExpected(a.reply);
    StepRotates(links, s, a, Decide(a.reply));
  }

  lemma RowsFound(store: Store, provider: string, rows: seq<Row>, store': Store)
    requires store' == store[provider := rows]
    ensures RowsOf(store', provider) == rows
  {
  }

  lemma MarkedRows(store: Store, provider: string, rows: seq<Row>, k: nat, status: Status, a: Attempt, written: int,
                   dbNow: int, store': Store, rows': seq<Row>)
    requires provider in store && rows == store[provider] && k < |rows| && a.stored && dbNow == written + a.writeLagMs
    requires store' == StoreMarked(store, provider, k, Some(status), a, written)
    requires rows' == After(rows, k, status, written, dbNow)
    ensures RowsOf(store', provider) == rows'
  {
    RowsFound(store, provider, rows', store[provider := rows']);
  }

  /** The rows that are loaded after a rotation are those that it has written back. */
  lemma RotationReloads(links: seq<string>, s: State, a: Attempt, k: nat, next: State, provider: string, rows: seq<Row>,
                        until: int, written: int)
    requires s.idx < |links| && a.reply.ErrorStatus? && a.stored && Picked(links, s, a) == Some(k)
    requires RotatedTo(links, s, a, next) && until == PenaltyEnd(links, s, a)
    requires written == s.clock + a.waitMs + a.latencyMs
    requires provider == links[s.idx] && provider in s.store && rows == s.store[provider] && k < |rows|
    ensures Reloaded(rows, k, until, written, next.clock, RowsOf(next.store, provider))
  {
    var rows' := After(rows, k, Cooling(until), written, next.clock);
    assert next.store == StoreMarked(s.store, provider, k, Some(Cooling(until)), a, written);
    MarkedRows(s.store, provider, rows, k, Cooling(until), a, written, next.clock, next.store, rows');
  }

  // ---------------------------------------------------------------------------------------------
  // The whole call
  // ---------------------------------------------------------------------------------------------

  /** A loop of turns: what a turn makes of the state, whether it is the last, what it comes to then, and the
      error it leaves behind otherwise. */
  datatype Loop = Loop(
    turn: (State, nat) -> State,
    ends: (State, nat) -> bool,
    verdict: (State, nat) -> Result<(), Failure>,
    left: (State, nat) -> Option<Failure>)

  /** The state before turn k. */
  function StateAt(l: Loop, s: State, k: nat): State {
    if k == 0 then s else l.turn(StateAt(l, s, k - 1), k - 1)
  }

  /** The last error that the turns before k have left. */
  function LastError(l: Loop, s: State, k: nat): Failure {
    if k == 0 then NotAttempted else l.left(StateAt(l, s, k - 1), k - 1).GetOr(LastError(l, s, k - 1))
  }

  /** In turn k a call is over: it is cancelled before it, has had sixteen turns, or ends in it. */
  predicate IsOver(script: nat -> Attempt, l: Loop, s: State, k: nat) {
    k <= 16 && (script(k).cancelled || k == 16 || l.ends(StateAt(l, s, k), k))
  }

  predicate LastTurn(script: nat -> Attempt, l: Loop, s: State, k: nat) {
    IsOver(script, l, s, k) && forall i :: 0 <= i < k ==> !IsOver(script, l, s, i)
  }

  /** What a call answers whose last turn is turn k. */
  function AnswerAt(script: nat -> Attempt, l: Loop, s: State, k: nat): Result<(), Failure> {
    if script(k).cancelled then Err(Cancelled)
    else if k == 16 then Err(LastError(l, s, k))
    else l.verdict(StateAt(l, s, k), k)
  }

  /** The turns of a provider call. */
  function TurnsOf(links: seq<string>, script: nat -> Attempt): Loop {
    Loop((s: State, k: nat) => if s.idx < |links| then TurnOf(links, s, script(k)).0 else s,
         (s: State, k: nat) => s.idx < |links| && Ends(links, s, script(k), ActionOn(script(k).reply)),
         (s: State, k: nat) => if s.idx < |links| then Verdict(links, s, script(k)) else Ok(()),
         (s: State, k: nat) => if s.idx < |links| then LeftBehind(links, s, script(k)) else None)
  }

  /** `run` is that loop, from any turn on, in states that are `fine`. */
  ghost predicate RunsAs(script: nat -> Attempt, l: Loop, run: (State, nat, Failure) -> Result<(), Failure>,
                         fine: State -> bool) {
    forall s, k, last :: fine(s) && 0 <= k <= 16 ==> RunsAt(script, l, run, fine, s, k, last)
  }

  predicate RunsAt(script: nat -> Attempt, l: Loop, run: (State, nat, Failure) -> Result<(), Failure>,
                   fine: State -> bool, s: State, k: nat, last: Failure) {
    && (script(k).cancelled ==> run(s, k, last) == Err(Cancelled))
    && (!script(k).cancelled && k == 16 ==> run(s, k, last) == Err(last))
    && (!script(k).cancelled && k < 16 && l.ends(s, k) ==> run(s, k, last) == l.verdict(s, k))
    && (!script(k).cancelled && k < 16 && !l.ends(s, k) ==>
          fine(l.turn(s, k)) && run(s, k, last) == run(l.turn(s, k), k + 1, l.left(s, k).GetOr(last)))
  }

  lemma {:induction false} LoopEnds(script: nat -> Attempt, l: Loop, run: (State, nat, Failure) -> Result<(), Failure>,
                                    fine: State -> bool, s: State, k: nat) returns (n: nat)
    requires RunsAs(script, l, run, fine) && fine(StateAt(l, s, k)) && k <= 16
    requires forall i :: 0 <= i < k ==> !IsOver(script, l, s, i)
    ensures LastTurn(script, l, s, n)
    ensures run(StateAt(l, s, k), k, LastError(l, s, k)) == AnswerAt(script, l, s, n)
    decreases 16 - k
  {
    assert RunsAt(script, l, run, fine, StateAt(l, s, k), k, LastError(l, s, k));
    if IsOver(script, l, s, k) {
      n := k;
    } else {
      n := LoopEnds(script, l, run, fine, s, k + 1);
    }
  }

  lemma OneLastTurn(script: nat -> Attempt, l: Loop, s: State, i: nat, k: nat)
    requires LastTurn(script, l, s, i) && LastTurn(script, l, s, k)
    ensures i == k
  {
  }

  lemma RunOneMore(links: seq<string>, s: State, script: nat -> Attempt, k: nat, last: Failure)
    requires s.idx < |links| && k < MAX_ATTEMPTS && !script(k).cancelled
    ensures var (next, o) := TurnOf(links, s, script(k));
            && next.idx < |links|
            && Run(links, s, script, k, last)
               == match o
                  case Done(answer) => (next, answer)
                  case Again(err) => Run(links, next, script, k + 1, err.GetOr(last))
  {
    StepIsForward(links, s, script(k), Decide(script(k).reply));
  }

  /** From a turn that ends the call the loop returns; from another it goes on. */
  lemma TurnEndsOrNot(links: seq<string>, s: State, script: nat -> Attempt, k: nat, last: Failure, action: C.Action,
                      next: State, o: Outcome)
    requires s.idx < |links| && k < MAX_ATTEMPTS && !script(k).cancelled
    requires ComesTo(links, s, script(k), action, next, o) && (next, o) == TurnOf(links, s, script(k))
    ensures next.idx < |links|
    ensures Run(links, s, script, k, last).1
         == if Ends(links, s, script(k), action) then Verdict(links, s, script(k))
            else Run(links, next, script, k + 1, LeftBehind(links, s, script(k)).GetOr(last)).1
  {
    RunOneMore(links, s, script, k, last);
  }

  predicate Fine(links: seq<string>, s: State) { s.idx < |links| && Invariant(s) }

  lemma TurnStaysFine(links: seq<string>, s: State, a: Attempt)
    requires Fine(links, s)
    ensures Fine(links, TurnOf(links, s, a).0)
  {
    StepIsForward(links, s, a, Decide(a.reply));
    StepKeeps(links, s, a, Decide(a.reply));
  }

  function RunFrom(links: seq<string>, script: nat -> Attempt): (State, nat, Failure) -> Result<(), Failure> {
    (s: State, k: nat, last: Failure) =>
      if s.idx < |links| && k <= 16 then Run(links, s, script, k, last).1 else Ok(())
  }

  lemma CallRunsAt(links: seq<string>, script: nat -> Attempt, s: State, k: nat, last: Failure)
    requires Fine(links, s) && k < 16 && !script(k).cancelled
    ensures Fine(links, TurnOf(links, s, script(k)).0)
    ensures Run(links, s, script, k, last).1
         == if Ends(links, s, script(k), ActionOn(script(k).reply)) then Verdict(links, s, script(k))
            else Run(links, TurnOf(links, s, script(k)).0, script, k + 1, LeftBehind(links, s, script(k)).GetOr(last)).1
  {
    TurnComesTo(links, s, script(k));
    TurnStaysFine(links, s, script(k));
    TurnEndsOrNot(links, s, script, k, last, ActionOn(script(k).reply), TurnOf(links, s, script(k)).0,
                  TurnOf(links, s, script(k)).1);
  }

  lemma CallRuns(links: seq<string>, script: nat -> Attempt)
    ensures RunsAs(script, TurnsOf(links, script), RunFrom(links, script), s => Fine(links, s))
  {
    var fine := s => Fine(links, s);
    forall s, k, last | fine(s) && 0 <= k <= 16
      ensures RunsAt(script, TurnsOf(links, script), RunFrom(links, script), fine, s, k, last)
    {
      if k < 16 && !script(k).cancelled {
        CallRunsAt(links, script, s, k, last);
      }
    }
  }

  lemma NothingToRecall(s: State)
    requires WellKeyed(s.store) && s.log == []
    ensures Invariant(s)
  {
  }

  /** Every call has one last turn, within sixteen, and answers what that one comes to. */
  lemma CallAnswers(links: seq<string>, s: State, script: nat -> Attempt) returns (n: nat)
    requires s.idx < |links| && WellKeyed(s.store) && s.log == []
    ensures LastTurn(script, TurnsOf(links, script), s, n)
    ensures Completed(links, s, script).1 == AnswerAt(script, TurnsOf(links, script), s, n)
    ensures forall k :: LastTurn(script, TurnsOf(links, script), s, k) ==> k == n
  {
    NothingToRecall(s);
    CallRuns(links, script);
    n := LoopEnds(script, TurnsOf(links, script), RunFrom(links, script), s => Fine(links, s), s, 0);
    forall k | LastTurn(script, TurnsOf(links, script), s, k)
      ensures k == n
    {
      OneLastTurn(script, TurnsOf(links, script), s, k, n);
    }
  }

  lemma VerdictIsOk(links: seq<string>, s: State, a: Attempt)
    requires s.idx < |links|
    ensures Verdict(links, s, a).Ok? <==> Hears(links, s, a) && a.reply == Success(true)
  {
    assert Hears(links, s, a) ==> PoolAt(links, s) != [];
  }

  lemma AnswerIsOk(links: seq<string>, s: State, script: nat -> Attempt, k: nat, before: State)
    requires before == StateAt(TurnsOf(links, script), s, k) && before.idx < |links|
    ensures AnswerAt(script, TurnsOf(links, script), s, k).Ok?
            <==> k != 16 && !script(k).cancelled && Hears(links, before, script(k)) && script(k).reply == Success(true)
  {
    VerdictIsOk(links, before, script(k));
  }

  lemma {:induction false} StaysInRange(links: seq<string>, s: State, script: nat -> Attempt, k: nat)
    requires s.idx < |links|
    ensures StateAt(TurnsOf(links, script), s, k).idx < |links|
  {
    if k > 0 {
      StaysInRange(links, s, script, k - 1);
      var before := StateAt(TurnsOf(links, script), s, k - 1);
      StepIsForward(links, before, script(k - 1), Decide(script(k - 1).reply));
    }
  }

  /** A call answers with a response exactly if its last turn has sent a request, was not cancelled, and got a
      success whose body could be read. */
  lemma AnswersOkExactlyIf(links: seq<string>, s: State, script: nat -> Attempt) returns (n: nat)
    requires s.idx < |links| && WellKeyed(s.store) && s.log == []
    ensures LastTurn(script, TurnsOf(links, script), s, n) && StateAt(TurnsOf(links, script), s, n).idx < |links|
    ensures Completed(links, s, script).1.Ok?
            <==> n < 16 && !script(n).cancelled && script(n).reply == Success(true)
                 && Hears(links, StateAt(TurnsOf(links, script), s, n), script(n))
  {
    n := CallAnswers(links, s, script);
    StaysInRange(links, s, script, n);
    AnswerIsOk(links, s, script, n, StateAt(TurnsOf(links, script), s, n));
  }
}
