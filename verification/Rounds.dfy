/** Push requests one after the other (qcue-rs/app-server/src/sync/routes.rs, push_route): which of them go
    through, what those leave that do, and what is left by the others. */
module Rounds {
  import opened Common
  import opened Json
  import opened Pages
  import opened Reducer
  import opened Batches
  import opened Materialize

  // ---------------------------------------------------------------------------------------------
  // Rounds and how they end
  // ---------------------------------------------------------------------------------------------

  function AfterRounds(env: Env, rs: seq<Round>): Hub {
    if rs == [] then START else Taken(env, AfterRounds(env, rs[..|rs| - 1]), rs[|rs| - 1]).0
  }

  /** The last of these rounds goes through. */
  predicate GoesThrough(env: Env, rs: seq<Round>)
    requires rs != []
  {
    Taken(env, AfterRounds(env, rs[..|rs| - 1]), rs[|rs| - 1]).1.Through?
  }

  /** The rounds that go through. */
  function Kept(env: Env, rs: seq<Round>): seq<Round> {
    if rs == [] then []
    else if GoesThrough(env, rs) then Kept(env, rs[..|rs| - 1]) + [rs[|rs| - 1]]
    else Kept(env, rs[..|rs| - 1])
  }

  /** No round that does not go through has a write of this page in its batch. */
  predicate Spared(env: Env, rs: seq<Round>, slug: string) {
    rs != [] ==>
      && Spared(env, rs[..|rs| - 1], slug)
      && (GoesThrough(env, rs) || NoWrite(BatchOf(AfterRounds(env, rs[..|rs| - 1]), rs[|rs| - 1]), slug))
  }

  /** A round goes through exactly if it is not too large, nothing in its batch is refused, and nothing in it
      writes a page that the batch has deleted, or one of an unknown type. */
  lemma RoundGoesThroughExactlyIf(env: Env, h: Hub, r: Round)
    ensures Taken(env, h, r).1.Through?
            <==> |r.ops| <= MAX_OPS_PER_PUSH && NothingStops(env, h.canon, BatchOf(h, r), r.answers)
  {
    AttemptedExactlyIf(env, AfterPush(h, Batch(r.device, r.ops)), r.answers);
  }

  /** A round that does not go through leaves the log and the ideas as they were; of the pages it leaves what
      the gate had committed. */
  lemma FailedRoundLeaves(env: Env, h: Hub, r: Round)
    requires !Taken(env, h, r).1.Through?
    ensures Taken(env, h, r).0
         == Hub(h.log, Canon(if |r.ops| > MAX_OPS_PER_PUSH then h.canon.pages
                             else Worked(env, h.canon, BatchOf(h, r), r.answers).0.pages, h.canon.ideas))
  {
  }

  /** The same request again and again, whatever becomes of its ops each time. */
  function Retried(env: Env, h: Hub, r: Round, tries: seq<nat -> Answer>): Hub {
    if tries == [] then h
    else
      var n := |tries| - 1;
      Taken(env, Retried(env, h, r, tries[..n]), r.(answers := tries[n])).0
  }

  /** Op k of the request's batch writes a page that the batch has deleted, all writes of that slug being of one
      type; or it is refused in each of these tries. */
  ghost predicate Hopeless(env: Env, h: Hub, r: Round, k: nat, tries: seq<nat -> Answer>)
    requires k < |BatchOf(h, r)|
  {
    || (forall i :: 0 <= i < |tries| ==> tries[i](k).Refused?)
    || (Doomed(env, h.canon, BatchOf(h, r), k) && exists kind :: OfOneType(env, h.canon, BatchOf(h, r), k, kind))
  }

  /** Such a request is never applied, however often it is sent and whatever becomes of its other ops. */
  lemma RetryIsInVain(env: Env, h: Hub, r: Round, k: nat, tries: seq<nat -> Answer>)
    requires k < |BatchOf(h, r)| && Hopeless(env, h, r, k, tries)
    ensures Retried(env, h, r, tries).log == h.log && Retried(env, h, r, tries).canon.ideas == h.canon.ideas
  {
    if forall i :: 0 <= i < |tries| ==> tries[i](k).Refused? {
      RefusedEachTime(env, h, r, k, tries);
    } else {
      var kind :| OfOneType(env, h.canon, BatchOf(h, r), k, kind);
      DoomedEachTime(env, h, r, k, tries, kind);
    }
  }

  lemma NotApplied(env: Env, h: Hub, r: Round, k: nat)
    requires k < |BatchOf(h, r)| && Stops(env, h.canon, BatchOf(h, r), k, r.answers(k))
    ensures !Taken(env, h, r).1.Through?
    ensures Taken(env, h, r).0.log == h.log && Taken(env, h, r).0.canon.ideas == h.canon.ideas
  {
    RoundGoesThroughExactlyIf(env, h, r);
    FailedRoundLeaves(env, h, r);
  }

  lemma {:induction false} RefusedEachTime(env: Env, h: Hub, r: Round, k: nat, tries: seq<nat -> Answer>)
    requires k < |BatchOf(h, r)| && forall i :: 0 <= i < |tries| ==> tries[i](k).Refused?
    ensures Retried(env, h, r, tries).log == h.log && Retried(env, h, r, tries).canon.ideas == h.canon.ideas
  {
    if tries != [] {
      var n := |tries| - 1;
      RefusedEachTime(env, h, r, k, tries[..n]);
      RefusedOnce(env, h, Retried(env, h, r, tries[..n]), r, tries[n], k);
      OneMoreTry(env, h, r, tries);
    }
  }

  lemma OneMoreTry(env: Env, h: Hub, r: Round, tries: seq<nat -> Answer>)
    requires tries != []
    ensures var n := |tries| - 1;
            Retried(env, h, r, tries) == Taken(env, Retried(env, h, r, tries[..n]), r.(answers := tries[n])).0
  {
  }

  lemma RefusedOnce(env: Env, h: Hub, now: Hub, r: Round, answers: nat -> Answer, k: nat)
    requires k < |BatchOf(h, r)| && answers(k).Refused? && now.log == h.log
    ensures var after := Taken(env, now, r.(answers := answers)).0;
            after.log == now.log && after.canon.ideas == now.canon.ideas
  {
    var again := r.(answers := answers);
    assert BatchOf(now, again) == BatchOf(h, r);
    NotApplied(env, now, again, k);
  }

  lemma {:induction false} DoomedEachTime(env: Env, h: Hub, r: Round, k: nat, tries: seq<nat -> Answer>, kind: string)
    requires k < |BatchOf(h, r)| && Doomed(env, h.canon, BatchOf(h, r), k)
    requires OfOneType(env, h.canon, BatchOf(h, r), k, kind)
    ensures var h' := Retried(env, h, r, tries);
            && h'.log == h.log && h'.canon.ideas == h.canon.ideas
            && Doomed(env, h'.canon, BatchOf(h, r), k) && OfOneType(env, h'.canon, BatchOf(h, r), k, kind)
  {
    if tries != [] {
      var n := |tries| - 1;
      DoomedEachTime(env, h, r, k, tries[..n], kind);
      DoomedOnce(env, Retried(env, h, r, tries[..n]), r.(answers := tries[n]), k, kind);
    }
  }

  lemma DoomedOnce(env: Env, h: Hub, r: Round, k: nat, kind: string)
    requires k < |BatchOf(h, r)| && Doomed(env, h.canon, BatchOf(h, r), k)
    requires OfOneType(env, h.canon, BatchOf(h, r), k, kind)
    ensures var h' := Taken(env, h, r).0;
            && h'.log == h.log && h'.canon.ideas == h.canon.ideas
            && Doomed(env, h'.canon, BatchOf(h, r), k) && OfOneType(env, h'.canon, BatchOf(h, r), k, kind)
  {
    NotApplied(env, h, r, k);
    FailedRoundLeaves(env, h, r);
    DoomedStays(env, h.canon, BatchOf(h, r), r.answers, k, kind, Worked(env, h.canon, BatchOf(h, r), r.answers).0);
    assert Canon(h.canon.pages, h.canon.ideas) == h.canon;
  }

  // ---------------------------------------------------------------------------------------------
  // What the rounds leave that go through
  // ---------------------------------------------------------------------------------------------

  function PushedIn(rs: seq<Round>): seq<Pushed> {
    if rs == [] then [] else PushedIn(rs[..|rs| - 1]) + Batch(rs[|rs| - 1].device, rs[|rs| - 1].ops)
  }

  function LogAfter(rs: seq<Round>): seq<OpRow> {
    if rs == [] then [] else AllApplied(PushAll(LogAfter(rs[..|rs| - 1]), Batch(rs[|rs| - 1].device, rs[|rs| - 1].ops)))
  }

  /** The ops that the last round adds, in clock order. */
  function Added(rs: seq<Round>): seq<SyncOp>
    requires rs != []
  {
    Sorted(Pending(PushAll(LogAfter(rs[..|rs| - 1]), Batch(rs[|rs| - 1].device, rs[|rs| - 1].ops))))
  }

  /** The ops in the order in which the rounds apply them: round by round, each in clock order. */
  function AppliedIn(rs: seq<Round>): seq<SyncOp> {
    if rs == [] then [] else AppliedIn(rs[..|rs| - 1]) + Added(rs)
  }

  lemma ThroughRound(env: Env, h: Hub, r: Round)
    requires Taken(env, h, r).1.Through?
    ensures Taken(env, h, r).0
         == Hub(AllApplied(PushAll(h.log, Batch(r.device, r.ops))), ApplyAll(env, h.canon, BatchOf(h, r)))
  {
    AttemptedExactlyIf(env, AfterPush(h, Batch(r.device, r.ops)), r.answers);
  }

  lemma KeptAdds(rs: seq<Round>, r: Round)
    ensures LogAfter(rs + [r]) == AllApplied(PushAll(LogAfter(rs), Batch(r.device, r.ops)))
    ensures AppliedIn(rs + [r]) == AppliedIn(rs) + Sorted(Pending(PushAll(LogAfter(rs), Batch(r.device, r.ops))))
  {
    assert (rs + [r])[..|rs|] == rs;
  }

  lemma IdeasOnlyOnce(env: Env, a: Canon, b: Canon, o: SyncOp)
    requires a.ideas == b.ideas
    ensures Apply(env, a, o).ideas == Apply(env, b, o).ideas
  {
  }

  lemma {:induction false} IdeasOnly(env: Env, a: Canon, b: Canon, os: seq<SyncOp>)
    requires a.ideas == b.ideas
    ensures ApplyAll(env, a, os).ideas == ApplyAll(env, b, os).ideas
  {
    if os != [] {
      var n := |os| - 1;
      IdeasOnly(env, a, b, os[..n]);
      IdeasOnlyOnce(env, ApplyAll(env, a, os[..n]), ApplyAll(env, b, os[..n]), os[n]);
    }
  }

  /** The slug has the same live pages in both. */
  ghost predicate SamePages(a: Canon, b: Canon, slug: string) {
    forall k :: PageIn(a.pages, Key(k, slug)) == PageIn(b.pages, Key(k, slug))
  }

  lemma {:induction false} SameTypes(types: seq<string>, a: Canon, b: Canon, slug: string)
    requires SamePages(a, b, slug)
    ensures TypesAt(types, a.pages, slug) == TypesAt(types, b.pages, slug)
  {
    if types != [] {
      assert PageIn(a.pages, Key(types[0], slug)) == PageIn(b.pages, Key(types[0], slug));
      SameTypes(types[1..], a, b, slug);
    }
  }

  lemma SameCurrent(env: Env, a: Canon, b: Canon, slug: string)
    requires SamePages(a, b, slug)
    ensures Current(env, a, slug) == Current(env, b, slug) && PageAt(env, a, slug) == PageAt(env, b, slug)
  {
    SameTypes(PAGE_TYPES, a, b, slug);
    var r := Current(env, a, slug);
    if r.Some? {
      assert PageIn(a.pages, Key(r.value.pageType, slug)) == PageIn(b.pages, Key(r.value.pageType, slug));
    }
  }

  lemma OpKeepsSame(env: Env, a: Canon, b: Canon, o: SyncOp, slug: string)
    requires SamePages(a, b, slug)
    ensures SamePages(Apply(env, a, o), Apply(env, b, o), slug)
  {
    SameCurrent(env, a, b, slug);
    forall k
      ensures PageIn(Apply(env, a, o).pages, Key(k, slug)) == PageIn(Apply(env, b, o).pages, Key(k, slug))
    {
      assert PageIn(a.pages, Key(k, slug)) == PageIn(b.pages, Key(k, slug));
      OpOnPage(env, a, o, slug, k);
      OpOnPage(env, b, o, slug, k);
    }
  }

  /** What an op makes of one page depends on the pages of its slug only. */
  lemma OpOnPage(env: Env, c: Canon, o: SyncOp, slug: string, k: string)
    ensures var now := PageIn(Apply(env, c, o).pages, Key(k, slug));
            now == if WritesPage(o, slug) && KeyFor(env, c, slug, o.op) == Key(k, slug) && k in PAGE_TYPES
                   then Some(PageAfter(env, c, slug, o.op))
                   else if DeletesPage(o, slug) && Current(env, c, slug) == Some(Key(k, slug)) then None
                   else PageIn(c.pages, Key(k, slug))
  {
    if DeletesPage(o, slug) {
      DeletionOnPage(env, c, o, k);
    } else if WritesPage(o, slug) {
      if KeyFor(env, c, slug, o.op).pageType in PAGE_TYPES {
        WriteOnPage(env, c, o, k);
      }
    } else {
      ElsewhereKeeps(env, c, o, slug, k);
    }
  }

  lemma {:induction false} PageOnly(env: Env, a: Canon, b: Canon, os: seq<SyncOp>, slug: string)
    requires SamePages(a, b, slug)
    ensures SamePages(ApplyAll(env, a, os), ApplyAll(env, b, os), slug)
  {
    if os != [] {
      var n := |os| - 1;
      PageOnly(env, a, b, os[..n], slug);
      OpKeepsSame(env, ApplyAll(env, a, os[..n]), ApplyAll(env, b, os[..n]), os[n], slug);
    }
  }

  /** Whatever rounds did not go through, the log and the ideas are those of the rounds that did. */
  lemma {:induction false} RoundsApply(env: Env, rs: seq<Round>)
    ensures var ks := Kept(env, rs);
            && AfterRounds(env, rs).log == LogAfter(ks)
            && AfterRounds(env, rs).canon.ideas == ApplyAll(env, EMPTY, AppliedIn(ks)).ideas
  {
    if rs != [] {
      var n := |rs| - 1;
      var before, ks := AfterRounds(env, rs[..n]), Kept(env, rs[..n]);
      RoundsApply(env, rs[..n]);
      if GoesThrough(env, rs) {
        ThroughRound(env, before, rs[n]);
        KeptAdds(ks, rs[n]);
        ApplyAllAppend(env, EMPTY, AppliedIn(ks), BatchOf(before, rs[n]));
        IdeasOnly(env, before.canon, ApplyAll(env, EMPTY, AppliedIn(ks)), BatchOf(before, rs[n]));
      } else {
        FailedRoundLeaves(env, before, rs[n]);
      }
    }
  }

  lemma FailedSpares(env: Env, h: Hub, r: Round, slug: string)
    requires !Taken(env, h, r).1.Through? && NoWrite(BatchOf(h, r), slug)
    ensures SamePages(Taken(env, h, r).0.canon, h.canon, slug)
  {
    FailedRoundLeaves(env, h, r);
    forall k
      ensures PageIn(Taken(env, h, r).0.canon.pages, Key(k, slug)) == PageIn(h.canon.pages, Key(k, slug))
    {
      UnwrittenStays(env, h.canon, BatchOf(h, r), r.answers, Key(k, slug));
    }
  }

  lemma SameSame(a: Canon, b: Canon, c: Canon, slug: string)
    requires SamePages(a, b, slug) && SamePages(b, c, slug)
    ensures SamePages(a, c, slug)
  {
    forall k
      ensures PageIn(a.pages, Key(k, slug)) == PageIn(c.pages, Key(k, slug))
    {
      assert PageIn(a.pages, Key(k, slug)) == PageIn(b.pages, Key(k, slug)) == PageIn(c.pages, Key(k, slug));
    }
  }

  lemma KeptRound(env: Env, rs: seq<Round>, slug: string)
    requires rs != [] && GoesThrough(env, rs)
    requires SamePages(AfterRounds(env, rs[..|rs| - 1]).canon,
                       ApplyAll(env, EMPTY, AppliedIn(Kept(env, rs[..|rs| - 1]))), slug)
    ensures SamePages(AfterRounds(env, rs).canon, ApplyAll(env, EMPTY, AppliedIn(Kept(env, rs))), slug)
  {
    var n := |rs| - 1;
    var before, ks := AfterRounds(env, rs[..n]), Kept(env, rs[..n]);
    RoundsApply(env, rs[..n]);
    ThroughRound(env, before, rs[n]);
    KeptAdds(ks, rs[n]);
    ApplyAllAppend(env, EMPTY, AppliedIn(ks), BatchOf(before, rs[n]));
    PageOnly(env, before.canon, ApplyAll(env, EMPTY, AppliedIn(ks)), BatchOf(before, rs[n]), slug);
  }

  /** After any sequence of rounds a slug that none of the failed ones was to write has the pages that the reducer
      makes of the ops of the rounds that went through, in the order in which these applied them. */
  lemma {:induction false} PagesOfKept(env: Env, rs: seq<Round>, slug: string)
    requires Spared(env, rs, slug)
    ensures SamePages(AfterRounds(env, rs).canon, ApplyAll(env, EMPTY, AppliedIn(Kept(env, rs))), slug)
  {
    if rs != [] {
      var n := |rs| - 1;
      PagesOfKept(env, rs[..n], slug);
      if GoesThrough(env, rs) {
        KeptRound(env, rs, slug);
      } else {
        FailedSpares(env, AfterRounds(env, rs[..n]), rs[n], slug);
        SameSame(AfterRounds(env, rs).canon, AfterRounds(env, rs[..n]).canon,
                 ApplyAll(env, EMPTY, AppliedIn(Kept(env, rs[..n]))), slug);
      }
    }
  }

  /** Where these ops name one type between deletions, that is one page, with the last title and body since the
      last deletion. */
  lemma PagesAfterRounds(env: Env, rs: seq<Round>, slug: string)
    requires Spared(env, rs, slug)
    ensures SamePages(AfterRounds(env, rs).canon, ApplyAll(env, EMPTY, AppliedIn(Kept(env, rs))), slug)
    ensures Steady(AppliedIn(Kept(env, rs)), slug) ==>
              PageAt(env, AfterRounds(env, rs).canon, slug)
              == PageOf(env.sanitize, slug, TouchesSince(AppliedIn(Kept(env, rs)), slug))
  {
    var os := AppliedIn(Kept(env, rs));
    PagesOfKept(env, rs, slug);
    SameCurrent(env, AfterRounds(env, rs).canon, ApplyAll(env, EMPTY, os), slug);
    if Steady(os, slug) {
      LastWriterIsSeen(env, os, slug);
    }
  }

  // What the rounds add is what was pushed, each op once.

  function Unflagged(log: seq<OpRow>): seq<OpRow> { Map((r: OpRow) => r.(applied := false), log) }

  lemma KnownUnflagged(log: seq<OpRow>, p: Pushed)
    ensures Known(Unflagged(log), p) == Known(log, p)
  {
    if Known(log, p) {
      var i :| 0 <= i < |log| && SameKey(log[i], p);
      assert SameKey(Unflagged(log)[i], p);
    }
    if Known(Unflagged(log), p) {
      var i :| 0 <= i < |log| && SameKey(Unflagged(log)[i], p);
      assert SameKey(log[i], p);
    }
  }

  lemma {:induction false} PushUnflagged(log: seq<OpRow>, ps: seq<Pushed>)
    ensures Unflagged(PushAll(log, ps)) == PushAll(Unflagged(log), ps)
  {
    if ps != [] {
      var before := PushAll(log, ps[..|ps| - 1]);
      PushUnflagged(log, ps[..|ps| - 1]);
      KnownUnflagged(before, ps[|ps| - 1]);
    }
  }

  lemma {:induction false} LogIsPushed(rs: seq<Round>)
    ensures Unflagged(LogAfter(rs)) == PushAll([], PushedIn(rs))
    ensures AllApplied(LogAfter(rs)) == LogAfter(rs)
  {
    if rs != [] {
      var before, batch := rs[..|rs| - 1], Batch(rs[|rs| - 1].device, rs[|rs| - 1].ops);
      LogIsPushed(before);
      PushUnflagged(LogAfter(before), batch);
      PushAllAppend([], PushedIn(before), batch);
      assert Unflagged(AllApplied(PushAll(LogAfter(before), batch))) == Unflagged(PushAll(LogAfter(before), batch));
    }
  }

  lemma {:induction false} NewRowsPend(log: seq<OpRow>, ps: seq<Pushed>)
    requires AllApplied(log) == log
    ensures OpsOf(PushAll(log, ps)) == OpsOf(log) + Pending(PushAll(log, ps))
  {
    if ps == [] {
      NothingPends(log);
    } else {
      var before, p := PushAll(log, ps[..|ps| - 1]), ps[|ps| - 1];
      NewRowsPend(log, ps[..|ps| - 1]);
      if !Known(before, p) {
        var r := OpRow(p.device, p.op, false);
        assert (before + [r])[..|before|] == before;
        assert OpsOf(before + [r]) == OpsOf(before) + [p.op];
        Assoc(OpsOf(log), Pending(before), [p.op]);
      }
    }
  }

  predicate SameOps(a: seq<SyncOp>, b: seq<SyncOp>) {
    (forall x :: x in a ==> x in b) && (forall x :: x in b ==> x in a)
  }

  /** The log after the rounds: what was there and what the last round added. */
  lemma LogSplits(rs: seq<Round>)
    requires rs != []
    ensures exists news :: SameOps(Added(rs), news) && Added(rs) == Sorted(news)
                           && OpsOf(LogAfter(rs)) == OpsOf(LogAfter(rs[..|rs| - 1])) + news
  {
    var before, batch := LogAfter(rs[..|rs| - 1]), Batch(rs[|rs| - 1].device, rs[|rs| - 1].ops);
    LogIsPushed(rs[..|rs| - 1]);
    NewRowsPend(before, batch);
    var news := Pending(PushAll(before, batch));
    assert OpsOf(AllApplied(PushAll(before, batch))) == OpsOf(PushAll(before, batch));
    assert SameOps(Sorted(news), news);
  }

  lemma {:induction false} AppliedIsTheLog(rs: seq<Round>)
    ensures SameOps(AppliedIn(rs), OpsOf(LogAfter(rs)))
  {
    if rs != [] {
      AppliedIsTheLog(rs[..|rs| - 1]);
      LogSplits(rs);
    }
  }

  lemma LogHasDistinctClocks(rs: seq<Round>)
    requires Clean(PushedIn(rs))
    ensures DistinctClocks(OpsOf(LogAfter(rs)))
    ensures forall o :: o in OpsOf(LogAfter(rs)) <==> exists p :: p in PushedIn(rs) && p.op == o
  {
    LogIsPushed(rs);
    PendingAfterPushes(PushedIn(rs));
    PushedRows(PushedIn(rs));
    AllPend(PushAll([], PushedIn(rs)));
    assert OpsOf(Unflagged(LogAfter(rs))) == OpsOf(LogAfter(rs));
  }

  lemma {:induction false} CleanPart(ps: seq<Pushed>, qs: seq<Pushed>)
    requires Clean(ps + qs)
    ensures Clean(ps)
  {
    assert forall i :: 0 <= i < |ps| ==> (ps + qs)[i] == ps[i];
  }

  /** The clocks of what a round adds differ from each other and from those of all earlier ops. */
  lemma AddedClocks(rs: seq<Round>)
    requires rs != [] && Clean(PushedIn(rs))
    ensures Ascending(Added(rs))
    ensures forall x, y :: x in AppliedIn(rs[..|rs| - 1]) && y in Added(rs) ==> !SameClock(x, y)
  {
    var olds := OpsOf(LogAfter(rs[..|rs| - 1]));
    LogHasDistinctClocks(rs);
    LogSplits(rs);
    AppliedIsTheLog(rs[..|rs| - 1]);
    var news :| SameOps(Added(rs), news) && Added(rs) == Sorted(news) && OpsOf(LogAfter(rs)) == olds + news;
    DistinctParts(olds, news);
    SortedAscends(news);
  }

  lemma DistinctParts(a: seq<SyncOp>, b: seq<SyncOp>)
    requires DistinctClocks(a + b)
    ensures DistinctClocks(b)
    ensures forall x, y :: x in a && y in b ==> !SameClock(x, y)
  {
    var all := a + b;
    forall i, j | 0 <= i < j < |b|
      ensures !SameClock(b[i], b[j])
    {
      assert all[|a| + i] == b[i] && all[|a| + j] == b[j];
    }
    forall x, y | x in a && y in b
      ensures !SameClock(x, y)
    {
      var i :| 0 <= i < |a| && a[i] == x;
      var j :| 0 <= j < |b| && b[j] == y;
      assert all[i] == x && all[|a| + j] == y;
    }
  }

  // The ops of one page or idea.

  function Only(os: seq<SyncOp>, kind: string, ref: string): seq<SyncOp> {
    if os == [] then []
    else
      var before, o := Only(os[..|os| - 1], kind, ref), os[|os| - 1];
      if o.kind == kind && o.ref == ref then before + [o] else before
  }

  lemma {:induction false} OnlyAppend(a: seq<SyncOp>, b: seq<SyncOp>, kind: string, ref: string)
    ensures Only(a + b, kind, ref) == Only(a, kind, ref) + Only(b, kind, ref)
    decreases |b|
  {
    if b == [] {
      assert a + b == a;
    } else {
      assert (a + b)[..|a + b| - 1] == a + b[..|b| - 1];
      OnlyAppend(a, b[..|b| - 1], kind, ref);
    }
  }

  lemma {:induction false} OnlyMembers(os: seq<SyncOp>, kind: string, ref: string)
    ensures forall x :: x in Only(os, kind, ref) <==> x in os && x.kind == kind && x.ref == ref
  {
    if os != [] {
      var n := |os| - 1;
      OnlyMembers(os[..n], kind, ref);
      assert forall x :: x in os <==> x in os[..n] || x == os[n];
    }
  }

  lemma {:induction false} OnlyAscends(os: seq<SyncOp>, kind: string, ref: string)
    requires Ascending(os)
    ensures Ascending(Only(os, kind, ref))
  {
    if os != [] {
      var n := |os| - 1;
      OnlyAscends(os[..n], kind, ref);
      OnlyMembers(os[..n], kind, ref);
      forall i | 0 <= i < |Only(os[..n], kind, ref)|
        ensures Precedes(Only(os[..n], kind, ref)[i], os[n])
      {
        assert Only(os[..n], kind, ref)[i] in os[..n];
      }
    }
  }

  lemma {:induction false} PagesAreLocal(env: Env, os: seq<SyncOp>, slug: string)
    ensures SamePages(ApplyAll(env, EMPTY, os), ApplyAll(env, EMPTY, Only(os, "wiki_page", slug)), slug)
  {
    if os != [] {
      var n := |os| - 1;
      var only := Only(os[..n], "wiki_page", slug);
      var a, b := ApplyAll(env, EMPTY, os[..n]), ApplyAll(env, EMPTY, only);
      PagesAreLocal(env, os[..n], slug);
      if os[n].kind == "wiki_page" && os[n].ref == slug {
        OpKeepsSame(env, a, b, os[n], slug);
        ApplyOneMore(env, EMPTY, only, os[n]);
      } else {
        forall k
          ensures PageIn(Apply(env, a, os[n]).pages, Key(k, slug)) == PageIn(b.pages, Key(k, slug))
        {
          ElsewhereKeeps(env, a, os[n], slug, k);
        }
      }
    }
  }

  /** No op on this entity arrives after one with a later clock has been applied: what a round adds follows
      everything applied before. */
  predicate OnTime(rs: seq<Round>, kind: string, ref: string) {
    rs == [] || (OnTime(rs[..|rs| - 1], kind, ref)
                 && AllPrecede(Only(AppliedIn(rs[..|rs| - 1]), kind, ref), Only(Added(rs), kind, ref)))
  }

  lemma AscendingSplits(a: seq<SyncOp>, b: seq<SyncOp>)
    ensures Ascending(a + b) <==> Ascending(a) && Ascending(b) && AllPrecede(a, b)
  {
    var all := a + b;
    if Ascending(all) {
      assert forall i :: 0 <= i < |a| ==> all[i] == a[i];
      assert forall j :: 0 <= j < |b| ==> all[|a| + j] == b[j];
    }
  }

  /** The ops of an entity are applied in clock order exactly if none of them is late. */
  lemma {:induction false} InOrderExactlyIf(rs: seq<Round>, kind: string, ref: string)
    requires Clean(PushedIn(rs))
    ensures Ascending(Only(AppliedIn(rs), kind, ref)) <==> OnTime(rs, kind, ref)
  {
    if rs != [] {
      var before := rs[..|rs| - 1];
      CleanPart(PushedIn(before), Batch(rs[|rs| - 1].device, rs[|rs| - 1].ops));
      InOrderExactlyIf(before, kind, ref);
      AddedClocks(rs);
      OnlyAscends(Added(rs), kind, ref);
      OnlyAppend(AppliedIn(before), Added(rs), kind, ref);
      AscendingSplits(Only(AppliedIn(before), kind, ref), Only(Added(rs), kind, ref));
    }
  }

  /** `os` is everything that was pushed, in clock order. */
  ghost predicate ClockOrder(os: seq<SyncOp>, rs: seq<Round>) {
    Ascending(os) && forall o :: o in os <==> exists p :: p in PushedIn(rs) && p.op == o
  }

  /** However many rounds, an entity's ops are applied exactly as one apply of them all would apply them, if
      and only if none of them is late. */
  lemma RoundsApplyInClockOrderExactlyIf(rs: seq<Round>, os: seq<SyncOp>, kind: string, ref: string)
    requires Clean(PushedIn(rs)) && ClockOrder(os, rs)
    ensures Only(AppliedIn(rs), kind, ref) == Only(os, kind, ref) <==> OnTime(rs, kind, ref)
  {
    InOrderExactlyIf(rs, kind, ref);
    OnlyAscends(os, kind, ref);
    if OnTime(rs, kind, ref) {
      AppliedIsTheLog(rs);
      LogHasDistinctClocks(rs);
      OnlyMembers(os, kind, ref);
      OnlyMembers(AppliedIn(rs), kind, ref);
      forall x
        ensures x in Only(AppliedIn(rs), kind, ref) <==> x in Only(os, kind, ref)
      {
        assert x in AppliedIn(rs) <==> x in os;
      }
      AscendingIsUnique(Only(AppliedIn(rs), kind, ref), Only(os, kind, ref));
    }
  }

  /** A slug none of whose ops was late and which no failed round was to write has, after any sequence of rounds,
      the pages that the reducer makes of the ops in clock order; and so, where they name one type between
      deletions, one page with the last title and body in clock order since its last deletion. `os` is what was
      pushed in rounds that went through, in clock order. */
  lemma PagesFollowTheClockInRounds(env: Env, rs: seq<Round>, os: seq<SyncOp>, slug: string)
    requires var ks := Kept(env, rs);
             Clean(PushedIn(ks)) && ClockOrder(os, ks) && OnTime(ks, "wiki_page", slug)
    requires Spared(env, rs, slug)
    ensures SamePages(AfterRounds(env, rs).canon, ApplyAll(env, EMPTY, os), slug)
    ensures Steady(os, slug) ==>
              PageAt(env, AfterRounds(env, rs).canon, slug) == PageOf(env.sanitize, slug, TouchesSince(os, slug))
  {
    var ks := Kept(env, rs);
    var a, b := ApplyAll(env, EMPTY, AppliedIn(ks)), ApplyAll(env, EMPTY, os);
    PagesOfKept(env, rs, slug);
    RoundsApplyInClockOrderExactlyIf(ks, os, "wiki_page", slug);
    PagesAreLocal(env, AppliedIn(ks), slug);
    PagesAreLocal(env, os, slug);
    SamePagesBack(b, ApplyAll(env, EMPTY, Only(os, "wiki_page", slug)), slug);
    SameSame(a, ApplyAll(env, EMPTY, Only(os, "wiki_page", slug)), b, slug);
    SameSame(AfterRounds(env, rs).canon, a, b, slug);
    SameCurrent(env, AfterRounds(env, rs).canon, b, slug);
    if Steady(os, slug) {
      LastWriterIsSeen(env, os, slug);
    }
  }

  lemma SamePagesBack(a: Canon, b: Canon, slug: string)
    requires SamePages(a, b, slug)
    ensures SamePages(b, a, slug)
  {
    forall k
      ensures PageIn(b.pages, Key(k, slug)) == PageIn(a.pages, Key(k, slug))
    {
      assert PageIn(a.pages, Key(k, slug)) == PageIn(b.pages, Key(k, slug));
    }
  }

  lemma IdeaOpIsLocal(env: Env, a: Canon, b: Canon, o: SyncOp, key: string)
    requires IdeaIn(a, key) == IdeaIn(b, key)
    ensures if o.kind == "idea" && o.ref == key
            then IdeaIn(Apply(env, a, o), key) == IdeaIn(Apply(env, b, o), key)
            else IdeaIn(Apply(env, a, o), key) == IdeaIn(b, key)
  {
  }

  lemma {:induction false} IdeasAreLocal(env: Env, os: seq<SyncOp>, key: string)
    ensures IdeaIn(ApplyAll(env, EMPTY, os), key)
            == IdeaIn(ApplyAll(env, EMPTY, Only(os, "idea", key)), key)
  {
    if os != [] {
      var n := |os| - 1;
      var only := Only(os[..n], "idea", key);
      IdeasAreLocal(env, os[..n], key);
      IdeaOpIsLocal(env, ApplyAll(env, EMPTY, os[..n]), ApplyAll(env, EMPTY, only), os[n], key);
      assert (only + [os[n]])[..|only|] == only;
    }
  }

  lemma IdeaFollows(env: Env, rs: seq<Round>, os: seq<SyncOp>, key: string)
    requires var ks := Kept(env, rs);
             Clean(PushedIn(ks)) && ClockOrder(os, ks) && OnTime(ks, "idea", key)
    ensures IdeaIn(AfterRounds(env, rs).canon, key) == IdeaIn(ApplyAll(env, EMPTY, os), key)
  {
    var ks := Kept(env, rs);
    RoundsApply(env, rs);
    RoundsApplyInClockOrderExactlyIf(ks, os, "idea", key);
    IdeasAreLocal(env, AppliedIn(ks), key);
    IdeasAreLocal(env, os, key);
  }

  lemma SameIdea(c: Canon, d: Canon, os: seq<SyncOp>, key: string)
    requires IdeaIn(c, key) == IdeaIn(d, key) && IdeaIs(c, os, key)
    ensures IdeaIs(d, os, key)
  {
  }

  /** After any sequence of rounds, failed ones included, an idea is what the ops of the rounds that went through
      make of it, in the order in which these applied them. */
  lemma IdeasAfterRounds(env: Env, rs: seq<Round>, key: string)
    ensures IdeaIs(AfterRounds(env, rs).canon, AppliedIn(Kept(env, rs)), key)
  {
    var os := AppliedIn(Kept(env, rs));
    RoundsApply(env, rs);
    IdeasFollowTheirOps(env, os, key);
    SameIdea(ApplyAll(env, EMPTY, os), AfterRounds(env, rs).canon, os, key);
  }

  /** And what they make of it in clock order, if none of the idea's ops was late. */
  lemma IdeasFollowTheClockInRounds(env: Env, rs: seq<Round>, os: seq<SyncOp>, key: string)
    requires var ks := Kept(env, rs);
             Clean(PushedIn(ks)) && ClockOrder(os, ks) && OnTime(ks, "idea", key)
    ensures IdeaIs(AfterRounds(env, rs).canon, os, key)
  {
    IdeaFollows(env, rs, os, key);
    IdeasFollowTheirOps(env, os, key);
    SameIdea(ApplyAll(env, EMPTY, os), AfterRounds(env, rs).canon, os, key);
  }

  /** If no op at all was late, and no page is to be written by a failed round, the tables are those that the
      reducer makes of the ops of the rounds that went through, in clock order. */
  lemma TablesFollowTheClock(env: Env, rs: seq<Round>, os: seq<SyncOp>)
    requires var ks := Kept(env, rs);
             Clean(PushedIn(ks)) && ClockOrder(os, ks) && forall kind, ref :: OnTime(ks, kind, ref)
    requires forall slug :: Spared(env, rs, slug)
    ensures AfterRounds(env, rs).canon == ApplyAll(env, EMPTY, os)
  {
    var a, b := AfterRounds(env, rs).canon, ApplyAll(env, EMPTY, os);
    forall slug
      ensures SamePages(a, b, slug)
    {
      PagesFollowTheClockInRounds(env, rs, os, slug);
    }
    forall key
      ensures IdeaIn(a, key) == IdeaIn(b, key)
    {
      IdeaFollows(env, rs, os, key);
    }
    SameTables(a, b);
  }

  lemma SameTables(a: Canon, b: Canon)
    requires forall slug :: SamePages(a, b, slug)
    requires forall key :: IdeaIn(a, key) == IdeaIn(b, key)
    ensures a == b
  {
    forall key: Key
      ensures key in a.pages <==> key in b.pages
      ensures key in a.pages && key in b.pages ==> a.pages[key] == b.pages[key]
    {
      assert SamePages(a, b, key.slug);
      assert PageIn(a.pages, Key(key.pageType, key.slug)) == PageIn(b.pages, Key(key.pageType, key.slug));
    }
    forall key
      ensures key in a.ideas <==> key in b.ideas
      ensures key in a.ideas && key in b.ideas ==> a.ideas[key] == b.ideas[key]
    {
      assert IdeaIn(a, key) == IdeaIn(b, key);
    }
    assert a.pages == b.pages && a.ideas == b.ideas;
  }

  ghost predicate InOrder(env: Env, rs: seq<Round>) {
    && Clean(PushedIn(Kept(env, rs)))
    && (forall kind, ref :: OnTime(Kept(env, rs), kind, ref)) && forall slug :: Spared(env, rs, slug)
  }

  /** Two histories whose rounds that went through pushed the same ops leave the same tables, if neither has a
      late op or a failed round that was to write a page. */
  lemma RoundsAreInvisible(env: Env, rs: seq<Round>, qs: seq<Round>)
    requires InOrder(env, rs) && InOrder(env, qs)
    requires forall p :: p in PushedIn(Kept(env, rs)) <==> p in PushedIn(Kept(env, qs))
    ensures AfterRounds(env, rs).canon == AfterRounds(env, qs).canon
  {
    var ks, ls := Kept(env, rs), Kept(env, qs);
    var os := Sorted(OpsOf(LogAfter(ks)));
    LogHasDistinctClocks(ks);
    SortedAscends(OpsOf(LogAfter(ks)));
    assert ClockOrder(os, ks) && ClockOrder(os, ls);
    TablesFollowTheClock(env, rs, os);
    TablesFollowTheClock(env, qs, os);
  }

  function TitleOp(wall: int, lamport: int, site: nat, slug: string, title: string): SyncOp {
    SyncOp(wall, lamport, site, "wiki_page", slug, Obj(map["set_title" := Str(title)]))
  }

  lemma TwoTitles(env: Env, slug: string, a: SyncOp, first: string, b: SyncOp, second: string)
    requires a == TitleOp(a.wall, a.lamport, a.site, slug, first)
    requires b == TitleOp(b.wall, b.lamport, b.site, slug, second)
    ensures var page := PageAt(env, ApplyAll(env, EMPTY, [a, b]), slug);
            page.Some? && page.value.title == second
  {
    var os := [a, b];
    assert os[..1] == [a] && os[..1][..0] == [];
    assert TouchesSince(os[..1], slug) == [a.op];
    assert TouchesSince(os, slug) == [a.op] + [b.op];
    assert Steady(os[..1], slug) && Steady(os, slug);
    LastWriterIsSeen(env, os, slug);
  }

  lemma ApplyTwo(env: Env, c: Canon, a: SyncOp, b: SyncOp)
    ensures ApplyAll(env, c, [a, b]) == Apply(env, Apply(env, c, a), b)
  {
    assert [a, b][..1] == [a] && [a][..0] == [];
    assert ApplyAll(env, c, [a]) == Apply(env, ApplyAll(env, c, [a][..0]), a);
  }

  const ACCEPTING: nat -> Answer := (k: nat) => Accepted

  lemma TitleNeverStops(env: Env, c: Canon, o: SyncOp, slug: string, title: string)
    requires o == TitleOp(o.wall, o.lamport, o.site, slug, title)
    ensures NothingStops(env, c, [o], ACCEPTING)
  {
    assert [o][..0] == [];
    assert !Unknown(env, c, [o], 0) && !Doomed(env, c, [o], 0);
  }

  lemma SingleThrough(env: Env, h: Hub, r: Round, o: SyncOp)
    requires r.ops == [o] && BatchOf(h, r) == [o] && NothingStops(env, h.canon, [o], r.answers)
    ensures Taken(env, h, r).1.Through?
  {
    RoundGoesThroughExactlyIf(env, h, r);
  }

  /** A title is never what stops a round. */
  lemma TitleRound(env: Env, h: Hub, device: nat, o: SyncOp, slug: string, title: string)
    requires o == TitleOp(o.wall, o.lamport, o.site, slug, title)
    requires h.log == AllApplied(h.log) && !Known(h.log, Pushed(device, o))
    ensures Taken(env, h, Round(device, [o], ACCEPTING)).1.Through?
    ensures Taken(env, h, Round(device, [o], ACCEPTING)).0
         == Hub(AllApplied(h.log + [OpRow(device, o, false)]), Apply(env, h.canon, o))
  {
    var r, p := Round(device, [o], ACCEPTING), Pushed(device, o);
    assert Batch(device, [o]) == [p];
    SingleBatch(h.log, p);
    TitleNeverStops(env, h.canon, o, slug, title);
    SingleThrough(env, h, r, o);
    ThroughRound(env, h, r);
    ApplyOneMore(env, h.canon, [], o);
    assert [] + [o] == [o];
  }

  /** One op pushed and applied, then another. */
  function TwoRounds(env: Env, p: Pushed, q: Pushed): Hub {
    AfterRounds(env, [Round(p.device, [p.op], ACCEPTING), Round(q.device, [q.op], ACCEPTING)])
  }

  lemma RoundsOneMore(env: Env, rs: seq<Round>, r: Round)
    ensures AfterRounds(env, rs + [r]) == Taken(env, AfterRounds(env, rs), r).0
  {
    assert (rs + [r])[..|rs|] == rs;
  }

  lemma AppliedOne(row: OpRow)
    ensures AllApplied([] + [row]) == [row.(applied := true)] && AllApplied([]) == []
    ensures AllApplied([row.(applied := true)]) == [row.(applied := true)]
  {
  }

  lemma OtherDevice(row: OpRow, q: Pushed)
    requires row.device != q.device
    ensures !Known([row], q)
  {
  }

  lemma TwoRoundsIs(env: Env, p: Pushed, q: Pushed, slug: string, first: string, second: string)
    requires p.device != q.device
    requires p.op == TitleOp(p.op.wall, p.op.lamport, p.op.site, slug, first)
    requires q.op == TitleOp(q.op.wall, q.op.lamport, q.op.site, slug, second)
    ensures TwoRounds(env, p, q).canon == Apply(env, Apply(env, EMPTY, p.op), q.op)
  {
    var a, b := Round(p.device, [p.op], ACCEPTING), Round(q.device, [q.op], ACCEPTING);
    var h := Taken(env, START, a).0;
    RoundsOneMore(env, [], a);
    RoundsOneMore(env, [a], b);
    assert [] + [a] == [a] && [a] + [b] == [a, b];
    TitleRound(env, START, p.device, p.op, slug, first);
    AppliedOne(OpRow(p.device, p.op, false));
    OtherDevice(OpRow(p.device, p.op, true), q);
    TitleRound(env, h, q.device, q.op, slug, second);
  }

  lemma SortedTwo(a: SyncOp, b: SyncOp)
    ensures Sorted([a, b]) == if Precedes(b, a) then [b, a] else [a, b]
  {
    assert [a, b][..1] == [a] && [a][..0] == [];
    assert Sorted([a]) == Put(Sorted([a][..0]), a) == [a];
    assert Put([a][..0], b) == [b];
  }

  /** Two titles in two rounds: the one that arrives last stands, whatever the clocks. That is the title of
      clock order exactly if it is not late, or says the same. */
  lemma LateOpsWin(env: Env, slug: string, d: nat, a: SyncOp, first: string, e: nat, b: SyncOp,
                   second: string)
    requires a == TitleOp(a.wall, a.lamport, a.site, slug, first)
    requires b == TitleOp(b.wall, b.lamport, b.site, slug, second)
    requires d != e && !SameClock(a, b)
    ensures var rounds := PageAt(env, TwoRounds(env, Pushed(d, a), Pushed(e, b)).canon, slug);
            var once := PageAt(env, ApplyAll(env, EMPTY, Sorted([a, b])), slug);
            && rounds.Some? && rounds.value.title == second && once.Some?
            && (rounds.value.title == once.value.title <==> Precedes(a, b) || first == second)
  {
    TwoRoundsIs(env, Pushed(d, a), Pushed(e, b), slug, first, second);
    SortedTwo(a, b);
    ApplyTwo(env, EMPTY, a, b);
    TwoTitles(env, slug, a, first, b, second);
    TwoTitles(env, slug, b, second, a, first);
  }

  lemma SingleBatch(log: seq<OpRow>, p: Pushed)
    requires log == AllApplied(log) && !Known(log, p)
    ensures PushAll(log, [p]) == log + [OpRow(p.device, p.op, false)] && Sorted(Pending(PushAll(log, [p]))) == [p.op]
  {
    var row := OpRow(p.device, p.op, false);
    assert [p][..0] == [];
    assert PushAll(log, [p]) == PushOne(PushAll(log, [p][..0]), p);
    NothingPends(log);
    assert (log + [row])[..|log|] == log;
    assert Pending(log + [row]) == Pending(log) + [p.op] == [p.op];
    assert [p.op][..0] == [];
    assert Sorted([p.op]) == Put(Sorted([p.op][..0]), p.op);
  }
}
