/** One batch of ops applied inside a request's transaction (qcue-rs/app-server/src/sync/materialize.rs,
    apply_unapplied and apply_wiki_op).

    Ideas, deletions of pages and the flags in the op log belong to the transaction: nobody else sees them
    before it commits, and a rollback takes them back. Page writes do not: the write gate makes each of them on
    a connection of its own and commits it at once. Before it touches the row it writes the body file; then its
    upsert waits for whoever has deleted that row without committing. If that is the very transaction that
    waits for the write, neither ever goes on. */
module Batches {
  import opened Common
  import opened Json
  import opened Pages
  import opened Reducer

  /** What a write that the gate refuses leaves: nothing, a body file without its row, or all of the page. */
  datatype Remains = Untouched | BodyLeft(body: string) | PageWritten

  /** What becomes of an op by itself: it is carried out, or something refuses it. */
  datatype Answer = Accepted | Refused(remains: Remains)

  /** How a batch ends: all of it applied, waiting forever, or rolled back. */
  datatype End = Through | Stalled | RolledBack

  /** The pages as everybody sees them, those of them that the transaction has deleted, and the ideas as the
      transaction sees them. */
  datatype Work = Work(pages: map<Key, Page>, gone: set<Key>, ideas: map<string, Idea>)

  /** The tables as the transaction sees them. */
  function Seen(w: Work): Canon { Canon(w.pages - w.gone, w.ideas) }

  function Leave(pages: map<Key, Page>, key: Key, p: Page, r: Remains): map<Key, Page> {
    match r
    case Untouched => pages
    case BodyLeft(body) => if key in pages then pages[key := pages[key].(body := body)] else pages
    case PageWritten => pages[key := p]
  }

  /** The gate gets as far as the row. */
  predicate ReachesRow(a: Answer) { a.Accepted? || a.remains.PageWritten? }

  /** A write of a page by the gate: an unknown type is refused at the row. */
  function Written(w: Work, key: Key, p: Page, a: Answer): (Work, End) {
    if !ReachesRow(a) then (w.(pages := Leave(w.pages, key, p, a.remains)), RolledBack)
    else if key.pageType !in PAGE_TYPES then (w, RolledBack)
    else if key in w.gone then (w.(pages := Leave(w.pages, key, p, BodyLeft(p.body))), Stalled)
    else (w.(pages := w.pages[key := p]), if a.Accepted? then Through else RolledBack)
  }

  function Deleted(w: Work, current: Option<Key>): Work {
    if current.Some? then w.(gone := w.gone + {current.value}) else w
  }

  function Tried(env: Env, w: Work, o: SyncOp, a: Answer): (Work, End) {
    if WritesPage(o, o.ref) then Written(w, KeyFor(env, Seen(w), o.ref, o.op), PageAfter(env, Seen(w), o.ref, o.op), a)
    else if a.Refused? then (w, RolledBack)
    else if DeletesPage(o, o.ref) then (Deleted(w, Current(env, Seen(w), o.ref)), Through)
    else (w.(ideas := Apply(env, Seen(w), o).ideas), Through)
  }

  /** The batch up to its end or to the op at which it stops. */
  function Worked(env: Env, c: Canon, os: seq<SyncOp>, answers: nat -> Answer): (Work, End) {
    if os == [] then (Work(c.pages, {}, c.ideas), Through)
    else
      var n := |os| - 1;
      var (w, end) := Worked(env, c, os[..n], answers);
      if end.Through? then Tried(env, w, os[n], answers(n)) else (w, end)
  }

  lemma WorkedOneMore(env: Env, c: Canon, os: seq<SyncOp>, answers: nat -> Answer, k: nat)
    requires k < |os| && Worked(env, c, os[..k], answers).1.Through?
    ensures Worked(env, c, os[..k + 1], answers) == Tried(env, Worked(env, c, os[..k], answers).0, os[k], answers(k))
  {
    assert os[..k + 1][..k] == os[..k];
  }

  /** The tables that a batch leaves for everybody: a commit makes the transaction's part visible, a rollback
      drops it. */
  function Left(c: Canon, w: Work, end: End): Canon {
    if end.Through? then Seen(w) else Canon(w.pages, c.ideas)
  }

  lemma {:induction false} StoppedStays(env: Env, c: Canon, os: seq<SyncOp>, answers: nat -> Answer,
                                        k: nat)
    requires k <= |os| && !Worked(env, c, os[..k], answers).1.Through?
    ensures Worked(env, c, os, answers) == Worked(env, c, os[..k], answers)
    decreases |os|
  {
    if k == |os| {
      assert os[..k] == os;
    } else {
      assert os[..|os| - 1][..k] == os[..k];
      StoppedStays(env, c, os[..|os| - 1], answers, k);
    }
  }

  // ---------------------------------------------------------------------------------------------
  // Which batches go through
  // ---------------------------------------------------------------------------------------------

  /** The page that op k writes, going by what the ops before it leave. */
  function KeyAt(env: Env, c: Canon, os: seq<SyncOp>, k: nat): Key
    requires k < |os|
  {
    KeyFor(env, ApplyAll(env, c, os[..k]), os[k].ref, os[k].op)
  }

  /** Op j deletes this page. */
  predicate DeletesKey(env: Env, c: Canon, os: seq<SyncOp>, j: nat, key: Key)
    requires j < |os|
  {
    DeletesPage(os[j], key.slug) && Current(env, ApplyAll(env, c, os[..j]), key.slug) == Some(key)
  }

  /** One of these ops deletes the page. */
  predicate Lost(env: Env, c: Canon, os: seq<SyncOp>, key: Key) {
    exists j :: 0 <= j < |os| && DeletesKey(env, c, os, j, key)
  }

  /** Op k writes a page that an earlier op of the batch has deleted. */
  predicate Doomed(env: Env, c: Canon, os: seq<SyncOp>, k: nat)
    requires k < |os|
  {
    WritesPage(os[k], os[k].ref) && Lost(env, c, os[..k], KeyAt(env, c, os, k))
  }

  /** Op k writes a page of a type that the database does not know. */
  predicate Unknown(env: Env, c: Canon, os: seq<SyncOp>, k: nat)
    requires k < |os|
  {
    WritesPage(os[k], os[k].ref) && KeyAt(env, c, os, k).pageType !in PAGE_TYPES
  }

  predicate Stops(env: Env, c: Canon, os: seq<SyncOp>, k: nat, a: Answer)
    requires k < |os|
  {
    a.Refused? || Unknown(env, c, os, k) || Doomed(env, c, os, k)
  }

  predicate Stalls(env: Env, c: Canon, os: seq<SyncOp>, k: nat, a: Answer)
    requires k < |os|
  {
    Doomed(env, c, os, k) && ReachesRow(a)
  }

  lemma OneMoreLost(env: Env, c: Canon, os: seq<SyncOp>, o: SyncOp, key: Key)
    ensures Lost(env, c, os + [o], key)
            <==> Lost(env, c, os, key)
                 || (DeletesPage(o, key.slug) && Current(env, ApplyAll(env, c, os), key.slug) == Some(key))
  {
    var all := os + [o];
    assert all[..|os|] == os && all[|os|] == o;
    assert forall j :: 0 <= j < |os| ==> all[..j] == os[..j] && all[j] == os[j];
    if Lost(env, c, os, key) {
      var j :| 0 <= j < |os| && DeletesKey(env, c, os, j, key);
      assert DeletesKey(env, c, all, j, key);
    }
    if Lost(env, c, all, key) {
      var j :| 0 <= j < |all| && DeletesKey(env, c, all, j, key);
      assert j < |os| ==> DeletesKey(env, c, os, j, key);
    }
    if DeletesPage(o, key.slug) && Current(env, ApplyAll(env, c, os), key.slug) == Some(key) {
      assert DeletesKey(env, c, all, |os|, key);
    }
  }

  /** Every page that one of these ops deletes is for everybody else as it was when it was deleted. */
  ghost predicate StillThere(env: Env, c: Canon, os: seq<SyncOp>, pages: map<Key, Page>) {
    forall j, key :: 0 <= j < |os| && DeletesKey(env, c, os, j, key) ==>
      PageIn(pages, key) == PageIn(ApplyAll(env, c, os[..j]).pages, key)
  }

  /** What holds of a transaction that has got through these ops: it sees what the reducer makes of them, it
      has deleted the pages that one of them deletes, and everybody else sees these pages as they were. */
  ghost predicate Right(env: Env, c: Canon, os: seq<SyncOp>, w: Work) {
    && Seen(w) == ApplyAll(env, c, os) && w.gone <= w.pages.Keys
    && (forall key :: key in w.gone <==> Lost(env, c, os, key))
    && StillThere(env, c, os, w.pages)
  }

  lemma ApplyOneMore(env: Env, c: Canon, os: seq<SyncOp>, o: SyncOp)
    ensures ApplyAll(env, c, os + [o]) == Apply(env, ApplyAll(env, c, os), o)
  {
    assert (os + [o])[..|os|] == os;
  }

  lemma EarlierStillThere(env: Env, c: Canon, os: seq<SyncOp>, o: SyncOp, pages: map<Key, Page>, j: nat, key: Key)
    requires StillThere(env, c, os, pages) && j < |os| && DeletesKey(env, c, os + [o], j, key)
    ensures DeletesKey(env, c, os, j, key)
    ensures PageIn(pages, key) == PageIn(ApplyAll(env, c, (os + [o])[..j]).pages, key)
  {
    assert (os + [o])[..j] == os[..j];
    assert DeletesKey(env, c, os, j, key);
  }

  /** What was deleted stays as it was while other pages are written. */
  lemma StillThereAfter(env: Env, c: Canon, os: seq<SyncOp>, o: SyncOp, pages: map<Key, Page>, pages': map<Key, Page>,
                        view: Canon)
    requires StillThere(env, c, os, pages) && view == ApplyAll(env, c, os)
    requires forall key :: Lost(env, c, os, key) ==> PageIn(pages', key) == PageIn(pages, key)
    requires DeletesPage(o, o.ref) ==>
               forall key :: key in view.pages ==> PageIn(pages', key) == PageIn(view.pages, key)
    ensures StillThere(env, c, os + [o], pages')
  {
    var all := os + [o];
    forall j, key | 0 <= j < |all| && DeletesKey(env, c, all, j, key)
      ensures PageIn(pages', key) == PageIn(ApplyAll(env, c, all[..j]).pages, key)
    {
      if j < |os| {
        EarlierStillThere(env, c, os, o, pages, j, key);
        assert Lost(env, c, os, key);
      } else {
        assert all[..j] == os;
      }
    }
  }

  lemma WriteStaysRight(env: Env, c: Canon, os: seq<SyncOp>, o: SyncOp, w: Work, key: Key, p: Page)
    requires Right(env, c, os, w) && WritesPage(o, o.ref) && key !in w.gone && key.pageType in PAGE_TYPES
    requires key == KeyFor(env, Seen(w), o.ref, o.op) && p == PageAfter(env, Seen(w), o.ref, o.op)
    ensures Right(env, c, os + [o], w.(pages := w.pages[key := p]))
  {
    var w' := w.(pages := w.pages[key := p]);
    ApplyOneMore(env, c, os, o);
    assert Seen(w').pages == Seen(w).pages[key := p];
    forall x
      ensures Lost(env, c, os + [o], x) <==> x in w'.gone
    {
      OneMoreLost(env, c, os, o, x);
    }
    StillThereAfter(env, c, os, o, w.pages, w'.pages, Seen(w));
  }

  lemma DeletionStaysRight(env: Env, c: Canon, os: seq<SyncOp>, o: SyncOp, w: Work)
    requires Right(env, c, os, w) && DeletesPage(o, o.ref)
    ensures Right(env, c, os + [o], Deleted(w, Current(env, Seen(w), o.ref)))
  {
    var current := Current(env, Seen(w), o.ref);
    var w' := Deleted(w, current);
    ApplyOneMore(env, c, os, o);
    assert current.Some? ==> Seen(w').pages == Seen(w).pages - {current.value};
    forall x
      ensures Lost(env, c, os + [o], x) <==> x in w'.gone
    {
      OneMoreLost(env, c, os, o, x);
    }
    assert forall key :: key in Seen(w).pages ==> PageIn(w.pages, key) == PageIn(Seen(w).pages, key);
    StillThereAfter(env, c, os, o, w.pages, w'.pages, Seen(w));
  }

  lemma IdeasAlone(env: Env, c: Canon, o: SyncOp)
    requires !WritesPage(o, o.ref) && !DeletesPage(o, o.ref)
    ensures Apply(env, c, o).pages == c.pages
  {
  }

  lemma OtherStaysRight(env: Env, c: Canon, os: seq<SyncOp>, o: SyncOp, w: Work)
    requires Right(env, c, os, w) && !WritesPage(o, o.ref) && !DeletesPage(o, o.ref)
    ensures Right(env, c, os + [o], w.(ideas := Apply(env, Seen(w), o).ideas))
  {
    var w' := w.(ideas := Apply(env, Seen(w), o).ideas);
    ApplyOneMore(env, c, os, o);
    IdeasAlone(env, Seen(w), o);
    assert Seen(w') == Apply(env, Seen(w), o);
    forall x
      ensures Lost(env, c, os + [o], x) <==> x in w'.gone
    {
      OneMoreLost(env, c, os, o, x);
    }
    StillThereAfter(env, c, os, o, w.pages, w'.pages, Seen(w));
  }

  /** Only known types are ever deleted. */
  lemma LostIsKnown(env: Env, c: Canon, os: seq<SyncOp>, key: Key)
    requires Lost(env, c, os, key)
    ensures key.pageType in PAGE_TYPES
  {
    var j :| 0 <= j < |os| && DeletesKey(env, c, os, j, key);
  }

  /** An op goes through exactly if it is accepted, and does not write a page that the transaction has deleted,
      or one of an unknown type. */
  lemma TriedIs(env: Env, c: Canon, os: seq<SyncOp>, o: SyncOp, w: Work, a: Answer)
    requires Right(env, c, os, w)
    ensures var (w', end) := Tried(env, w, o, a);
            && (end.Through? <==> !Stops(env, c, os + [o], |os|, a))
            && (end.Stalled? <==> Stalls(env, c, os + [o], |os|, a))
            && (end.Through? ==> Right(env, c, os + [o], w'))
  {
    LastStops(env, c, os, o, a);
    if WritesPage(o, o.ref) {
      WriteIsTried(env, c, os, o, w, a, KeyFor(env, Seen(w), o.ref, o.op), PageAfter(env, Seen(w), o.ref, o.op));
    } else if DeletesPage(o, o.ref) {
      DeletionStaysRight(env, c, os, o, w);
    } else {
      OtherStaysRight(env, c, os, o, w);
    }
  }

  lemma LastStops(env: Env, c: Canon, os: seq<SyncOp>, o: SyncOp, a: Answer)
    ensures var key := KeyFor(env, ApplyAll(env, c, os), o.ref, o.op);
            && (Stops(env, c, os + [o], |os|, a)
                <==> a.Refused? || (WritesPage(o, o.ref) && (key.pageType !in PAGE_TYPES || Lost(env, c, os, key))))
            && (Stalls(env, c, os + [o], |os|, a)
                <==> WritesPage(o, o.ref) && Lost(env, c, os, key) && ReachesRow(a))
  {
    assert (os + [o])[..|os|] == os && (os + [o])[|os|] == o;
  }

  lemma WriteIsTried(env: Env, c: Canon, os: seq<SyncOp>, o: SyncOp, w: Work, a: Answer, key: Key, p: Page)
    requires Right(env, c, os, w) && WritesPage(o, o.ref)
    requires key == KeyFor(env, Seen(w), o.ref, o.op) && p == PageAfter(env, Seen(w), o.ref, o.op)
    ensures var (w', end) := Written(w, key, p, a);
            && (end.Through? <==> a.Accepted? && key.pageType in PAGE_TYPES && !Lost(env, c, os, key))
            && (end.Stalled? <==> Lost(env, c, os, key) && ReachesRow(a))
            && (end.Through? ==> Right(env, c, os + [o], w'))
  {
    if key in w.gone {
      LostIsKnown(env, c, os, key);
    } else if key.pageType in PAGE_TYPES {
      WriteStaysRight(env, c, os, o, w, key, p);
    }
  }

  lemma StartsRight(env: Env, c: Canon)
    ensures Right(env, c, [], Work(c.pages, {}, c.ideas))
  {
    assert c.pages - {} == c.pages;
  }

  lemma StopsBefore(env: Env, c: Canon, os: seq<SyncOp>, n: nat, answers: nat -> Answer)
    requires n <= |os|
    ensures forall k :: 0 <= k < n ==>
              (Stops(env, c, os[..n], k, answers(k)) <==> Stops(env, c, os, k, answers(k)))
              && (Stalls(env, c, os[..n], k, answers(k)) <==> Stalls(env, c, os, k, answers(k)))
  {
    assert forall k :: 0 <= k < n ==> os[..n][..k] == os[..k];
  }

  predicate NothingStops(env: Env, c: Canon, os: seq<SyncOp>, answers: nat -> Answer) {
    forall k :: 0 <= k < |os| ==> !Stops(env, c, os, k, answers(k))
  }

  lemma StopBefore(env: Env, c: Canon, os: seq<SyncOp>, n: nat, k: nat, a: Answer)
    requires k < n <= |os|
    ensures Stops(env, c, os[..n], k, a) <==> Stops(env, c, os, k, a)
  {
    assert os[..n][..k] == os[..k];
  }

  /** None of the first n ops stops the batch. */
  predicate NoneStops(env: Env, c: Canon, os: seq<SyncOp>, answers: nat -> Answer, n: nat)
    requires n <= |os|
  {
    forall k :: 0 <= k < n ==> !Stops(env, c, os, k, answers(k))
  }

  lemma NoneMoreStops(env: Env, c: Canon, os: seq<SyncOp>, answers: nat -> Answer, n: nat)
    requires n < |os|
    ensures NoneStops(env, c, os, answers, n + 1)
            <==> NoneStops(env, c, os, answers, n) && !Stops(env, c, os, n, answers(n))
  {
  }

  lemma NextTried(env: Env, c: Canon, os: seq<SyncOp>, n: nat, w: Work, a: Answer)
    requires n < |os| && Right(env, c, os[..n], w)
    ensures var (w', end) := Tried(env, w, os[n], a);
            (end.Through? <==> !Stops(env, c, os, n, a)) && (end.Through? ==> Right(env, c, os[..n + 1], w'))
  {
    assert os[..n] + [os[n]] == os[..n + 1];
    TriedIs(env, c, os[..n], os[n], w, a);
    StopBefore(env, c, os, n + 1, n, a);
  }

  lemma {:induction false} GoesThroughUpTo(env: Env, c: Canon, os: seq<SyncOp>, answers: nat -> Answer, n: nat)
    requires n <= |os|
    ensures Worked(env, c, os[..n], answers).1.Through? <==> NoneStops(env, c, os, answers, n)
    ensures Worked(env, c, os[..n], answers).1.Through? ==> Right(env, c, os[..n], Worked(env, c, os[..n], answers).0)
  {
    if n == 0 {
      StartsRight(env, c);
    } else {
      var (w, end) := Worked(env, c, os[..n - 1], answers);
      GoesThroughUpTo(env, c, os, answers, n - 1);
      NoneMoreStops(env, c, os, answers, n - 1);
      assert os[..n][..n - 1] == os[..n - 1];
      if end.Through? {
        WorkedOneMore(env, c, os, answers, n - 1);
        NextTried(env, c, os, n - 1, w, answers(n - 1));
      } else {
        StoppedStays(env, c, os[..n], answers, n - 1);
      }
    }
  }

  /** A batch goes through exactly if every op is accepted and none writes a page that an earlier op of the
      batch has deleted, or one of an unknown type; and then it leaves what the reducer makes of it. */
  lemma GoesThroughExactlyIf(env: Env, c: Canon, os: seq<SyncOp>, answers: nat -> Answer)
    ensures Worked(env, c, os, answers).1.Through? <==> NothingStops(env, c, os, answers)
    ensures Worked(env, c, os, answers).1.Through? ==> Right(env, c, os, Worked(env, c, os, answers).0)
  {
    GoesThroughUpTo(env, c, os, answers, |os|);
    assert os[..|os|] == os;
  }

  /** The first op at which the batch stops. */
  predicate FirstStop(env: Env, c: Canon, os: seq<SyncOp>, answers: nat -> Answer, k: nat) {
    k < |os| && Stops(env, c, os, k, answers(k)) && forall i :: 0 <= i < k ==> !Stops(env, c, os, i, answers(i))
  }

  /** How a batch ends that has got to op k. */
  lemma EndsAt(env: Env, c: Canon, os: seq<SyncOp>, answers: nat -> Answer, k: nat, w: Work)
    requires k < |os| && Right(env, c, os[..k], w) && Stops(env, c, os, k, answers(k))
    ensures Tried(env, w, os[k], answers(k)).1 == if Stalls(env, c, os, k, answers(k)) then Stalled else RolledBack
  {
    StopsBefore(env, c, os, k + 1, answers);
    assert os[..k + 1] == os[..k] + [os[k]];
    TriedIs(env, c, os[..k], os[k], w, answers(k));
  }

  lemma StopsAt(env: Env, c: Canon, os: seq<SyncOp>, answers: nat -> Answer, k: nat)
    requires FirstStop(env, c, os, answers, k)
    ensures var w := Worked(env, c, os[..k], answers).0;
            && Right(env, c, os[..k], w)
            && Worked(env, c, os, answers) == Tried(env, w, os[k], answers(k))
            && Worked(env, c, os, answers).1 == if Stalls(env, c, os, k, answers(k)) then Stalled else RolledBack
  {
    StopsBefore(env, c, os, k, answers);
    GoesThroughExactlyIf(env, c, os[..k], answers);
    var w := Worked(env, c, os[..k], answers).0;
    EndsAt(env, c, os, answers, k, w);
    WorkedOneMore(env, c, os, answers, k);
    StoppedStays(env, c, os, answers, k + 1);
  }

  lemma {:induction false} SomeFirstStop(env: Env, c: Canon, os: seq<SyncOp>, answers: nat -> Answer, n: nat)
    returns (k: nat)
    requires n < |os| && Stops(env, c, os, n, answers(n))
    ensures k <= n && FirstStop(env, c, os, answers, k)
  {
    if i :| 0 <= i < n && Stops(env, c, os, i, answers(i)) {
      k := SomeFirstStop(env, c, os, answers, i);
    } else {
      k := n;
    }
  }

  lemma OneFirstStop(env: Env, c: Canon, os: seq<SyncOp>, answers: nat -> Answer, i: nat, k: nat)
    requires FirstStop(env, c, os, answers, i) && FirstStop(env, c, os, answers, k)
    ensures i == k
  {
  }

  /** A batch stalls exactly if the first op at which it stops writes a page that an earlier op has deleted, and
      gets as far as its row. */
  lemma StallsExactlyIf(env: Env, c: Canon, os: seq<SyncOp>, answers: nat -> Answer)
    ensures Worked(env, c, os, answers).1.Stalled?
            <==> exists k :: FirstStop(env, c, os, answers, k) && Stalls(env, c, os, k, answers(k))
  {
    GoesThroughExactlyIf(env, c, os, answers);
    if !Worked(env, c, os, answers).1.Through? {
      var n :| 0 <= n < |os| && Stops(env, c, os, n, answers(n));
      var k := SomeFirstStop(env, c, os, answers, n);
      StopsAt(env, c, os, answers, k);
      forall i | FirstStop(env, c, os, answers, i)
        ensures i == k
      {
        OneFirstStop(env, c, os, answers, i, k);
      }
    }
  }

  /** What a batch leaves that stops at op k: the ideas as they were; the pages as the reducer makes them of the
      ops before k, and those that these delete as they were when they were deleted; and of op k what the gate
      has done of it. */
  lemma StoppedLeaves(env: Env, c: Canon, os: seq<SyncOp>, answers: nat -> Answer, k: nat)
    requires FirstStop(env, c, os, answers, k)
    ensures var (w, end) := Worked(env, c, os, answers);
            var pages := Worked(env, c, os[..k], answers).0.pages;
            && StillThere(env, c, os[..k], pages)
            && (forall key :: !Lost(env, c, os[..k], key) ==>
                  PageIn(pages, key) == PageIn(ApplyAll(env, c, os[..k]).pages, key))
            && Left(c, w, end) == Canon(LeftAt(env, c, os, answers, k, pages), c.ideas)
  {
    StopsAt(env, c, os, answers, k);
    var w := Worked(env, c, os[..k], answers).0;
    assert forall key :: key !in w.gone ==> PageIn(w.pages, key) == PageIn(Seen(w).pages, key);
  }

  /** The pages after the op that stops. A stalled write has overwritten the body file. */
  function LeftAt(env: Env, c: Canon, os: seq<SyncOp>, answers: nat -> Answer, k: nat, pages: map<Key, Page>)
    : map<Key, Page>
    requires k < |os|
  {
    var p := PageAfter(env, ApplyAll(env, c, os[..k]), os[k].ref, os[k].op);
    if !WritesPage(os[k], os[k].ref) then pages
    else if Stalls(env, c, os, k, answers(k)) then Leave(pages, KeyAt(env, c, os, k), p, BodyLeft(p.body))
    else if ReachesRow(answers(k)) && Unknown(env, c, os, k) then pages
    else if answers(k).Refused? then Leave(pages, KeyAt(env, c, os, k), p, answers(k).remains)
    else pages
  }

  // ---------------------------------------------------------------------------------------------
  // Batches that cannot stall
  // ---------------------------------------------------------------------------------------------

  /** No deletion of a page is followed by a write under the same slug. */
  predicate NoRewrite(os: seq<SyncOp>) {
    forall i, j :: 0 <= i < j < |os| && DeletesPage(os[i], os[i].ref) ==> !WritesPage(os[j], os[i].ref)
  }

  lemma NoRewriteIsNotDoomed(env: Env, c: Canon, os: seq<SyncOp>, k: nat)
    requires NoRewrite(os) && k < |os|
    ensures !Doomed(env, c, os, k)
  {
    assert WritesPage(os[k], os[k].ref) ==> forall j :: 0 <= j < k ==> !DeletesPage(os[j], os[k].ref);
  }

  ghost predicate NeverDoomed(env: Env, os: seq<SyncOp>) {
    forall c: Canon, k :: 0 <= k < |os| ==> !Doomed(env, c, os, k)
  }

  predicate NamesNoType(os: seq<SyncOp>, slug: string) {
    forall k :: 0 <= k < |os| && WritesPage(os[k], slug) ==> Named(os[k].op).None?
  }

  /** Of this slug there is no page but one of this type. */
  ghost predicate OnlyType(c: Canon, slug: string, kind: string) {
    forall k :: Key(k, slug) in c.pages ==> k == kind
  }

  lemma OnlyTypeCurrent(env: Env, c: Canon, slug: string, kind: string)
    requires OnlyType(c, slug, kind) && kind in PAGE_TYPES
    ensures Current(env, c, slug) == if Key(kind, slug) in c.pages then Some(Key(kind, slug)) else None
  {
    var r := Current(env, c, slug);
    assert r.Some? ==> Key(r.value.pageType, slug) in c.pages;
  }

  lemma OnlyTypeAfter(env: Env, c: Canon, o: SyncOp, slug: string, kind: string)
    requires OnlyType(c, slug, kind)
    requires WritesPage(o, slug) ==> KeyFor(env, c, slug, o.op).pageType == kind
    ensures OnlyType(Apply(env, c, o), slug, kind)
    ensures WritesPage(o, slug) && kind in PAGE_TYPES ==> Key(kind, slug) in Apply(env, c, o).pages
    ensures !DeletesPage(o, slug) && Key(kind, slug) in c.pages ==> Key(kind, slug) in Apply(env, c, o).pages
    ensures !DeletesPage(o, slug) && !WritesPage(o, slug) ==>
              (Key(kind, slug) in Apply(env, c, o).pages <==> Key(kind, slug) in c.pages)
  {
    forall k
      ensures Key(k, slug) in Apply(env, c, o).pages ==> k == kind
    {
      assert Key(k, slug) in c.pages ==> k == kind;
    }
  }

  lemma {:induction false} ConceptStays(env: Env, c: Canon, os: seq<SyncOp>, slug: string)
    requires OnlyType(c, slug, "concept") && NamesNoType(os, slug)
    ensures OnlyType(ApplyAll(env, c, os), slug, "concept")
    ensures (Key("concept", slug) in c.pages && forall h :: 0 <= h < |os| ==> !DeletesPage(os[h], slug)) ==>
              Key("concept", slug) in ApplyAll(env, c, os).pages
  {
    if os != [] {
      var n := |os| - 1;
      ConceptStays(env, c, os[..n], slug);
      OnlyTypeCurrent(env, ApplyAll(env, c, os[..n]), slug, "concept");
      OnlyTypeAfter(env, ApplyAll(env, c, os[..n]), os[n], slug, "concept");
    }
  }

  lemma {:induction false} FirstDeletion(os: seq<SyncOp>, i: nat, slug: string) returns (j: nat)
    requires i < |os| && DeletesPage(os[i], slug)
    ensures j <= i && DeletesPage(os[j], slug) && forall h :: 0 <= h < j ==> !DeletesPage(os[h], slug)
  {
    if h :| 0 <= h < i && DeletesPage(os[h], slug) {
      j := FirstDeletion(os, h, slug);
    } else {
      j := i;
    }
  }

  lemma ConceptIsDoomed(env: Env, os: seq<SyncOp>, i: nat, k: nat, slug: string, c: Canon)
    requires i < k < |os| && DeletesPage(os[i], slug) && WritesPage(os[k], slug) && NamesNoType(os, slug)
    requires OnlyType(c, slug, "concept") && Key("concept", slug) in c.pages
    ensures Doomed(env, c, os, k)
  {
    var key := Key("concept", slug);
    var j := FirstDeletion(os, i, slug);
    ConceptStays(env, c, os[..j], slug);
    OnlyTypeCurrent(env, ApplyAll(env, c, os[..j]), slug, "concept");
    assert os[..k][..j] == os[..j] && DeletesKey(env, c, os[..k], j, key);
    ConceptStays(env, c, os[..k], slug);
    OnlyTypeCurrent(env, ApplyAll(env, c, os[..k]), slug, "concept");
    assert KeyAt(env, c, os, k) == key;
  }

  function OneConcept(slug: string): (c: Canon)
    ensures OnlyType(c, slug, "concept") && Key("concept", slug) in c.pages
  {
    Canon(map[Key("concept", slug) := Page("", "")], map[])
  }

  lemma RewriteDooms(env: Env, os: seq<SyncOp>, i: nat, k: nat)
    requires i < k < |os| && DeletesPage(os[i], os[i].ref) && WritesPage(os[k], os[i].ref)
    requires NamesNoType(os, os[i].ref)
    ensures !NeverDoomed(env, os)
  {
    var c := OneConcept(os[i].ref);
    ConceptIsDoomed(env, os, i, k, os[i].ref, c);
  }

  /** Whatever pages there are, a batch does not stall if no deletion in it is followed by a write under the same
      slug; and exactly then, where no op names a type. */
  lemma NeverStallsIf(env: Env, os: seq<SyncOp>)
    ensures NoRewrite(os) ==> NeverDoomed(env, os)
    ensures (forall slug :: NamesNoType(os, slug)) ==> (NeverDoomed(env, os) <==> NoRewrite(os))
  {
    if NoRewrite(os) {
      forall c: Canon, k | 0 <= k < |os|
        ensures !Doomed(env, c, os, k)
      {
        NoRewriteIsNotDoomed(env, c, os, k);
      }
    } else if forall slug :: NamesNoType(os, slug) {
      var i, k :| 0 <= i < k < |os| && DeletesPage(os[i], os[i].ref) && WritesPage(os[k], os[i].ref);
      RewriteDooms(env, os, i, k);
    }
  }

  lemma OnlyPageDeleted(env: Env, c: Canon, d: SyncOp, slug: string, kind: string)
    requires DeletesPage(d, slug) && OnlyType(c, slug, kind) && kind in PAGE_TYPES && Key(kind, slug) in c.pages
    ensures Current(env, ApplyAll(env, c, [d]), slug).None?
  {
    OnlyTypeCurrent(env, c, slug, kind);
    ApplyOneMore(env, c, [], d);
    assert [] + [d] == [d];
    assert ApplyAll(env, c, [d]).pages == c.pages - {Key(kind, slug)};
    assert forall k :: k in PAGE_TYPES ==> (Key(k, slug) in c.pages ==> k == kind);
  }

  /** Deleting the only page of a slug and writing under the slug again in one batch: the batch stalls exactly
      if the new page is of the old one's type, which is that of a concept unless the op names it. */
  lemma DeleteThenWriteStallsExactlyIf(env: Env, c: Canon, d: SyncOp, o: SyncOp, answers: nat -> Answer, kind: string)
    requires DeletesPage(d, o.ref) && WritesPage(o, o.ref) && answers(0).Accepted? && answers(1).Accepted?
    requires OnlyType(c, o.ref, kind) && kind in PAGE_TYPES && Key(kind, o.ref) in c.pages
    ensures Worked(env, c, [d, o], answers).1.Stalled? <==> Named(o.op).GetOr("concept") == kind
  {
    var os, key := [d, o], Key(kind, o.ref);
    assert os[..1] == [d] && os[..0] == [] && os[..1][..0] == [];
    OnlyTypeCurrent(env, c, o.ref, kind);
    OnlyPageDeleted(env, c, d, o.ref, kind);
    assert DeletesKey(env, c, os[..1], 0, key);
    DeletesOne(env, c, d, KeyAt(env, c, os, 1));
    assert !Stops(env, c, os, 0, answers(0));
    StallsExactlyIf(env, c, os, answers);
    if Doomed(env, c, os, 1) {
      assert FirstStop(env, c, os, answers, 1);
    }
  }

  lemma DeletesOne(env: Env, c: Canon, d: SyncOp, key: Key)
    ensures Lost(env, c, [d], key) <==> DeletesPage(d, key.slug) && Current(env, c, key.slug) == Some(key)
  {
    assert [] + [d] == [d];
    OneMoreLost(env, c, [], d, key);
  }

  // ---------------------------------------------------------------------------------------------
  // Trying again
  // ---------------------------------------------------------------------------------------------

  /** Up to op k all writes under this slug are of one type, and there is no page of another. */
  ghost predicate OfOneType(env: Env, c: Canon, os: seq<SyncOp>, k: nat, kind: string)
    requires k < |os|
  {
    && OnlyType(c, os[k].ref, kind) && kind in PAGE_TYPES
    && forall i :: 0 <= i <= k && WritesPage(os[i], os[k].ref) ==> KeyAt(env, c, os, i).pageType == kind
  }

  lemma {:induction false} OneTypeUpTo(env: Env, c: Canon, os: seq<SyncOp>, k: nat, kind: string, n: nat)
    requires k < |os| && OfOneType(env, c, os, k, kind) && n <= k + 1
    ensures OnlyType(ApplyAll(env, c, os[..n]), os[k].ref, kind)
  {
    if n > 0 {
      OneTypeUpTo(env, c, os, k, kind, n - 1);
      assert os[..n][..n - 1] == os[..n - 1] && os[..n][n - 1] == os[n - 1];
      OnlyTypeAfter(env, ApplyAll(env, c, os[..n - 1]), os[n - 1], os[k].ref, kind);
    }
  }

  lemma MoreOnce(env: Env, x: Canon, y: Canon, o: SyncOp, slug: string, kind: string)
    requires OnlyType(x, slug, kind) && OnlyType(y, slug, kind) && kind in PAGE_TYPES
    requires Key(kind, slug) in x.pages ==> Key(kind, slug) in y.pages
    requires WritesPage(o, slug) ==> KeyFor(env, x, slug, o.op).pageType == kind
    ensures WritesPage(o, slug) ==> KeyFor(env, y, slug, o.op).pageType == kind
    ensures OnlyType(Apply(env, y, o), slug, kind)
    ensures Key(kind, slug) in Apply(env, x, o).pages ==> Key(kind, slug) in Apply(env, y, o).pages
  {
    OnlyTypeCurrent(env, x, slug, kind);
    OnlyTypeCurrent(env, y, slug, kind);
    OnlyTypeAfter(env, x, o, slug, kind);
    OnlyTypeAfter(env, y, o, slug, kind);
    DeletedIsGone(env, x, o, slug, kind);
  }

  /** With more pages, of the same type, the ops do the same. */
  lemma {:induction false} MoreOfOneType(env: Env, c: Canon, d: Canon, os: seq<SyncOp>, k: nat, kind: string, n: nat)
    requires k < |os| && OfOneType(env, c, os, k, kind) && OnlyType(d, os[k].ref, kind) && n <= k + 1
    requires Key(kind, os[k].ref) in c.pages ==> Key(kind, os[k].ref) in d.pages
    ensures OnlyType(ApplyAll(env, d, os[..n]), os[k].ref, kind)
    ensures Key(kind, os[k].ref) in ApplyAll(env, c, os[..n]).pages ==>
              Key(kind, os[k].ref) in ApplyAll(env, d, os[..n]).pages
    ensures n > 0 && WritesPage(os[n - 1], os[k].ref) ==> KeyAt(env, d, os, n - 1).pageType == kind
  {
    if n > 0 {
      MoreOfOneType(env, c, d, os, k, kind, n - 1);
      OneTypeUpTo(env, c, os, k, kind, n - 1);
      assert os[..n] == os[..n - 1] + [os[n - 1]];
      ApplyOneMore(env, c, os[..n - 1], os[n - 1]);
      ApplyOneMore(env, d, os[..n - 1], os[n - 1]);
      assert WritesPage(os[n - 1], os[k].ref) ==> KeyAt(env, c, os, n - 1).pageType == kind;
      MoreOnce(env, ApplyAll(env, c, os[..n - 1]), ApplyAll(env, d, os[..n - 1]), os[n - 1], os[k].ref, kind);
    }
  }

  lemma DeletedIsGone(env: Env, c: Canon, o: SyncOp, slug: string, kind: string)
    requires OnlyType(c, slug, kind) && kind in PAGE_TYPES
    ensures DeletesPage(o, slug) ==> Key(kind, slug) !in Apply(env, c, o).pages
  {
    OnlyTypeCurrent(env, c, slug, kind);
  }

  lemma DoomedWithMore(env: Env, c: Canon, d: Canon, os: seq<SyncOp>, k: nat, kind: string)
    requires k < |os| && OfOneType(env, c, os, k, kind) && OnlyType(d, os[k].ref, kind) && Doomed(env, c, os, k)
    requires Key(kind, os[k].ref) in c.pages ==> Key(kind, os[k].ref) in d.pages
    ensures OfOneType(env, d, os, k, kind) && Doomed(env, d, os, k)
  {
    var key := Key(kind, os[k].ref);
    forall i | 0 <= i <= k && WritesPage(os[i], os[k].ref)
      ensures KeyAt(env, d, os, i).pageType == kind
    {
      MoreOfOneType(env, c, d, os, k, kind, i + 1);
    }
    assert KeyAt(env, c, os, k) == key == KeyAt(env, d, os, k);
    var j :| 0 <= j < k && DeletesKey(env, c, os[..k], j, key);
    assert os[..k][..j] == os[..j];
    MoreOfOneType(env, c, d, os, k, kind, j);
    OnlyTypeCurrent(env, ApplyAll(env, d, os[..j]), os[k].ref, kind);
    assert DeletesKey(env, d, os[..k], j, key);
  }

  lemma PagesStayOnce(env: Env, w: Work, o: SyncOp, a: Answer)
    ensures w.pages.Keys <= Tried(env, w, o, a).0.pages.Keys
  {
  }

  /** No batch takes a page away before it commits. */
  lemma {:induction false} PagesStay(env: Env, c: Canon, os: seq<SyncOp>, answers: nat -> Answer)
    ensures c.pages.Keys <= Worked(env, c, os, answers).0.pages.Keys
  {
    if os != [] {
      var n := |os| - 1;
      PagesStay(env, c, os[..n], answers);
      PagesStayOnce(env, Worked(env, c, os[..n], answers).0, os[n], answers(n));
    }
  }

  lemma OnlyItsPageIsNew(env: Env, w: Work, o: SyncOp, a: Answer, key: Key)
    requires key in Tried(env, w, o, a).0.pages && key !in w.pages
    ensures WritesPage(o, key.slug) && key == KeyFor(env, Seen(w), o.ref, o.op)
  {
  }

  lemma PagesOfOneTypeOnce(env: Env, w: Work, o: SyncOp, a: Answer, slug: string, kind: string, w': Work)
    requires OnlyType(Canon(w.pages, map[]), slug, kind) && w' == Tried(env, w, o, a).0
    requires WritesPage(o, slug) ==> KeyFor(env, Seen(w), slug, o.op).pageType == kind
    ensures OnlyType(Canon(w'.pages, map[]), slug, kind)
  {
    forall k | Key(k, slug) in w'.pages
      ensures k == kind
    {
      if Key(k, slug) in w.pages {
        assert Key(k, slug) in Canon(w.pages, map[]).pages;
      } else {
        OnlyItsPageIsNew(env, w, o, a, Key(k, slug));
      }
    }
  }

  /** Wherever the batch stops, at op k at the latest, it leaves pages of that type only. */
  lemma {:induction false} PagesOfOneType(env: Env, c: Canon, os: seq<SyncOp>, answers: nat -> Answer, k: nat,
                                          kind: string, n: nat)
    requires k < |os| && OfOneType(env, c, os, k, kind) && n <= k + 1
    ensures OnlyType(Canon(Worked(env, c, os[..n], answers).0.pages, map[]), os[k].ref, kind)
  {
    if n > 0 {
      var (w, end) := Worked(env, c, os[..n - 1], answers);
      assert os[..n][..n - 1] == os[..n - 1] && os[..n][n - 1] == os[n - 1];
      PagesOfOneType(env, c, os, answers, k, kind, n - 1);
      GoesThroughExactlyIf(env, c, os[..n - 1], answers);
      if end.Through? {
        assert WritesPage(os[n - 1], os[k].ref) ==> KeyAt(env, c, os, n - 1).pageType == kind;
        var w' := Tried(env, w, os[n - 1], answers(n - 1)).0;
        PagesOfOneTypeOnce(env, w, os[n - 1], answers(n - 1), os[k].ref, kind, w');
      }
    } else {
      assert forall x :: Key(x, os[k].ref) in c.pages ==> x == kind;
    }
  }

  lemma StoppedAt(env: Env, c: Canon, os: seq<SyncOp>, answers: nat -> Answer, k: nat)
    requires k < |os| && Stops(env, c, os, k, answers(k))
    ensures !Worked(env, c, os, answers).1.Through?
    ensures Worked(env, c, os, answers) == Worked(env, c, os[..k + 1], answers)
  {
    GoesThroughUpTo(env, c, os, answers, k + 1);
    StoppedStays(env, c, os, answers, k + 1);
  }

  lemma LeftOfOneType(env: Env, c: Canon, os: seq<SyncOp>, answers: nat -> Answer, k: nat, kind: string, w: Work)
    requires k < |os| && OfOneType(env, c, os, k, kind) && Stops(env, c, os, k, answers(k))
    requires w == Worked(env, c, os, answers).0
    ensures OnlyType(Canon(w.pages, c.ideas), os[k].ref, kind) && c.pages.Keys <= w.pages.Keys
  {
    StoppedAt(env, c, os, answers, k);
    PagesOfOneType(env, c, os, answers, k, kind, k + 1);
    PagesStay(env, c, os, answers);
    assert forall x :: Key(x, os[k].ref) in w.pages ==> Key(x, os[k].ref) in Canon(w.pages, map[]).pages;
  }

  /** A batch that is doomed, with all writes of the page of its type, is still doomed after any attempt at it,
      whatever that attempt met. */
  lemma DoomedStays(env: Env, c: Canon, os: seq<SyncOp>, answers: nat -> Answer, k: nat, kind: string, w: Work)
    requires k < |os| && Doomed(env, c, os, k) && OfOneType(env, c, os, k, kind)
    requires w == Worked(env, c, os, answers).0
    ensures !Worked(env, c, os, answers).1.Through?
    ensures Doomed(env, Canon(w.pages, c.ideas), os, k) && OfOneType(env, Canon(w.pages, c.ideas), os, k, kind)
  {
    StoppedAt(env, c, os, answers, k);
    LeftOfOneType(env, c, os, answers, k, kind, w);
    DoomedWithMore(env, c, Canon(w.pages, c.ideas), os, k, kind);
  }

  // ---------------------------------------------------------------------------------------------
  // Two batches, or one
  // ---------------------------------------------------------------------------------------------

  lemma {:induction false} LostAfter(env: Env, c: Canon, a: seq<SyncOp>, b: seq<SyncOp>, key: Key)
    ensures Lost(env, c, a + b, key) <==> Lost(env, c, a, key) || Lost(env, ApplyAll(env, c, a), b, key)
    decreases |b|
  {
    if b == [] {
      assert a + b == a;
    } else {
      var n := |b| - 1;
      assert b == b[..n] + [b[n]] && a + b == a + b[..n] + [b[n]];
      LostAfter(env, c, a, b[..n], key);
      ApplyAllAppend(env, c, a, b[..n]);
      OneMoreLost(env, c, a + b[..n], b[n], key);
      OneMoreLost(env, ApplyAll(env, c, a), b[..n], b[n], key);
    }
  }

  /** Op k of the second batch writes a page that the first deleted. */
  predicate RewritesAt(env: Env, c: Canon, a: seq<SyncOp>, b: seq<SyncOp>, k: nat)
    requires k < |b|
  {
    WritesPage(b[k], b[k].ref) && Lost(env, c, a, KeyAt(env, ApplyAll(env, c, a), b, k))
  }

  predicate Rewrites(env: Env, c: Canon, a: seq<SyncOp>, b: seq<SyncOp>) {
    exists k :: 0 <= k < |b| && RewritesAt(env, c, a, b, k)
  }

  lemma StopsTogether(env: Env, c: Canon, a: seq<SyncOp>, b: seq<SyncOp>, k: nat, x: Answer)
    requires k < |b|
    ensures Stops(env, c, a + b, |a| + k, x)
            <==> Stops(env, ApplyAll(env, c, a), b, k, x) || RewritesAt(env, c, a, b, k)
  {
    assert (a + b)[..|a| + k] == a + b[..k] && (a + b)[|a| + k] == b[k];
    ApplyAllAppend(env, c, a, b[..k]);
    LostAfter(env, c, a, b[..k], KeyAt(env, ApplyAll(env, c, a), b, k));
  }

  /** The answers to the ops from the n-th on. */
  function From(answers: nat -> Answer, n: nat): nat -> Answer { (k: nat) => answers(n + k) }

  predicate NothingStopsFrom(env: Env, c: Canon, os: seq<SyncOp>, answers: nat -> Answer, n: nat) {
    forall k :: n <= k < |os| ==> !Stops(env, c, os, k, answers(k))
  }

  lemma SecondStopsNowhere(env: Env, c: Canon, a: seq<SyncOp>, b: seq<SyncOp>,
                           answers: nat -> Answer, k: nat)
    requires NothingStopsFrom(env, c, a + b, answers, |a|) && k < |b|
    ensures !Stops(env, ApplyAll(env, c, a), b, k, answers(|a| + k))
    ensures !RewritesAt(env, c, a, b, k)
  {
    var i := |a| + k;
    assert !Stops(env, c, a + b, i, answers(i));
    StopsTogether(env, c, a, b, k, answers(i));
  }

  lemma TogetherStopsNowhere(env: Env, c: Canon, a: seq<SyncOp>, b: seq<SyncOp>, answers: nat -> Answer, i: nat)
    requires NothingStops(env, ApplyAll(env, c, a), b, From(answers, |a|)) && !Rewrites(env, c, a, b)
    requires i < |b|
    ensures !Stops(env, c, a + b, |a| + i, answers(|a| + i))
  {
    assert From(answers, |a|)(i) == answers(|a| + i);
    assert !Stops(env, ApplyAll(env, c, a), b, i, From(answers, |a|)(i));
    assert !RewritesAt(env, c, a, b, i);
    StopsTogether(env, c, a, b, i, answers(|a| + i));
  }

  lemma SecondHalf(env: Env, c: Canon, a: seq<SyncOp>, b: seq<SyncOp>, answers: nat -> Answer)
    ensures NothingStopsFrom(env, c, a + b, answers, |a|)
            <==> NothingStops(env, ApplyAll(env, c, a), b, From(answers, |a|)) && !Rewrites(env, c, a, b)
  {
    if NothingStopsFrom(env, c, a + b, answers, |a|) {
      forall k | 0 <= k < |b|
        ensures !Stops(env, ApplyAll(env, c, a), b, k, From(answers, |a|)(k))
        ensures !RewritesAt(env, c, a, b, k)
      {
        SecondStopsNowhere(env, c, a, b, answers, k);
      }
    }
    if NothingStops(env, ApplyAll(env, c, a), b, From(answers, |a|)) && !Rewrites(env, c, a, b) {
      forall k | |a| <= k < |a + b|
        ensures !Stops(env, c, a + b, k, answers(k))
      {
        TogetherStopsNowhere(env, c, a, b, answers, k - |a|);
      }
    }
  }

  lemma FirstHalf(env: Env, c: Canon, a: seq<SyncOp>, b: seq<SyncOp>, answers: nat -> Answer)
    ensures NothingStops(env, c, a, answers) <==> forall k :: 0 <= k < |a| ==> !Stops(env, c, a + b, k, answers(k))
  {
    assert (a + b)[..|a|] == a;
    StopsBefore(env, c, a + b, |a|, answers);
  }

  /** Two batches as one go through exactly if each goes through after the other, and the second writes no page
      that the first deleted. */
  lemma TogetherExactlyIf(env: Env, c: Canon, a: seq<SyncOp>, b: seq<SyncOp>, answers: nat -> Answer)
    ensures Worked(env, c, a + b, answers).1.Through?
            <==> Worked(env, c, a, answers).1.Through?
                 && Worked(env, ApplyAll(env, c, a), b, From(answers, |a|)).1.Through?
                 && !Rewrites(env, c, a, b)
  {
    GoesThroughExactlyIf(env, c, a + b, answers);
    GoesThroughExactlyIf(env, c, a, answers);
    GoesThroughExactlyIf(env, ApplyAll(env, c, a), b, From(answers, |a|));
    FirstHalf(env, c, a, b, answers);
    SecondHalf(env, c, a, b, answers);
  }

  // ---------------------------------------------------------------------------------------------
  // A page that a stopped batch does not write
  // ---------------------------------------------------------------------------------------------

  predicate NoWrite(os: seq<SyncOp>, slug: string) { forall k :: 0 <= k < |os| ==> !WritesPage(os[k], slug) }

  lemma UnwrittenStaysOnce(env: Env, w: Work, o: SyncOp, a: Answer, key: Key)
    requires !WritesPage(o, key.slug)
    ensures PageIn(Tried(env, w, o, a).0.pages, key) == PageIn(w.pages, key)
  {
  }

  lemma {:induction false} UnwrittenStays(env: Env, c: Canon, os: seq<SyncOp>, answers: nat -> Answer, key: Key)
    requires NoWrite(os, key.slug)
    ensures PageIn(Worked(env, c, os, answers).0.pages, key) == PageIn(c.pages, key)
  {
    if os != [] {
      var n := |os| - 1;
      UnwrittenStays(env, c, os[..n], answers, key);
      UnwrittenStaysOnce(env, Worked(env, c, os[..n], answers).0, os[n], answers(n), key);
    }
  }
}
