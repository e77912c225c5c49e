/** What a batch of ops takes to be the write gate's answers are the gate's own: how a page write of the vault
    (qcue-rs/wiki/src/write_gate.rs) ends, and what it leaves of its page. */
module GateAnswers {
  import opened Common
  import opened Pages
  import opened WriteGate
  import opened WriteRuns
  import R = Reducer
  import B = Batches

  /** The live page of this type and slug, as a batch sees it: its title and what its body file holds. */
  function PageOf(v: Vault, key: Key): Option<R.Page>
    requires Housed(v)
  {
    match LiveAt(v.pages, key)
    case Some(i) => (assert HousedRow(v.files, v.pages[i]); Some(R.Page(v.pages[i].title, v.files[v.pages[i].bodyRef])))
    case None => None
  }

  /** Quota, path and a death before the file leave nothing; a torn or orphaned file, an unknown type or a
      death before the row leave a body; a death between row and links leaves the page. */
  function AnswerOf(t: Tools, q: Quota, v: Vault, w: PageWrite, stop: Stop): B.Answer {
    var body := t.sanitize(w.body);
    if OverQuotaAt(q, v.pages, body) || Guard(Dirs(v, w.pageType), v.files, w.pageType, w.slug).Err? || stop.BeforeFile?
    then B.Refused(B.Untouched)
    else if stop.DuringFile? then B.Refused(B.BodyLeft(stop.torn))
    else if stop.AfterFile? || w.pageType !in PAGE_TYPES then B.Refused(B.BodyLeft(body))
    else if stop.AfterRow? then B.Refused(B.PageWritten)
    else B.Accepted
  }

  /** The page after such an answer to its write. */
  function After(page: Option<R.Page>, key: Key, p: R.Page, a: B.Answer): Option<R.Page> {
    match a
    case Accepted => Some(p)
    case Refused(remains) =>
      R.PageIn(B.Leave(if page.Some? then map[key := page.value] else map[], key, p, remains), key)
  }

  lemma LiveUnique(pages: seq<Page>, key: Key, i: nat)
    requires UniqueLive(pages) && i < |pages| && IsLive(pages[i], key)
    ensures LiveAt(pages, key) == Some(i)
  {
  }

  lemma OwnRowWritten(t: Tools, v: Vault, v': Vault, w: PageWrite, path: Path)
    requires Housed(v) && UniqueLive(v.pages) && path == PathOf(w.pageType, w.slug)
    requires v'.files == v.files[path := t.sanitize(w.body)]
    requires v'.pages == Upserted(t, v.pages, w, t.sanitize(w.body), path)
    ensures Housed(v') && PageOf(v', KeyOf(w)) == Some(R.Page(w.title, t.sanitize(w.body)))
  {
    UpsertedKeeps(t, v.(files := v'.files), w, t.sanitize(w.body), path);
    LiveUnique(v'.pages, KeyOf(w), UpsertId(v.pages, KeyOf(w)));
  }

  lemma OtherRowKept(before: seq<Page>, after: seq<Page>, id: nat, key: Key)
    requires UniqueLive(after) && id < |after|
    requires forall i :: 0 <= i < |after| && i != id ==> i < |before| && after[i] == before[i]
    requires |before| <= |after| && !IsLive(after[id], key) && (id < |before| ==> !IsLive(before[id], key))
    ensures LiveAt(after, key) == LiveAt(before, key)
    ensures LiveAt(before, key).Some? ==> after[LiveAt(before, key).value] == before[LiveAt(before, key).value]
  {
    var at := LiveAt(before, key);
    if at.Some? {
      assert after[at.value] == before[at.value];
      LiveUnique(after, key, at.value);
    } else {
      assert forall i :: 0 <= i < |after| ==> !IsLive(after[i], key);
    }
  }

  lemma OtherPageRead(v: Vault, v': Vault, path: Path, other: Key)
    requires Housed(v) && Housed(v') && PathOf(other.pageType, other.slug) != path
    requires forall p :: p in v.files && p != path ==> p in v'.files && v'.files[p] == v.files[p]
    requires LiveAt(v'.pages, other) == LiveAt(v.pages, other)
    requires LiveAt(v.pages, other).Some? ==>
               v'.pages[LiveAt(v.pages, other).value] == v.pages[LiveAt(v.pages, other).value]
    ensures PageOf(v', other) == PageOf(v, other)
  {
    var at := LiveAt(v.pages, other);
    if at.Some? {
      assert HousedRow(v.files, v.pages[at.value]);
    }
  }

  lemma OtherPageKept(t: Tools, v: Vault, v': Vault, w: PageWrite, path: Path, other: Key)
    requires Housed(v) && Housed(v') && UniqueLive(v.pages) && path == PathOf(w.pageType, w.slug)
    requires v'.files == v.files[path := t.sanitize(w.body)]
    requires v'.pages == Upserted(t, v.pages, w, t.sanitize(w.body), path)
    requires PathOf(other.pageType, other.slug) != path
    ensures PageOf(v', other) == PageOf(v, other)
  {
    UpsertedKeeps(t, v.(files := v'.files), w, t.sanitize(w.body), path);
    OtherRowKept(v.pages, v'.pages, UpsertId(v.pages, KeyOf(w)), other);
    OtherPageRead(v, v', path, other);
  }

  lemma FileWritten(v: Vault, v': Vault, key: Key, path: Path, body: string, other: Key)
    requires Housed(v) && path == PathOf(key.pageType, key.slug)
    requires v'.files == v.files[path := body] && v'.pages == v.pages
    ensures Housed(v')
    ensures PageOf(v', key) == match PageOf(v, key) case Some(p) => Some(p.(body := body)) case None => None
    ensures PathOf(other.pageType, other.slug) != path ==> PageOf(v', other) == PageOf(v, other)
  {
    forall i | 0 <= i < |v'.pages|
      ensures HousedRow(v'.files, v'.pages[i])
    {
      assert HousedRow(v.files, v.pages[i]);
    }
    var mine, others := LiveAt(v.pages, key), LiveAt(v.pages, other);
    assert mine.Some? ==> HousedRow(v.files, v.pages[mine.value]);
    assert others.Some? ==> HousedRow(v.files, v.pages[others.value]);
  }

  lemma WriteIs(t: Tools, q: Quota, v: Vault, w: PageWrite, stop: Stop)
    ensures var (v', r) := Written(t, q, v, w, stop);
            var body, path := t.sanitize(w.body), PathOf(w.pageType, w.slug);
            match AnswerOf(t, q, v, w, stop)
            case Refused(Untouched) => r.Err? && v'.pages == v.pages && v'.files == v.files
            case Refused(BodyLeft(left)) => r.Err? && v'.pages == v.pages && v'.files == v.files[path := left]
            case Refused(PageWritten) =>
              r.Err? && v'.pages == Upserted(t, v.pages, w, body, path) && v'.files == v.files[path := body]
            case Accepted =>
              r.Ok? && v'.pages == Upserted(t, v.pages, w, body, path) && v'.files == v.files[path := body]
  {
  }

  /** Every page write of the vault, wherever it ends, is one of the answers that a batch reckons with: accepted
      exactly if it returns an id, leaving of its own page what that answer leaves, and every page with another
      file as it was. */
  lemma GateAnswersTheBatch(t: Tools, q: Quota, v: Vault, w: PageWrite, stop: Stop, v': Vault, a: B.Answer, other: Key)
    requires Housed(v) && UniqueLive(v.pages)
    requires v' == Written(t, q, v, w, stop).0 && a == AnswerOf(t, q, v, w, stop)
    ensures a.Accepted? <==> Written(t, q, v, w, stop).1.Ok?
    ensures Housed(v')
    ensures PageOf(v', KeyOf(w)) == After(PageOf(v, KeyOf(w)), KeyOf(w), R.Page(w.title, t.sanitize(w.body)), a)
    ensures PathOf(other.pageType, other.slug) != PathOf(w.pageType, w.slug) ==> PageOf(v', other) == PageOf(v, other)
  {
    var path := PathOf(w.pageType, w.slug);
    WriteIs(t, q, v, w, stop);
    if B.ReachesRow(a) {
      OwnRowWritten(t, v, v', w, path);
      if PathOf(other.pageType, other.slug) != path {
        OtherPageKept(t, v, v', w, path, other);
      }
    } else if a.remains.BodyLeft? {
      FileWritten(v, v', KeyOf(w), path, a.remains.body, other);
    }
  }
}
