/** The vault over any run of page writes, each of which may die at any point, and of soft deletions. */
module WriteRuns {
  import opened Common
  import opened Pages
  import opened WriteGate
  import Text

  datatype Action = Write(w: PageWrite, stop: Stop) | Delete(id: nat)

  function Deleted(pages: seq<Page>, i: nat): seq<Page> {
    if i < |pages| then pages[i := pages[i].(deleted := true)] else pages
  }

  function Act(t: Tools, q: Quota, v: Vault, a: Action): Vault {
    match a
    case Write(w, stop) => Written(t, q, v, w, stop).0
    case Delete(i) => v.(pages := Deleted(v.pages, i))
  }

  function Run(t: Tools, q: Quota, acts: seq<Action>): Vault {
    if acts == [] then EMPTY else Act(t, q, Run(t, q, acts[..|acts| - 1]), acts[|acts| - 1])
  }

  // ---------------------------------------------------------------------------------------------
  // What holds at every moment
  // ---------------------------------------------------------------------------------------------

  /** Every row's body file exists, where its type and slug say. */
  predicate Housed(v: Vault) { forall i :: 0 <= i < |v.pages| ==> HousedRow(v.files, v.pages[i]) }

  predicate HousedRow(files: map<Path, string>, p: Page) {
    p.bodyRef == PathOf(p.pageType, p.slug) && p.bodyRef in files
  }

  predicate UniqueLive(pages: seq<Page>) {
    forall i, j :: 0 <= i < j < |pages| && !pages[i].deleted && !pages[j].deleted ==>
      PageKey(pages[i]) != PageKey(pages[j])
  }

  function LastTouch(log: seq<Touch>, path: Path): Option<Touch> {
    if log == [] then None
    else if log[|log| - 1].path == path then Some(log[|log| - 1])
    else LastTouch(log[..|log| - 1], path)
  }

  /** A link without its resolution. */
  datatype Name = Name(slug: string, folderType: Option<string>, display: Option<string>)

  function LinkNames(rows: seq<Link>): seq<Name> { Map((l: Link) => Name(l.slug, l.folderType, l.display), rows) }

  function MentionNames(ms: seq<ParsedLink>): seq<Name> {
    Map((m: ParsedLink) => Name(m.slug, m.folderType, m.display), ms)
  }

  /** Row and links say what the body file says: its hash, its length, and the links it mentions. */
  predicate Agrees(t: Tools, v: Vault, i: nat) {
    && i < |v.pages| && v.pages[i].bodyRef in v.files
    && var body := v.files[v.pages[i].bodyRef];
       && v.pages[i].contentHash == t.hash(body)
       && v.pages[i].charLen == CharLen(body)
       && LinkNames(LinksOf(v.links, i)) == MentionNames(FirstMentions(t.parse(body)))
  }

  /** The last write to the row's file was its own, and went through. */
  predicate Settled(v: Vault, i: nat) {
    && i < |v.pages| && !v.pages[i].deleted
    && LastTouch(v.log, v.pages[i].bodyRef) == Some(Touch(v.pages[i].bodyRef, PageKey(v.pages[i]), true))
  }

  ghost predicate Faithful(t: Tools, v: Vault) { forall i: nat :: Settled(v, i) ==> Agrees(t, v, i) }

  ghost predicate Invariant(t: Tools, v: Vault) { Housed(v) && UniqueLive(v.pages) && Faithful(t, v) }

  // ---------------------------------------------------------------------------------------------
  // Every step keeps it
  // ---------------------------------------------------------------------------------------------

  lemma LaterTouch(log: seq<Touch>, e: Touch, path: Path)
    ensures LastTouch(log + [e], path) == if e.path == path then Some(e) else LastTouch(log, path)
  {
    assert (log + [e])[..|log|] == log;
  }

  /** A write that dies after touching the file: no row with that file is settled, the others are as before. */
  lemma TornKeeps(t: Tools, v: Vault, v': Vault, path: Path, key: Key, body: string)
    requires Invariant(t, v)
    requires v' == v.(files := v.files[path := body], log := v.log + [Touch(path, key, false)])
    ensures Invariant(t, v')
  {
    forall i: nat | Settled(v', i)
      ensures Agrees(t, v', i)
    {
      LaterTouch(v.log, Touch(path, key, false), v.pages[i].bodyRef);
      assert Settled(v, i);
    }
  }

  /** What an upsert leaves: row `id` is the page's, with this body's hash and length; the others stay. */
  predicate Upsert(t: Tools, before: seq<Page>, after: seq<Page>, id: nat, key: Key, body: string, path: Path) {
    && |before| <= |after| && (forall i :: 0 <= i < |after| && i != id ==> i < |before| && after[i] == before[i])
    && id < |after| && IsLive(after[id], key) && after[id].bodyRef == path
    && after[id].contentHash == t.hash(body) && after[id].charLen == CharLen(body)
    && forall i :: 0 <= i < |after| && i != id ==> !IsLive(after[i], key)
  }

  lemma UpsertedIs(t: Tools, v: Vault, w: PageWrite, body: string, path: Path)
    requires Housed(v) && UniqueLive(v.pages) && path == PathOf(w.pageType, w.slug)
    ensures Upsert(t, v.pages, Upserted(t, v.pages, w, body, path), UpsertId(v.pages, KeyOf(w)), KeyOf(w), body, path)
  {
    match LiveAt(v.pages, KeyOf(w))
    case Some(id) =>
      forall i | 0 <= i < |v.pages| && i != id
        ensures !IsLive(v.pages[i], KeyOf(w))
      {
        assert i < id || id < i;
        assert !v.pages[i].deleted ==> PageKey(v.pages[i]) != PageKey(v.pages[id]);
      }
    case None =>
  }

  lemma RowIsHoused(files: map<Path, string>, p: Page, key: Key)
    requires PageKey(p) == key && p.bodyRef == PathOf(key.pageType, key.slug) && p.bodyRef in files
    ensures HousedRow(files, p)
  {
  }

  lemma UpsertHouses(t: Tools, v: Vault, pages: seq<Page>, id: nat, key: Key, body: string, path: Path)
    requires Housed(v) && path == PathOf(key.pageType, key.slug) && path in v.files
    requires Upsert(t, v.pages, pages, id, key, body, path)
    ensures Housed(v.(pages := pages))
  {
    assert IsLive(pages[id], key);
    RowIsHoused(v.files, pages[id], key);
    forall i | 0 <= i < |pages|
      ensures HousedRow(v.files, pages[i])
    {
      if i != id {
        var p := pages[i];
        assert i < |v.pages| && p == v.pages[i];
        assert HousedRow(v.files, v.pages[i]);
      }
    }
  }

  lemma UpsertIsUnique(t: Tools, before: seq<Page>, pages: seq<Page>, id: nat, key: Key, body: string, path: Path)
    requires UniqueLive(before) && Upsert(t, before, pages, id, key, body, path)
    ensures UniqueLive(pages)
  {
    assert IsLive(pages[id], key);
    assert forall i :: 0 <= i < |pages| && i != id ==> !IsLive(pages[i], key);
    forall i, j | 0 <= i < j < |pages| && !pages[i].deleted && !pages[j].deleted
      ensures PageKey(pages[i]) != PageKey(pages[j])
    {
      if i != id && j != id {
        assert pages[i] == before[i] && pages[j] == before[j];
      }
    }
  }

  lemma UpsertedKeeps(t: Tools, v: Vault, w: PageWrite, body: string, path: Path)
    requires Housed(v) && UniqueLive(v.pages) && path == PathOf(w.pageType, w.slug) && path in v.files
    ensures var id, pages := UpsertId(v.pages, KeyOf(w)), Upserted(t, v.pages, w, body, path);
            Housed(v.(pages := pages)) && UniqueLive(pages) && Upsert(t, v.pages, pages, id, KeyOf(w), body, path)
  {
    UpsertedIs(t, v, w, body, path);
    UpsertHouses(t, v, Upserted(t, v.pages, w, body, path), UpsertId(v.pages, KeyOf(w)), KeyOf(w), body, path);
    UpsertIsUnique(t, v.pages, Upserted(t, v.pages, w, body, path), UpsertId(v.pages, KeyOf(w)), KeyOf(w), body, path);
  }

  lemma RowKeeps(t: Tools, v: Vault, v': Vault, w: PageWrite, body: string, path: Path)
    requires Invariant(t, v) && path == PathOf(w.pageType, w.slug)
    requires v' == v.(files := v.files[path := body], pages := Upserted(t, v.pages, w, body, path),
                      log := v.log + [Touch(path, KeyOf(w), false)])
    ensures Invariant(t, v')
  {
    UpsertedKeeps(t, v.(files := v.files[path := body]), w, body, path);
    forall i: nat | Settled(v', i)
      ensures Agrees(t, v', i)
    {
      LaterTouch(v.log, Touch(path, KeyOf(w), false), v'.pages[i].bodyRef);
      assert i != UpsertId(v.pages, KeyOf(w));
      assert v'.pages[i] == v.pages[i] && Settled(v, i);
    }
  }

  lemma EdgeNames(pages: seq<Page>, src: nat, parsed: seq<ParsedLink>)
    ensures LinkNames(Edges(pages, src, parsed)) == MentionNames(FirstMentions(parsed))
  {
  }

  lemma FullKeeps(t: Tools, v: Vault, v': Vault, w: PageWrite, body: string, path: Path, id: nat)
    requires Invariant(t, v) && path == PathOf(w.pageType, w.slug) && id == UpsertId(v.pages, KeyOf(w))
    requires v' == Vault(v.dirs, v.files[path := body], Upserted(t, v.pages, w, body, path),
                         Replaced(Upserted(t, v.pages, w, body, path), v.links, id, t.parse(body)),
                         v.log + [Touch(path, KeyOf(w), true)])
    ensures Invariant(t, v') && Settled(v', id)
  {
    UpsertedKeeps(t, v.(files := v.files[path := body]), w, body, path);
    forall i: nat | Settled(v', i)
      ensures Agrees(t, v', i)
    {
      LaterTouch(v.log, Touch(path, KeyOf(w), true), v'.pages[i].bodyRef);
      ReplacedLinks(v'.pages, v.links, id, t.parse(body), i);
      if i == id {
        EdgeNames(v'.pages, id, t.parse(body));
      } else {
        assert v'.pages[i] == v.pages[i];
        assert PageKey(v'.pages[i]) != PageKey(v'.pages[id]);
        assert Settled(v, i);
      }
    }
    LaterTouch(v.log, Touch(path, KeyOf(w), true), path);
  }

  lemma WriteKeeps(t: Tools, q: Quota, v: Vault, w: PageWrite, stop: Stop)
    requires Invariant(t, v)
    ensures Invariant(t, Written(t, q, v, w, stop).0)
    ensures Written(t, q, v, w, stop).1.Ok? ==> Settled(Written(t, q, v, w, stop).0, Written(t, q, v, w, stop).1.value)
  {
    var body, v0 := t.sanitize(w.body), v.(dirs := Dirs(v, w.pageType));
    DirsKeep(t, v, v0);
    var guarded := Guard(v0.dirs, v.files, w.pageType, w.slug);
    if !OverQuotaAt(q, v.pages, body) && guarded.Ok? {
      var path := guarded.value;
      var (v', r) := Through(t, v0, w, body, path, stop);
      if stop.DuringFile? {
        TornKeeps(t, v0, v', path, KeyOf(w), stop.torn);
      } else if stop.AfterFile? || (!stop.BeforeFile? && w.pageType !in PAGE_TYPES) {
        TornKeeps(t, v0, v', path, KeyOf(w), body);
      } else if stop.AfterRow? {
        RowKeeps(t, v0, v', w, body, path);
      } else if stop.Nowhere? {
        FullKeeps(t, v0, v', w, body, path, UpsertId(v.pages, KeyOf(w)));
      }
    }
  }

  lemma DirsKeep(t: Tools, v: Vault, v': Vault)
    requires Invariant(t, v) && v' == v.(dirs := v'.dirs)
    ensures Invariant(t, v')
  {
    forall i: nat | Settled(v', i)
      ensures Agrees(t, v', i)
    {
      assert Settled(v, i);
    }
  }

  lemma DeleteKeeps(t: Tools, v: Vault, i: nat)
    requires Invariant(t, v)
    ensures Invariant(t, v.(pages := Deleted(v.pages, i)))
  {
    var v' := v.(pages := Deleted(v.pages, i));
    forall k: nat | Settled(v', k)
      ensures Agrees(t, v', k)
    {
      assert v'.pages[k] == v.pages[k] && Settled(v, k);
    }
  }

  lemma {:induction false} RunKeeps(t: Tools, q: Quota, acts: seq<Action>)
    ensures Invariant(t, Run(t, q, acts))
  {
    if acts != [] {
      var before, a := acts[..|acts| - 1], acts[|acts| - 1];
      RunKeeps(t, q, before);
      match a
      case Write(w, stop) => WriteKeeps(t, q, Run(t, q, before), w, stop);
      case Delete(i) => DeleteKeeps(t, Run(t, q, before), i);
    }
  }

  /** At whatever points the writes have died, every row's body file exists. */
  lemma EveryRowHasItsFile(t: Tools, q: Quota, acts: seq<Action>, i: nat)
    requires i < |Run(t, q, acts).pages|
    ensures Run(t, q, acts).pages[i].bodyRef in Run(t, q, acts).files
  {
    RunKeeps(t, q, acts);
  }

  /** A row agrees with its file whenever the last write to that file was the page's own and complete; in
      particular right after a write that returns its id. */
  lemma SettledPagesAgree(t: Tools, q: Quota, acts: seq<Action>, i: nat)
    requires Settled(Run(t, q, acts), i)
    ensures Agrees(t, Run(t, q, acts), i)
  {
    RunKeeps(t, q, acts);
  }

  lemma FullWriteSettles(t: Tools, q: Quota, acts: seq<Action>, w: PageWrite, stop: Stop)
    ensures var (v, r) := Written(t, q, Run(t, q, acts), w, stop);
            r.Ok? ==> Settled(v, r.value) && Agrees(t, v, r.value)
  {
    RunKeeps(t, q, acts);
    WriteKeeps(t, q, Run(t, q, acts), w, stop);
  }

  // ---------------------------------------------------------------------------------------------
  // What a complete write leaves
  // ---------------------------------------------------------------------------------------------

  lemma CompleteWrite(t: Tools, q: Quota, v: Vault, w: PageWrite, stop: Stop)
    requires Written(t, q, v, w, stop).1.Ok?
    ensures var (v', r) := Written(t, q, v, w, stop);
            var body, path := t.sanitize(w.body), PathOf(w.pageType, w.slug);
            && r.value == UpsertId(v.pages, KeyOf(w)) && v'.pages == Upserted(t, v.pages, w, body, path)
            && v'.files == v.files[path := body]
            && v'.links == Replaced(v'.pages, v.links, r.value, t.parse(body))
  {
  }

  /** The page's row has what was written, its sources united with those it had and its version one higher; no
      other row has changed; and its file holds the sanitized body. */
  lemma WriteLeavesItsRow(t: Tools, q: Quota, v: Vault, w: PageWrite, stop: Stop, i: nat)
    requires Written(t, q, v, w, stop).1.Ok? && i < |Written(t, q, v, w, stop).0.pages|
    ensures var (v', r) := Written(t, q, v, w, stop);
            var p, body := v'.pages[i], t.sanitize(w.body);
            if i != r.value then i < |v.pages| && p == v.pages[i]
            else
              && !p.deleted && p.pageType == w.pageType && p.slug == w.slug
              && p.title == w.title && p.aliases == w.aliases && p.tags == w.tags && p.summary == w.summary
              && p.charLen == Min(|body|, 2147483647) && p.contentHash == t.hash(body)
              && PathOf(w.pageType, w.slug) in v'.files && v'.files[PathOf(w.pageType, w.slug)] == body
              && (if i < |v.pages| then p.syncVersion == v.pages[i].syncVersion + 1 && !v.pages[i].deleted
                                        && p.sourceIds == v.pages[i].sourceIds + (set s | s in w.sourceIds)
                  else p.syncVersion == 1 && p.sourceIds == set s | s in w.sourceIds)
  {
    CompleteWrite(t, q, v, w, stop);
  }

  /** Each edge of the page points to a live page that has the link's slug, or has it among its aliases; and to
      nothing exactly if no live page has. */
  lemma WriteResolvesItsLinks(t: Tools, q: Quota, v: Vault, w: PageWrite, stop: Stop, k: nat)
    requires var (v', r) := Written(t, q, v, w, stop);
             r.Ok? && k < |LinksOf(v'.links, r.value)|
    ensures var (v', r) := Written(t, q, v, w, stop);
            var l := LinksOf(v'.links, r.value)[k];
            && l.src == r.value
            && (l.target.Some? ==>
                  && l.target.value < |v'.pages| && !v'.pages[l.target.value].deleted
                  && (v'.pages[l.target.value].slug == l.slug || l.slug in v'.pages[l.target.value].aliases))
            && (l.target.None? <==>
                  forall i :: 0 <= i < |v'.pages| && !v'.pages[i].deleted ==>
                    v'.pages[i].slug != l.slug && l.slug !in v'.pages[i].aliases)
  {
    var (v', r) := Written(t, q, v, w, stop);
    CompleteWrite(t, q, v, w, stop);
    ReplacedLinks(v'.pages, v.links, r.value, t.parse(t.sanitize(w.body)), r.value);
    EdgeResolves(v'.pages, r.value, t.parse(t.sanitize(w.body)), k);
  }

  lemma EdgeResolves(pages: seq<Page>, src: nat, parsed: seq<ParsedLink>, k: nat)
    requires k < |Edges(pages, src, parsed)|
    ensures var l := Edges(pages, src, parsed)[k];
            l.src == src && l.target == Target(pages, l.slug)
    ensures var l := Edges(pages, src, parsed)[k];
            l.target.None? <==> forall i :: 0 <= i < |pages| ==> !Answers(pages[i], l.slug)
  {
  }

  // ---------------------------------------------------------------------------------------------
  // Pages in typed folders have their files to themselves
  // ---------------------------------------------------------------------------------------------

  predicate Plain(slug: string) { '/' !in slug }

  lemma PlainComponents(s: string)
    requires Plain(s)
    ensures Components(s + ".md") == [s + ".md"]
  {
    assert Text.IndexOf(s + ".md", '/') == |s + ".md"|;
  }

  predicate IsFolder(folder: string) { folder in ["entities", "concepts", "sources"] }

  lemma FolderIsPlain(folder: string)
    requires IsFolder(folder)
    ensures Plain(folder) && Component(folder) == [folder]
  {
    assert |folder| == 8 || |folder| == 7;
  }

  lemma FirstComponent(head: string, rest: string)
    requires Plain(head)
    ensures Components(head + "/" + rest) == Component(head) + Components(rest)
  {
    var rel := head + "/" + rest;
    assert rel[|head|] == '/' && forall k :: 0 <= k < |head| ==> rel[k] == head[k];
    assert Text.IndexOf(rel, '/') == |head|;
    assert rel[..|head|] == head && rel[|head| + 1..] == rest;
  }

  lemma BelowFolder(folder: string, rest: string)
    requires IsFolder(folder)
    ensures Components(folder + "/" + rest) == [folder] + Components(rest)
  {
    FolderIsPlain(folder);
    FirstComponent(folder, rest);
  }

  lemma FolderComponents(folder: string, s: string)
    requires IsFolder(folder) && Plain(s)
    ensures Components(folder + "/" + s + ".md") == [folder, s + ".md"]
  {
    assert folder + "/" + s + ".md" == folder + "/" + (s + ".md");
    BelowFolder(folder, s + ".md");
    PlainComponents(s);
  }

  lemma PathOfPlain(key: Key)
    requires Plain(key.slug)
    ensures PathOf(key.pageType, key.slug)
         == if Folder(key.pageType) == "" then [key.slug + ".md"] else [Folder(key.pageType), key.slug + ".md"]
  {
    if Folder(key.pageType) == "" {
      PlainComponents(key.slug);
    } else {
      FolderComponents(Folder(key.pageType), key.slug);
    }
  }

  lemma SameName(a: string, b: string)
    requires a + ".md" == b + ".md"
    ensures a == b
  {
    assert (a + ".md")[..|a|] == a && (b + ".md")[..|b|] == b;
  }

  /** Without slashes in slugs, no other page writes to the file of an entity, concept or source. */
  lemma TypedPathsDiffer(a: Key, b: Key)
    requires Plain(a.slug) && Plain(b.slug) && Folder(a.pageType) != ""
    requires PathOf(a.pageType, a.slug) == PathOf(b.pageType, b.slug)
    ensures a == b
  {
    PathOfPlain(a);
    PathOfPlain(b);
    assert |PathOf(b.pageType, b.slug)| == 2;
    assert PathOf(a.pageType, a.slug)[0] == PathOf(b.pageType, b.slug)[0];
    assert PathOf(a.pageType, a.slug)[1] == PathOf(b.pageType, b.slug)[1];
    SameName(a.slug, b.slug);
  }

  predicate PlainLog(log: seq<Touch>) {
    forall i :: 0 <= i < |log| ==> Plain(log[i].key.slug) && log[i].path == PathOf(log[i].key.pageType, log[i].key.slug)
  }

  predicate PlainPages(pages: seq<Page>) { forall i :: 0 <= i < |pages| ==> Plain(pages[i].slug) }

  predicate PlainActs(acts: seq<Action>) {
    forall i :: 0 <= i < |acts| ==> (acts[i].Write? ==> Plain(acts[i].w.slug))
  }

  /** What a write can change: the file of its page, if that is not oversized, and the page's row. */
  predicate Changes(t: Tools, q: Quota, v: Vault, w: PageWrite, v': Vault) {
    var path, body := PathOf(w.pageType, w.slug), t.sanitize(w.body);
    && (v'.log == v.log || v'.log == v.log + [TouchOf(path, w, false)] || v'.log == v.log + [TouchOf(path, w, true)])
    && (v'.pages == v.pages || (!OverQuotaAt(q, v.pages, body) && v'.pages == Upserted(t, v.pages, w, body, path)))
    && v'.files.Keys >= v.files.Keys
    && (forall p :: p in v.files && v'.files[p] != v.files[p] ==>
          p == path && Text.ByteLen(v.files[p]) <= BODY_SIZE_CAP)
  }

  lemma WrittenChanges(t: Tools, q: Quota, v: Vault, w: PageWrite, stop: Stop)
    ensures Changes(t, q, v, w, Written(t, q, v, w, stop).0)
  {
  }

  lemma TouchIsPlain(t: Tools, q: Quota, v: Vault, w: PageWrite, v': Vault)
    requires PlainLog(v.log) && PlainPages(v.pages) && Plain(w.slug) && Changes(t, q, v, w, v')
    ensures PlainLog(v'.log) && PlainPages(v'.pages)
  {
  }

  lemma {:induction false} RunIsPlain(t: Tools, q: Quota, acts: seq<Action>)
    requires PlainActs(acts)
    ensures PlainLog(Run(t, q, acts).log) && PlainPages(Run(t, q, acts).pages)
  {
    if acts != [] {
      var before, a := acts[..|acts| - 1], acts[|acts| - 1];
      var v := Run(t, q, before);
      RunIsPlain(t, q, before);
      if a.Write? {
        var v' := Written(t, q, v, a.w, a.stop).0;
        WrittenChanges(t, q, v, a.w, a.stop);
        TouchIsPlain(t, q, v, a.w, v');
        assert Run(t, q, acts) == v';
      }
    }
  }

  lemma {:induction false} LastTouchIsThere(log: seq<Touch>, path: Path)
    requires LastTouch(log, path).Some?
    ensures LastTouch(log, path).value in log && LastTouch(log, path).value.path == path
  {
    if log[|log| - 1].path != path {
      LastTouchIsThere(log[..|log| - 1], path);
    }
  }

  /** With slash-free slugs, every live entity, concept and source agrees with its file unless the last
      write to it died. */
  lemma TypedPagesAgree(t: Tools, q: Quota, acts: seq<Action>, i: nat)
    requires PlainActs(acts) && i < |Run(t, q, acts).pages|
    requires var p := Run(t, q, acts).pages[i];
             && !p.deleted && Folder(p.pageType) != ""
             && LastTouch(Run(t, q, acts).log, p.bodyRef).Some?
             && LastTouch(Run(t, q, acts).log, p.bodyRef).value.complete
    ensures Agrees(t, Run(t, q, acts), i)
  {
    var v := Run(t, q, acts);
    var p, touch := v.pages[i], LastTouch(v.log, v.pages[i].bodyRef).value;
    RunKeeps(t, q, acts);
    RunIsPlain(t, q, acts);
    LastTouchIsThere(v.log, p.bodyRef);
    TypedPathsDiffer(PageKey(p), touch.key);
    assert Settled(v, i);
  }

  /** Pages without a folder do share files: two plain keys have one file exactly if they are the same, or
      bear the same slug and neither type has a folder. */
  lemma FolderlessPagesShare(a: Key, b: Key)
    requires Plain(a.slug) && Plain(b.slug)
    ensures PathOf(a.pageType, a.slug) == PathOf(b.pageType, b.slug)
            <==> a == b || (a.slug == b.slug && Folder(a.pageType) == "" && Folder(b.pageType) == "")
  {
    PathOfPlain(a);
    PathOfPlain(b);
    if PathOf(a.pageType, a.slug) == PathOf(b.pageType, b.slug) {
      if Folder(a.pageType) != "" {
        TypedPathsDiffer(a, b);
      } else {
        assert |PathOf(b.pageType, b.slug)| == 1;
        assert PathOf(a.pageType, a.slug)[0] == PathOf(b.pageType, b.slug)[0];
        SameName(a.slug, b.slug);
      }
    }
  }

  /** Two bodies that a row cannot tell apart. */
  predicate Alike(t: Tools, a: string, b: string) {
    && t.hash(a) == t.hash(b) && CharLen(a) == CharLen(b)
    && MentionNames(FirstMentions(t.parse(a))) == MentionNames(FirstMentions(t.parse(b)))
  }

  /** A page whose file another page's write has replaced agrees with it exactly if the bodies are alike. */
  lemma OverwrittenAgreesExactlyIf(t: Tools, v: Vault, v': Vault, i: nat, was: string, now: string)
    requires Agrees(t, v, i) && v.files[v.pages[i].bodyRef] == was
    requires i < |v'.pages| && v'.pages[i] == v.pages[i] && LinksOf(v'.links, i) == LinksOf(v.links, i)
    requires v'.files == v.files[v.pages[i].bodyRef := now]
    ensures Agrees(t, v', i) <==> Alike(t, was, now)
  {
  }

  lemma ReturnedRow(t: Tools, q: Quota, v: Vault, w: PageWrite)
    requires Invariant(t, v) && Written(t, q, v, w, Nowhere).1.Ok?
    ensures var (v', r) := Written(t, q, v, w, Nowhere);
            && Invariant(t, v') && Agrees(t, v', r.value) && IsLive(v'.pages[r.value], KeyOf(w))
            && v'.pages[r.value].bodyRef == PathOf(w.pageType, w.slug)
            && v'.files[v'.pages[r.value].bodyRef] == t.sanitize(w.body)
  {
    var (v', r) := Written(t, q, v, w, Nowhere);
    CompleteWrite(t, q, v, w, Nowhere);
    WriteKeeps(t, q, v, w, Nowhere);
    UpsertedIs(t, v, w, t.sanitize(w.body), PathOf(w.pageType, w.slug));
  }

  lemma OtherRowStays(t: Tools, q: Quota, v: Vault, w: PageWrite, i: nat)
    requires Invariant(t, v) && i < |v.pages| && !IsLive(v.pages[i], KeyOf(w)) && Written(t, q, v, w, Nowhere).1.Ok?
    ensures var v' := Written(t, q, v, w, Nowhere).0;
            i < |v'.pages| && v'.pages[i] == v.pages[i] && LinksOf(v'.links, i) == LinksOf(v.links, i)
  {
    var (v', r) := Written(t, q, v, w, Nowhere);
    CompleteWrite(t, q, v, w, Nowhere);
    ReplacedLinks(v'.pages, v.links, r.value, t.parse(t.sanitize(w.body)), i);
  }

  /** Two complete writes of one slug and two types without folder leave the first page's row, hash and links
      in disagreement with its file, unless the two bodies are alike. */
  lemma SharedFileAgreesExactlyIf(t: Tools, q: Quota, acts: seq<Action>, first: PageWrite, second: PageWrite)
    requires first.slug == second.slug && first.pageType != second.pageType
    requires Folder(first.pageType) == "" && Folder(second.pageType) == ""
    requires var (v, r) := Written(t, q, Run(t, q, acts), first, Nowhere);
             r.Ok? && Written(t, q, v, second, Nowhere).1.Ok?
    ensures var (v, r) := Written(t, q, Run(t, q, acts), first, Nowhere);
            Agrees(t, Written(t, q, v, second, Nowhere).0, r.value)
            <==> Alike(t, t.sanitize(first.body), t.sanitize(second.body))
  {
    var before := Run(t, q, acts);
    var (v, r) := Written(t, q, before, first, Nowhere);
    RunKeeps(t, q, acts);
    ReturnedRow(t, q, before, first);
    OtherRowStays(t, q, v, second, r.value);
    CompleteWrite(t, q, v, second, Nowhere);
    OverwrittenAgreesExactlyIf(t, v, Written(t, q, v, second, Nowhere).0, r.value, t.sanitize(first.body),
                               t.sanitize(second.body));
  }

  lemma TypedPath(pageType: string, slug: string)
    requires Folder(pageType) != ""
    ensures PathOf(pageType, slug) == [Folder(pageType)] + Components(slug + ".md")
  {
    assert Folder(pageType) + "/" + slug + ".md" == Folder(pageType) + "/" + (slug + ".md");
    BelowFolder(Folder(pageType), slug + ".md");
  }

  lemma FolderlessPath(pageType: string, folder: string, slug: string)
    requires Folder(pageType) == "" && IsFolder(folder)
    ensures PathOf(pageType, folder + "/" + slug) == [folder] + Components(slug + ".md")
  {
    assert folder + "/" + slug + ".md" == folder + "/" + (slug + ".md");
    BelowFolder(folder, slug + ".md");
  }

  lemma SlashedTypedPath(pageType: string, slug: string)
    requires Folder(pageType) != ""
    ensures PathOf(pageType, "/" + slug) == PathOf(pageType, slug)
  {
    TypedPath(pageType, slug);
    TypedPath(pageType, "/" + slug);
    assert "/" + slug + ".md" == "/" + (slug + ".md");
    LeadingSlash(slug + ".md");
  }

  /** And a slash can lead to another page's file. */
  lemma SlashesCollide(typed: string, other: string, slug: string)
    requires Folder(typed) != "" && Folder(other) == ""
    ensures PathOf(typed, "/" + slug) == PathOf(typed, slug) == PathOf(other, Folder(typed) + "/" + slug)
  {
    SlashedTypedPath(typed, slug);
    TypedPath(typed, slug);
    FolderlessPath(other, Folder(typed), slug);
  }

  lemma LeadingSlash(rest: string)
    ensures Components("/" + rest) == Components(rest)
  {
    assert "/" + rest == "" + "/" + rest;
    FirstComponent("", rest);
  }

  // ---------------------------------------------------------------------------------------------
  // The quota, and pages that outgrow the guard
  // ---------------------------------------------------------------------------------------------

  lemma {:induction false} LiveUpdate(pages: seq<Page>, i: nat, p: Page)
    requires i < |pages|
    ensures LivePages(pages[i := p]) + (if pages[i].deleted then 0 else 1)
         == LivePages(pages) + (if p.deleted then 0 else 1)
    ensures LiveChars(pages[i := p]) + (if pages[i].deleted then 0 else pages[i].charLen)
         == LiveChars(pages) + (if p.deleted then 0 else p.charLen)
  {
    var n := |pages| - 1;
    if i == n {
      assert pages[i := p][..n] == pages[..n];
    } else {
      assert pages[i := p][..n] == pages[..n][i := p];
      LiveUpdate(pages[..n], i, p);
    }
  }

  predicate WithinQuota(q: Quota, pages: seq<Page>) {
    LivePages(pages) <= q.maxPages && LiveChars(pages) <= q.maxBytes
  }

  lemma UpsertStaysWithin(t: Tools, q: Quota, pages: seq<Page>, w: PageWrite, body: string, path: Path)
    requires WithinQuota(q, pages) && !OverQuotaAt(q, pages, body)
    ensures WithinQuota(q, Upserted(t, pages, w, body, path))
  {
    match LiveAt(pages, KeyOf(w))
    case Some(i) => LiveUpdate(pages, i, Rewritten(t, pages[i], w, body));
    case None => assert (pages + [NewPage(t, w, body, path)])[..|pages|] == pages;
  }

  lemma WriteStaysWithin(t: Tools, q: Quota, v: Vault, w: PageWrite, v': Vault)
    requires WithinQuota(q, v.pages) && Changes(t, q, v, w, v')
    ensures WithinQuota(q, v'.pages)
  {
    if v'.pages != v.pages {
      UpsertStaysWithin(t, q, v.pages, w, t.sanitize(w.body), PathOf(w.pageType, w.slug));
    }
  }

  lemma DeleteStaysWithin(q: Quota, pages: seq<Page>, i: nat)
    requires WithinQuota(q, pages)
    ensures WithinQuota(q, Deleted(pages, i))
  {
    if i < |pages| {
      LiveUpdate(pages, i, pages[i].(deleted := true));
    }
  }

  /** However writes follow each other, one at a time, the live pages stay within the quota of pages and of
      characters. */
  lemma {:induction false} QuotaIsKept(t: Tools, q: Quota, acts: seq<Action>)
    ensures WithinQuota(q, Run(t, q, acts).pages)
  {
    if acts != [] {
      var before, a := acts[..|acts| - 1], acts[|acts| - 1];
      var v := Run(t, q, before);
      QuotaIsKept(t, q, before);
      if a.Write? {
        var v' := Written(t, q, v, a.w, a.stop).0;
        WrittenChanges(t, q, v, a.w, a.stop);
        WriteStaysWithin(t, q, v, a.w, v');
        assert Run(t, q, acts) == v';
      } else {
        DeleteStaysWithin(q, v.pages, a.id);
      }
    }
  }

  predicate Oversized(v: Vault, path: Path) { path in v.files && Text.ByteLen(v.files[path]) > BODY_SIZE_CAP }

  /** A body file of more than BODY_SIZE_CAP bytes passes the guard once, and is never written again. */
  lemma {:induction false} OversizedFilesStay(t: Tools, q: Quota, before: seq<Action>, more: seq<Action>, path: Path)
    requires Oversized(Run(t, q, before), path)
    ensures Oversized(Run(t, q, before + more), path)
    ensures Run(t, q, before + more).files[path] == Run(t, q, before).files[path]
    decreases |more|
  {
    if more == [] {
      assert before + more == before;
    } else {
      var n := |more| - 1;
      var earlier := before + more[..n];
      assert (before + more)[..|before + more| - 1] == earlier && (before + more)[|before + more| - 1] == more[n];
      OversizedFilesStay(t, q, before, more[..n], path);
      var v := Run(t, q, earlier);
      if more[n].Write? {
        var v' := Written(t, q, v, more[n].w, more[n].stop).0;
        WrittenChanges(t, q, v, more[n].w, more[n].stop);
        assert Run(t, q, before + more) == v';
        assert path in v.files && path in v'.files;
      }
    }
  }

  // ---------------------------------------------------------------------------------------------
  // What becomes of one row
  // ---------------------------------------------------------------------------------------------

  /** The same page later: its version tells whether anything but a deletion has changed. */
  predicate Later(p: Page, p': Page) {
    && PageKey(p') == PageKey(p) && p'.bodyRef == p.bodyRef && p.sourceIds <= p'.sourceIds
    && p.syncVersion <= p'.syncVersion && (p.deleted ==> p'.deleted)
    && (p'.syncVersion == p.syncVersion ==> p' == p.(deleted := p'.deleted))
  }

  predicate RowsLater(pages: seq<Page>, pages': seq<Page>) {
    |pages| <= |pages'| && forall i :: 0 <= i < |pages| ==> Later(pages[i], pages'[i])
  }

  lemma ActLater(t: Tools, q: Quota, v: Vault, a: Action)
    ensures RowsLater(v.pages, Act(t, q, v, a).pages)
  {
    if a.Write? {
      WrittenChanges(t, q, v, a.w, a.stop);
    }
  }

  /** Over any run a row keeps its identity, its sources only grow, and a version seen before means a row
      seen before. */
  lemma {:induction false} RowsOnlyGrow(t: Tools, q: Quota, before: seq<Action>, more: seq<Action>, i: nat)
    requires i < |Run(t, q, before).pages|
    ensures i < |Run(t, q, before + more).pages|
    ensures Later(Run(t, q, before).pages[i], Run(t, q, before + more).pages[i])
    decreases |more|
  {
    if more == [] {
      assert before + more == before;
    } else {
      var n := |more| - 1;
      var earlier := before + more[..n];
      assert (before + more)[..|before + more| - 1] == earlier && (before + more)[|before + more| - 1] == more[n];
      RowsOnlyGrow(t, q, before, more[..n], i);
      ActLater(t, q, Run(t, q, earlier), more[n]);
      assert Later(Run(t, q, earlier).pages[i], Run(t, q, before + more).pages[i]);
    }
  }
}
