/** The one place that writes wiki pages (qcue-rs/wiki/src/write_gate.rs, path_guard.rs;
    qcue-rs/store/src/wiki_repo.rs): body file first, then the mirror row, then the link rows.

    One tenant, one vault root. Paths are the components below the root; a page's id is its place in the
    table, from which no row is ever removed. */
module WriteGate {
  import opened Common
  import opened Pages
  import Text

  datatype ParsedLink = ParsedLink(slug: string, folderType: Option<string>, display: Option<string>)

  /** The link sanitizer, the content hash and the link parser. */
  datatype Tools = Tools(sanitize: string -> string, hash: string -> string, parse: string -> seq<ParsedLink>)

  datatype Quota = Quota(maxPages: nat, maxBytes: nat)

  datatype PageWrite = PageWrite(pageType: string, slug: string, title: string, aliases: seq<string>, tags: seq<string>,
                                 summary: string, sourceIds: seq<nat>, body: string)

  datatype Page = Page(pageType: string, slug: string, title: string, aliases: seq<string>, tags: seq<string>,
                       summary: string, charLen: nat, bodyRef: Path, sourceIds: set<nat>, contentHash: string,
                       syncVersion: nat, deleted: bool)

  datatype Link = Link(src: nat, slug: string, folderType: Option<string>, target: Option<nat>, display: Option<string>)

  type Path = seq<string>

  /** A write to a body file: by which page, and whether that write went through to the end. */
  datatype Touch = Touch(path: Path, key: Key, complete: bool)

  datatype Vault = Vault(dirs: set<Path>, files: map<Path, string>, pages: seq<Page>, links: seq<Link>, log: seq<Touch>)

  datatype Refusal = OverQuota | Illegal | Escapes | TooBig | Database | Crashed

  /** Where the process dies during a write, if it does. */
  datatype Stop = BeforeFile | DuringFile(torn: string) | AfterFile | AfterRow | Nowhere

  const BODY_SIZE_CAP: nat := 1_000_000
  const I32_MAX: nat := 2147483647

  function Folder(pageType: string): string {
    match pageType
    case "entity" => "entities"
    case "concept" => "concepts"
    case "source" => "sources"
    case _ => ""
  }

  // ---------------------------------------------------------------------------------------------
  // Paths
  // ---------------------------------------------------------------------------------------------

  function Relative(pageType: string, slug: string): string {
    if Folder(pageType) == "" then slug + ".md" else Folder(pageType) + "/" + slug + ".md"
  }

  /** A path component; empty ones and "." lead nowhere. */
  function Component(c: string): Path { if c == "" || c == "." then [] else [c] }

  function Components(rel: string): Path
    decreases |rel|
  {
    var i := Text.IndexOf(rel, '/');
    if i == |rel| then Component(rel) else Component(rel[..i]) + Components(rel[i + 1..])
  }

  predicate HasDots(s: string) { exists i :: 0 <= i < |s| - 1 && s[i] == '.' && s[i + 1] == '.' }

  function PathOf(pageType: string, slug: string): Path { Components(Relative(pageType, slug)) }

  /** The guard: no "..", no NUL, a relative path, an existing directory, and no oversized file there. */
  function Guard(dirs: set<Path>, files: map<Path, string>, pageType: string, slug: string): Result<Path, Refusal> {
    var rel, path := Relative(pageType, slug), PathOf(pageType, slug);
    if '\0' in rel || HasDots(rel) then Err(Illegal)
    else if rel[0] == '/' || path == [] || path[..|path| - 1] !in dirs then Err(Escapes)
    else if path in files && Text.ByteLen(files[path]) > BODY_SIZE_CAP then Err(TooBig)
    else Ok(path)
  }

  // ---------------------------------------------------------------------------------------------
  // Rows
  // ---------------------------------------------------------------------------------------------

  function LivePages(pages: seq<Page>): nat {
    if pages == [] then 0 else LivePages(pages[..|pages| - 1]) + (if pages[|pages| - 1].deleted then 0 else 1)
  }

  function LiveChars(pages: seq<Page>): nat {
    if pages == [] then 0
    else LiveChars(pages[..|pages| - 1]) + (if pages[|pages| - 1].deleted then 0 else pages[|pages| - 1].charLen)
  }

  function CharLen(body: string): nat { if |body| <= I32_MAX then |body| else I32_MAX }

  function PageKey(p: Page): Key { Key(p.pageType, p.slug) }

  predicate IsLive(p: Page, key: Key) { !p.deleted && PageKey(p) == key }

  function LiveAt(pages: seq<Page>, key: Key): (r: Option<nat>)
    ensures r.Some? ==> r.value < |pages| && IsLive(pages[r.value], key)
    ensures r.None? ==> forall i :: 0 <= i < |pages| ==> !IsLive(pages[i], key)
  {
    if pages == [] then None
    else
      var n := |pages| - 1;
      if IsLive(pages[n], key) then Some(n)
      else
        assert forall i :: 0 <= i < n ==> pages[..n][i] == pages[i];
        LiveAt(pages[..n], key)
  }

  function KeyOf(w: PageWrite): Key { Key(w.pageType, w.slug) }

  function SetOf(xs: seq<nat>): set<nat> { set x | x in xs }

  function NewPage(t: Tools, w: PageWrite, body: string, path: Path): Page {
    Page(w.pageType, w.slug, w.title, w.aliases, w.tags, w.summary, CharLen(body), path, SetOf(w.sourceIds),
         t.hash(body), 1, false)
  }

  /** The row's body reference stays; its sources accumulate and its version grows. */
  function Rewritten(t: Tools, p: Page, w: PageWrite, body: string): Page {
    p.(title := w.title, aliases := w.aliases, tags := w.tags, summary := w.summary, charLen := CharLen(body),
       contentHash := t.hash(body), sourceIds := p.sourceIds + SetOf(w.sourceIds), syncVersion := p.syncVersion + 1)
  }

  function UpsertId(pages: seq<Page>, key: Key): (id: nat)
    ensures id <= |pages|
  {
    LiveAt(pages, key).GetOr(|pages|)
  }

  function Upserted(t: Tools, pages: seq<Page>, w: PageWrite, body: string, path: Path): (out: seq<Page>)
    ensures UpsertId(pages, KeyOf(w)) < |out|
  {
    match LiveAt(pages, KeyOf(w))
    case Some(i) => pages[i := Rewritten(t, pages[i], w, body)]
    case None => pages + [NewPage(t, w, body, path)]
  }

  // ---------------------------------------------------------------------------------------------
  // Links
  // ---------------------------------------------------------------------------------------------

  predicate Answers(p: Page, slug: string) { !p.deleted && (p.slug == slug || slug in p.aliases) }

  /** The first live page with this slug or alias; without one the link is dead. */
  function Target(pages: seq<Page>, slug: string): (r: Option<nat>)
    ensures r.Some? ==> r.value < |pages| && Answers(pages[r.value], slug)
    ensures r.None? <==> forall i :: 0 <= i < |pages| ==> !Answers(pages[i], slug)
  {
    if pages == [] then None
    else
      var n := |pages| - 1;
      var earlier := Target(pages[..n], slug);
      assert forall i :: 0 <= i < n ==> pages[..n][i] == pages[i];
      if earlier.Some? then earlier else if Answers(pages[n], slug) then Some(n) else None
  }

  function LinkRow(pages: seq<Page>, src: nat, l: ParsedLink): Link {
    Link(src, l.slug, l.folderType, Target(pages, l.slug), l.display)
  }

  function LinksOf(links: seq<Link>, src: nat): seq<Link> {
    if links == [] then []
    else
      var before, l := LinksOf(links[..|links| - 1], src), links[|links| - 1];
      if l.src == src then before + [l] else before
  }

  function WithoutSource(links: seq<Link>, src: nat): seq<Link> {
    if links == [] then []
    else
      var before, l := WithoutSource(links[..|links| - 1], src), links[|links| - 1];
      if l.src == src then before else before + [l]
  }

  predicate Linked(links: seq<Link>, src: nat, slug: string) {
    exists i :: 0 <= i < |links| && links[i].src == src && links[i].slug == slug
  }

  /** One edge per target: a repeated one changes nothing. */
  function Inserted(pages: seq<Page>, links: seq<Link>, src: nat, parsed: seq<ParsedLink>): seq<Link> {
    if parsed == [] then links
    else
      var before, l := Inserted(pages, links, src, parsed[..|parsed| - 1]), parsed[|parsed| - 1];
      if Linked(before, src, l.slug) then before else before + [LinkRow(pages, src, l)]
  }

  function Replaced(pages: seq<Page>, links: seq<Link>, src: nat, parsed: seq<ParsedLink>): seq<Link> {
    Inserted(pages, WithoutSource(links, src), src, parsed)
  }

  predicate Mentioned(parsed: seq<ParsedLink>, slug: string) {
    exists i :: 0 <= i < |parsed| && parsed[i].slug == slug
  }

  /** The first mention of each target. */
  function FirstMentions(parsed: seq<ParsedLink>): seq<ParsedLink> {
    if parsed == [] then []
    else
      var before, l := FirstMentions(parsed[..|parsed| - 1]), parsed[|parsed| - 1];
      if Mentioned(before, l.slug) then before else before + [l]
  }

  function RowsFor(pages: seq<Page>, src: nat, mentions: seq<ParsedLink>): seq<Link> {
    Map(l => LinkRow(pages, src, l), mentions)
  }

  function Edges(pages: seq<Page>, src: nat, parsed: seq<ParsedLink>): seq<Link> {
    RowsFor(pages, src, FirstMentions(parsed))
  }

  lemma RowsForAppend(pages: seq<Page>, src: nat, mentions: seq<ParsedLink>, l: ParsedLink)
    ensures RowsFor(pages, src, mentions + [l]) == RowsFor(pages, src, mentions) + [LinkRow(pages, src, l)]
  {
  }

  predicate Named(rows: seq<Link>, slug: string) { exists i :: 0 <= i < |rows| && rows[i].slug == slug }

  lemma NamedIsMentioned(pages: seq<Page>, src: nat, mentions: seq<ParsedLink>, slug: string)
    ensures Named(RowsFor(pages, src, mentions), slug) <==> Mentioned(mentions, slug)
  {
    var rows := RowsFor(pages, src, mentions);
    if Mentioned(mentions, slug) {
      var i :| 0 <= i < |mentions| && mentions[i].slug == slug;
      assert rows[i].slug == slug;
    }
    if Named(rows, slug) {
      var i :| 0 <= i < |rows| && rows[i].slug == slug;
      assert mentions[i].slug == slug;
    }
  }

  lemma {:induction false} LinkedIn(links: seq<Link>, src: nat, slug: string)
    ensures Linked(links, src, slug) <==> Named(LinksOf(links, src), slug)
  {
    if links != [] {
      var n := |links| - 1;
      LinkedIn(links[..n], src, slug);
      assert Linked(links, src, slug)
          <==> Linked(links[..n], src, slug) || (links[n].src == src && links[n].slug == slug) by {
        assert forall i :: 0 <= i < n ==> links[..n][i] == links[i];
      }
      OneMoreNamed(LinksOf(links[..n], src), links[n], slug);
    }
  }

  lemma OneMoreNamed(rows: seq<Link>, l: Link, slug: string)
    ensures Named(rows + [l], slug) <==> Named(rows, slug) || l.slug == slug
  {
    assert (rows + [l])[|rows|] == l;
    assert forall i :: 0 <= i < |rows| ==> (rows + [l])[i] == rows[i];
  }

  lemma OneMoreLink(links: seq<Link>, l: Link, src: nat)
    ensures LinksOf(links + [l], src) == LinksOf(links, src) + (if l.src == src then [l] else [])
  {
    assert (links + [l])[..|links|] == links;
  }

  lemma {:induction false} ClearedLinks(links: seq<Link>, src: nat, other: nat)
    ensures LinksOf(WithoutSource(links, src), other) == if other == src then [] else LinksOf(links, other)
  {
    if links != [] {
      var n := |links| - 1;
      ClearedLinks(links[..n], src, other);
      if links[n].src != src {
        OneMoreLink(WithoutSource(links[..n], src), links[n], other);
      }
    }
  }

  lemma {:induction false} InsertedLinks(pages: seq<Page>, links: seq<Link>, src: nat, parsed: seq<ParsedLink>)
    requires LinksOf(links, src) == []
    ensures LinksOf(Inserted(pages, links, src, parsed), src) == Edges(pages, src, parsed)
  {
    if parsed != [] {
      var n := |parsed| - 1;
      var before, l, firsts := Inserted(pages, links, src, parsed[..n]), parsed[n], FirstMentions(parsed[..n]);
      InsertedLinks(pages, links, src, parsed[..n]);
      LinkedIn(before, src, l.slug);
      NamedIsMentioned(pages, src, firsts, l.slug);
      OneMoreLink(before, LinkRow(pages, src, l), src);
      RowsForAppend(pages, src, firsts, l);
    }
  }

  lemma {:induction false} InsertedElsewhere(pages: seq<Page>, links: seq<Link>, src: nat, parsed: seq<ParsedLink>,
                                             other: nat)
    requires other != src
    ensures LinksOf(Inserted(pages, links, src, parsed), other) == LinksOf(links, other)
  {
    if parsed != [] {
      var n := |parsed| - 1;
      InsertedElsewhere(pages, links, src, parsed[..n], other);
      OneMoreLink(Inserted(pages, links, src, parsed[..n]), LinkRow(pages, src, parsed[n]), other);
    }
  }

  /** Replacing a page's links leaves exactly the first mention of each target it names now, and touches no
      other page's links. */
  lemma ReplacedLinks(pages: seq<Page>, links: seq<Link>, src: nat, parsed: seq<ParsedLink>, other: nat)
    ensures LinksOf(Replaced(pages, links, src, parsed), other)
         == if other == src then Edges(pages, src, parsed) else LinksOf(links, other)
  {
    ClearedLinks(links, src, src);
    ClearedLinks(links, src, other);
    InsertedLinks(pages, WithoutSource(links, src), src, parsed);
    if other != src {
      InsertedElsewhere(pages, WithoutSource(links, src), src, parsed, other);
    }
  }

  // ---------------------------------------------------------------------------------------------
  // The write
  // ---------------------------------------------------------------------------------------------

  predicate OverQuotaAt(q: Quota, pages: seq<Page>, body: string) {
    LivePages(pages) >= q.maxPages || LiveChars(pages) + CharLen(body) > q.maxBytes
  }

  function Dirs(v: Vault, pageType: string): set<Path> {
    v.dirs + {[]} + (if Folder(pageType) == "" then {} else {[Folder(pageType)]})
  }

  function TouchOf(path: Path, w: PageWrite, complete: bool): Touch { Touch(path, KeyOf(w), complete) }

  /** From the file write on; the path has been checked. */
  function Through(t: Tools, v: Vault, w: PageWrite, body: string, path: Path, stop: Stop)
    : (Vault, Result<nat, Refusal>)
  {
    if stop.BeforeFile? then (v, Err(Crashed))
    else if stop.DuringFile? then
      (v.(files := v.files[path := stop.torn], log := v.log + [TouchOf(path, w, false)]), Err(Crashed))
    else
      var v1 := v.(files := v.files[path := body]);
      if stop.AfterFile? then (v1.(log := v.log + [TouchOf(path, w, false)]), Err(Crashed))
      else if w.pageType !in PAGE_TYPES then (v1.(log := v.log + [TouchOf(path, w, false)]), Err(Database))
      else
        var id, pages := UpsertId(v.pages, KeyOf(w)), Upserted(t, v.pages, w, body, path);
        if stop.AfterRow? then (v1.(pages := pages, log := v.log + [TouchOf(path, w, false)]), Err(Crashed))
        else
          (v1.(pages := pages, links := Replaced(pages, v.links, id, t.parse(body)),
               log := v.log + [TouchOf(path, w, true)]), Ok(id))
  }

  function Written(t: Tools, q: Quota, v: Vault, w: PageWrite, stop: Stop): (Vault, Result<nat, Refusal>) {
    var body := t.sanitize(w.body);
    if OverQuotaAt(q, v.pages, body) then (v, Err(OverQuota))
    else
      var v' := v.(dirs := Dirs(v, w.pageType));
      match Guard(v'.dirs, v.files, w.pageType, w.slug)
      case Err(e) => (v', Err(e))
      case Ok(path) => Through(t, v', w, body, path, stop)
  }

  class Gate {
    const tools: Tools
    const quota: Quota
    var dirs: set<Path>
    var files: map<Path, string>
    var pages: seq<Page>
    var links: seq<Link>
    ghost var log: seq<Touch>

    ghost function View(): Vault
      reads this
    {
      Vault(dirs, files, pages, links, log)
    }

    constructor (tools: Tools, quota: Quota)
      ensures this.tools == tools && this.quota == quota && View() == EMPTY
    {
      this.tools, this.quota := tools, quota;
      dirs, files, pages, links, log := {}, map[], [], [], [];
    }

    /** Inserts the row, or updates the live one with this type and slug. */
    method UpsertPage(w: PageWrite, body: string, path: Path) returns (id: nat)
      modifies this`pages
      ensures id == UpsertId(old(pages), KeyOf(w))
      ensures pages == Upserted(tools, old(pages), w, body, path)
    {
      var found := LiveAt(pages, KeyOf(w));
      if found.Some? {
        id := found.value;
        var row := pages[id];
        row := row.(title := w.title, aliases := w.aliases, tags := w.tags, summary := w.summary);
        row := row.(charLen := CharLen(body), contentHash := tools.hash(body));
        row := row.(sourceIds := row.sourceIds + SetOf(w.sourceIds), syncVersion := row.syncVersion + 1);
        pages := pages[id := row];
      } else {
        id := |pages|;
        pages := pages + [Page(w.pageType, w.slug, w.title, w.aliases, w.tags, w.summary, CharLen(body), path,
                               SetOf(w.sourceIds), tools.hash(body), 1, false)];
      }
    }

    /** Deletes the page's edges and inserts the new ones. */
    method ReplaceLinks(src: nat, parsed: seq<ParsedLink>)
      modifies this`links
      ensures links == Replaced(pages, old(links), src, parsed)
    {
      var out := WithoutSource(links, src);
      ghost var cleared := out;
      for i := 0 to |parsed|
        invariant out == Inserted(pages, cleared, src, parsed[..i])
      {
        assert parsed[..i + 1][..i] == parsed[..i];
        var l := parsed[i];
        if !Linked(out, src, l.slug) {
          out := out + [Link(src, l.slug, l.folderType, Target(pages, l.slug), l.display)];
        }
      }
      assert parsed[..|parsed|] == parsed;
      links := out;
    }

    method WritePage(w: PageWrite, stop: Stop) returns (r: Result<nat, Refusal>)
      modifies this
      ensures (View(), r) == Written(tools, quota, old(View()), w, stop)
    {
      var sanitized := tools.sanitize(w.body);
      if LivePages(pages) >= quota.maxPages || LiveChars(pages) + CharLen(sanitized) > quota.maxBytes {
        return Err(OverQuota);
      }
      dirs := dirs + {[]} + (if Folder(w.pageType) == "" then {} else {[Folder(w.pageType)]});
      var guarded := Guard(dirs, files, w.pageType, w.slug);
      if guarded.Err? {
        return Err(guarded.error);
      }
      var path := guarded.value;
      if stop.BeforeFile? {
        return Err(Crashed);
      }
      log := log + [TouchOf(path, w, stop.Nowhere? && w.pageType in PAGE_TYPES)];
      if stop.DuringFile? {
        files := files[path := stop.torn];
        return Err(Crashed);
      }
      files := files[path := sanitized];
      if stop.AfterFile? {
        return Err(Crashed);
      }
      if w.pageType !in PAGE_TYPES {
        return Err(Database);
      }
      var id := UpsertPage(w, sanitized, path);
      if stop.AfterRow? {
        return Err(Crashed);
      }
      ReplaceLinks(id, tools.parse(sanitized));
      r := Ok(id);
    }
  }

  const EMPTY := Vault({}, map[], [], [], [])
}
