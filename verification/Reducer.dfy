/** What one sync op does to the canonical tables (qcue-rs/app-server/src/sync/materialize.rs), and what a
    series of them amounts to. */
module Reducer {
  import opened Common
  import opened Json
  import opened Pages

  /** An op with its hybrid logical clock. */
  datatype SyncOp = SyncOp(wall: int, lamport: int, site: nat, kind: string, ref: string, op: Json)

  /** A live page: its title and its body as the write gate has stored it. */
  datatype Page = Page(title: string, body: string)

  datatype Idea = Idea(body: string, origin: string, capturedAt: Option<string>,
                       lat: Option<int>, lng: Option<int>, accuracy: Option<int>, active: bool)

  datatype Canon = Canon(pages: map<Key, Page>, ideas: map<string, Idea>)

  const EMPTY := Canon(map[], map[])

  /** The link sanitizer, and which of several live pages of one slug a query without order returns, given
      their types. */
  datatype Env = Env(sanitize: string -> string, pick: seq<string> -> nat)

  // ---------------------------------------------------------------------------------------------
  // Wiki ops
  // ---------------------------------------------------------------------------------------------

  predicate Deletes(op: Json) { Get(op, "delete") == Some(Bool(true)) }

  /** Any value counts, even null. */
  predicate Touches(op: Json) { Get(op, "create").Some? || Get(op, "set_title").Some? || Get(op, "set_body").Some? }

  function PageIn(pages: map<Key, Page>, key: Key): Option<Page> { if key in pages then Some(pages[key]) else None }

  /** The types among these of which the slug has a live page. */
  function TypesAt(types: seq<string>, pages: map<Key, Page>, slug: string): (live: seq<string>)
    ensures forall k :: k in live <==> k in types && Key(k, slug) in pages
  {
    if types == [] then []
    else (if Key(types[0], slug) in pages then [types[0]] else []) + TypesAt(types[1..], pages, slug)
  }

  /** The live page that an op on this slug reads or deletes. */
  function Current(env: Env, c: Canon, slug: string): (r: Option<Key>)
    ensures r.Some? ==> r.value in c.pages && r.value.slug == slug && r.value.pageType in PAGE_TYPES
    ensures r.None? <==> forall k :: k in PAGE_TYPES ==> Key(k, slug) !in c.pages
  {
    var live := TypesAt(PAGE_TYPES, c.pages, slug);
    if live == [] then
      assert forall k :: k in PAGE_TYPES ==> !(k in live);
      None
    else
      var k := live[env.pick(live) % |live|];
      assert k in live;
      Some(Key(k, slug))
  }

  function PageAt(env: Env, c: Canon, slug: string): Option<Page> {
    match Current(env, c, slug)
    case Some(key) => Some(c.pages[key])
    case None => None
  }

  /** The type that an op names. */
  function Named(op: Json): Option<string> { AsStr(GetIn(Get(op, "create"), "type")) }

  /** The page that an op writes: of the type it names, or of that of the page it reads, or a concept. */
  function KeyFor(env: Env, c: Canon, slug: string, op: Json): Key {
    var current := Current(env, c, slug);
    Key(Named(op).GetOr(if current.Some? then current.value.pageType else "concept"), slug)
  }

  function TitleAfter(current: Option<Page>, slug: string, op: Json): string {
    AsStr(Get(op, "set_title")).GetOr(if current.Some? then current.value.title else slug)
  }

  /** The body handed to the write gate: the new one, or the one on disk. */
  function BodyFor(current: Option<Page>, op: Json): string {
    AsStr(Get(op, "set_body")).GetOr(if current.Some? then current.value.body else "")
  }

  /** What a write leaves there. */
  function PageAfter(env: Env, c: Canon, slug: string, op: Json): Page {
    Page(TitleAfter(PageAt(env, c, slug), slug, op), env.sanitize(BodyFor(PageAt(env, c, slug), op)))
  }

  /** No page is written of a type that the database does not know. */
  function ApplyWikiOp(env: Env, c: Canon, slug: string, op: Json): Canon {
    if Deletes(op) then
      match Current(env, c, slug)
      case Some(key) => c.(pages := c.pages - {key})
      case None => c
    else if !Touches(op) || KeyFor(env, c, slug, op).pageType !in PAGE_TYPES then c
    else c.(pages := c.pages[KeyFor(env, c, slug, op) := PageAfter(env, c, slug, op)])
  }

  // ---------------------------------------------------------------------------------------------
  // Idea ops
  // ---------------------------------------------------------------------------------------------

  function AsNum(v: Option<Json>): Option<int> { if v.Some? && v.value.Num? then Some(v.value.n) else None }

  function Coalesce<T>(a: Option<T>, b: Option<T>): Option<T> { if a.Some? then a else b }

  function Created(create: Json): Idea {
    Idea(StrAt(create, "body", ""), StrAt(create, "origin", "capture"), AsStr(Get(create, "captured_at")),
         None, None, None, true)
  }

  /** The first create of a key wins, even over a deleted idea. */
  function ApplyCreate(c: Canon, key: string, create: Json): Canon {
    if key in c.ideas then c else c.(ideas := c.ideas[key := Created(create)])
  }

  function Located(i: Idea, update: Json): Idea {
    i.(lat := Coalesce(AsNum(Get(update, "lat")), i.lat), lng := Coalesce(AsNum(Get(update, "lng")), i.lng),
       accuracy := Coalesce(AsNum(Get(update, "loc_accuracy_m")), i.accuracy))
  }

  /** A body that does not change keeps the whole row as it is, location included. */
  function ApplyUpdate(c: Canon, key: string, update: Json): Canon {
    if key !in c.ideas then c
    else
      var i, body := c.ideas[key], AsStr(Get(update, "body"));
      if body.None? then c.(ideas := c.ideas[key := Located(i, update)])
      else if body.value == i.body then c
      else c.(ideas := c.ideas[key := Located(i, update).(body := body.value)])
  }

  function ApplyDelete(c: Canon, key: string): Canon {
    if key in c.ideas then c.(ideas := c.ideas[key := c.ideas[key].(active := false)]) else c
  }

  function ApplyIdeaOp(c: Canon, key: string, op: Json): Canon {
    if Get(op, "create").Some? then ApplyCreate(c, key, Get(op, "create").value)
    else if Get(op, "update").Some? then ApplyUpdate(c, key, Get(op, "update").value)
    else if Get(op, "delete").Some? then ApplyDelete(c, key)
    else c
  }

  function Apply(env: Env, c: Canon, o: SyncOp): Canon {
    match o.kind
    case "idea" => ApplyIdeaOp(c, o.ref, o.op)
    case "wiki_page" => ApplyWikiOp(env, c, o.ref, o.op)
    case _ => c
  }

  function ApplyAll(env: Env, c: Canon, os: seq<SyncOp>): Canon {
    if os == [] then c else Apply(env, ApplyAll(env, c, os[..|os| - 1]), os[|os| - 1])
  }

  lemma {:induction false} ApplyAllAppend(env: Env, c: Canon, a: seq<SyncOp>, b: seq<SyncOp>)
    ensures ApplyAll(env, c, a + b) == ApplyAll(env, ApplyAll(env, c, a), b)
    decreases |b|
  {
    if b == [] {
      assert a + b == a;
    } else {
      assert (a + b)[..|a + b| - 1] == a + b[..|b| - 1];
      ApplyAllAppend(env, c, a, b[..|b| - 1]);
    }
  }

  // ---------------------------------------------------------------------------------------------
  // What the ops on one page amount to
  // ---------------------------------------------------------------------------------------------

  /** Only `true` deletes. */
  predicate DeletesPage(o: SyncOp, slug: string) {
    o.kind == "wiki_page" && o.ref == slug && Get(o.op, "delete") == Some(Bool(true))
  }

  predicate WritesPage(o: SyncOp, slug: string) {
    && o.kind == "wiki_page" && o.ref == slug && Get(o.op, "delete") != Some(Bool(true))
    && (Get(o.op, "create").Some? || Get(o.op, "set_title").Some? || Get(o.op, "set_body").Some?)
  }

  /** The ops that have touched this page since it was last deleted, oldest first. */
  function TouchesSince(os: seq<SyncOp>, slug: string): seq<Json> {
    if os == [] then []
    else
      var before, o := TouchesSince(os[..|os| - 1], slug), os[|os| - 1];
      if DeletesPage(o, slug) then [] else if WritesPage(o, slug) then before + [o.op] else before
  }

  /** The type of the page that these touches leave: that which the first of them names, or a concept. */
  function TypeBy(ops: seq<Json>): string
    requires ops != []
  {
    Named(ops[0]).GetOr("concept")
  }

  /** Since each deletion the ops on this slug have named one type only, and one that is known. */
  predicate Steady(os: seq<SyncOp>, slug: string) {
    os != [] ==>
      && Steady(os[..|os| - 1], slug)
      && (WritesPage(os[|os| - 1], slug) ==> SteadyTouch(TouchesSince(os[..|os| - 1], slug), os[|os| - 1].op))
  }

  predicate SteadyTouch(before: seq<Json>, op: Json) {
    if before == [] then TypeBy([op]) in PAGE_TYPES else Named(op).None? || Named(op) == Some(TypeBy(before))
  }

  /** The title set last; one that is no string does not count. */
  function LastTitle(ops: seq<Json>): Option<string> {
    if ops == [] then None else Coalesce(AsStr(Get(ops[|ops| - 1], "set_title")), LastTitle(ops[..|ops| - 1]))
  }

  function LastBody(ops: seq<Json>): Option<string> {
    if ops == [] then None else Coalesce(AsStr(Get(ops[|ops| - 1], "set_body")), LastBody(ops[..|ops| - 1]))
  }

  /** How many of the ops come from the last body on, that one included. */
  function WritesOfBody(ops: seq<Json>): nat {
    if ops == [] then 0
    else if AsStr(Get(ops[|ops| - 1], "set_body")).Some? then 1
    else WritesOfBody(ops[..|ops| - 1]) + 1
  }

  function Iterate(f: string -> string, n: nat, s: string): string { if n == 0 then s else f(Iterate(f, n - 1, s)) }

  /** The page that these touches leave. Each of them writes the whole page, so a body is sanitized once for
      every write since it was set. */
  function PageOf(sanitize: string -> string, slug: string, ops: seq<Json>): Option<Page> {
    if ops == [] then None
    else Some(Page(LastTitle(ops).GetOr(slug), Iterate(sanitize, WritesOfBody(ops), LastBody(ops).GetOr(""))))
  }

  lemma OneMoreTouch(sanitize: string -> string, slug: string, before: seq<Json>, op: Json)
    ensures var current := PageOf(sanitize, slug, before);
            PageOf(sanitize, slug, before + [op])
            == Some(Page(TitleAfter(current, slug, op), sanitize(BodyFor(current, op))))
  {
    var all := before + [op];
    assert all[..|all| - 1] == before;
    var n, body, newBody := WritesOfBody(before), LastBody(before).GetOr(""), AsStr(Get(op, "set_body"));
    assert before == [] ==> LastTitle(before) == None && LastBody(before) == None && n == 0;
    assert LastTitle(all) == Coalesce(AsStr(Get(op, "set_title")), LastTitle(before));
    assert LastBody(all) == Coalesce(newBody, LastBody(before));
    assert WritesOfBody(all) == if newBody.Some? then 1 else n + 1;
    assert Iterate(sanitize, 0, newBody.GetOr(body)) == newBody.GetOr(body);
    assert Iterate(sanitize, 1, newBody.GetOr(body)) == sanitize(Iterate(sanitize, 0, newBody.GetOr(body)));
    assert Iterate(sanitize, n + 1, body) == sanitize(Iterate(sanitize, n, body));
  }

  /** The slug's live pages are one of this type and with this content, or none. */
  ghost predicate Holds(c: Canon, slug: string, kind: string, page: Option<Page>) {
    forall k :: PageIn(c.pages, Key(k, slug)) == if k == kind then page else None
  }

  lemma HoldsCurrent(env: Env, c: Canon, slug: string, kind: string, page: Option<Page>)
    requires Holds(c, slug, kind, page) && (page.Some? ==> kind in PAGE_TYPES)
    ensures Current(env, c, slug) == if page.Some? then Some(Key(kind, slug)) else None
    ensures PageAt(env, c, slug) == page
  {
    var r := Current(env, c, slug);
    assert PageIn(c.pages, Key(kind, slug)) == page;
    if r.Some? {
      assert PageIn(c.pages, Key(r.value.pageType, slug)).Some?;
    }
  }

  lemma ElsewhereKeeps(env: Env, c: Canon, o: SyncOp, slug: string, k: string)
    requires !DeletesPage(o, slug) && !WritesPage(o, slug)
    ensures PageIn(Apply(env, c, o).pages, Key(k, slug)) == PageIn(c.pages, Key(k, slug))
  {
  }

  lemma WriteOnPage(env: Env, c: Canon, o: SyncOp, k: string)
    requires WritesPage(o, o.ref) && KeyFor(env, c, o.ref, o.op).pageType in PAGE_TYPES
    ensures PageIn(Apply(env, c, o).pages, Key(k, o.ref))
         == if Key(k, o.ref) == KeyFor(env, c, o.ref, o.op) then Some(PageAfter(env, c, o.ref, o.op))
            else PageIn(c.pages, Key(k, o.ref))
  {
  }

  lemma DeletionOnPage(env: Env, c: Canon, o: SyncOp, k: string)
    requires DeletesPage(o, o.ref)
    ensures PageIn(Apply(env, c, o).pages, Key(k, o.ref))
         == if Current(env, c, o.ref) == Some(Key(k, o.ref)) then None else PageIn(c.pages, Key(k, o.ref))
  {
  }

  /** The type of the page that these ops leave, or any where they leave none. */
  function TypeLeft(os: seq<SyncOp>, slug: string): string {
    var touches := TouchesSince(os, slug);
    if touches == [] then "" else TypeBy(touches)
  }

  lemma WriteHolds(env: Env, c: Canon, before: seq<Json>, o: SyncOp, kind: string)
    requires WritesPage(o, o.ref) && SteadyTouch(before, o.op)
    requires Holds(c, o.ref, kind, PageOf(env.sanitize, o.ref, before))
    requires before != [] ==> kind == TypeBy(before) && kind in PAGE_TYPES
    ensures TypeBy(before + [o.op]) in PAGE_TYPES
    ensures Holds(Apply(env, c, o), o.ref, TypeBy(before + [o.op]), PageOf(env.sanitize, o.ref, before + [o.op]))
  {
    HoldsCurrent(env, c, o.ref, kind, PageOf(env.sanitize, o.ref, before));
    OneMoreTouch(env.sanitize, o.ref, before, o.op);
    forall k
      ensures PageIn(Apply(env, c, o).pages, Key(k, o.ref))
              == if k == TypeBy(before + [o.op]) then PageOf(env.sanitize, o.ref, before + [o.op]) else None
    {
      assert PageIn(c.pages, Key(k, o.ref)) == if k == kind then PageOf(env.sanitize, o.ref, before) else None;
      WriteOnPage(env, c, o, k);
    }
  }

  lemma DeletionHolds(env: Env, c: Canon, before: seq<Json>, o: SyncOp, kind: string)
    requires DeletesPage(o, o.ref) && Holds(c, o.ref, kind, PageOf(env.sanitize, o.ref, before))
    requires before != [] ==> kind in PAGE_TYPES
    ensures Holds(Apply(env, c, o), o.ref, "", None)
  {
    HoldsCurrent(env, c, o.ref, kind, PageOf(env.sanitize, o.ref, before));
    forall k
      ensures PageIn(Apply(env, c, o).pages, Key(k, o.ref)) == None
    {
      assert PageIn(c.pages, Key(k, o.ref)) == if k == kind then PageOf(env.sanitize, o.ref, before) else None;
      DeletionOnPage(env, c, o, k);
    }
  }

  /** Last writer wins: where the ops on a slug name one type between deletions, it has one live page at most,
      with the type named first, the last title and the last body since its last deletion. */
  lemma {:induction false} LastWriterWins(env: Env, os: seq<SyncOp>, slug: string)
    requires Steady(os, slug)
    ensures var touches := TouchesSince(os, slug);
            && (touches != [] ==> TypeLeft(os, slug) in PAGE_TYPES)
            && Holds(ApplyAll(env, EMPTY, os), slug, TypeLeft(os, slug), PageOf(env.sanitize, slug, touches))
  {
    if os != [] {
      var before, o := os[..|os| - 1], os[|os| - 1];
      var c, touches := ApplyAll(env, EMPTY, before), TouchesSince(before, slug);
      LastWriterWins(env, before, slug);
      if WritesPage(o, slug) {
        WriteHolds(env, c, touches, o, TypeLeft(before, slug));
      } else if DeletesPage(o, slug) {
        DeletionHolds(env, c, touches, o, TypeLeft(before, slug));
      } else {
        forall k
          ensures PageIn(Apply(env, c, o).pages, Key(k, slug))
                  == if k == TypeLeft(before, slug) then PageOf(env.sanitize, slug, touches) else None
        {
          ElsewhereKeeps(env, c, o, slug, k);
        }
      }
    }
  }

  /** In particular an op that reads the page sees that one. */
  lemma LastWriterIsSeen(env: Env, os: seq<SyncOp>, slug: string)
    requires Steady(os, slug)
    ensures PageAt(env, ApplyAll(env, EMPTY, os), slug) == PageOf(env.sanitize, slug, TouchesSince(os, slug))
  {
    LastWriterWins(env, os, slug);
    HoldsCurrent(env, ApplyAll(env, EMPTY, os), slug, TypeLeft(os, slug),
                 PageOf(env.sanitize, slug, TouchesSince(os, slug)));
  }

  lemma {:induction false} IterateFixed(f: string -> string, n: nat, s: string)
    requires n > 0 && f(f(s)) == f(s)
    ensures Iterate(f, n, s) == f(s)
  {
    if n > 1 {
      IterateFixed(f, n - 1, s);
    } else {
      assert Iterate(f, 0, s) == s;
    }
  }

  /** Where sanitizing the last body again changes nothing, the page has that body sanitized. */
  lemma SanitizedOnce(sanitize: string -> string, slug: string, ops: seq<Json>)
    requires ops != []
    requires var body := LastBody(ops).GetOr(""); sanitize(sanitize(body)) == sanitize(body)
    ensures PageOf(sanitize, slug, ops) == Some(Page(LastTitle(ops).GetOr(slug), sanitize(LastBody(ops).GetOr(""))))
  {
    IterateFixed(sanitize, WritesOfBody(ops), LastBody(ops).GetOr(""));
  }

  // ---------------------------------------------------------------------------------------------
  // Ideas
  // ---------------------------------------------------------------------------------------------

  /** An idea, once there, is never removed, its origin never changes, and once deleted it stays deleted. */
  lemma {:induction false} IdeasStay(env: Env, c: Canon, os: seq<SyncOp>, key: string)
    requires key in c.ideas
    ensures var i, j := c.ideas[key], ApplyAll(env, c, os).ideas;
            key in j && j[key].origin == i.origin && j[key].capturedAt == i.capturedAt && (!i.active ==> !j[key].active)
  {
    if os != [] {
      IdeasStay(env, c, os[..|os| - 1], key);
    }
  }

  // What the ops on one idea amount to.

  predicate CreatesIdea(o: SyncOp, key: string) { o.kind == "idea" && o.ref == key && Get(o.op, "create").Some? }

  predicate UpdatesIdea(o: SyncOp, key: string) {
    o.kind == "idea" && o.ref == key && Get(o.op, "create").None? && Get(o.op, "update").Some?
  }

  predicate DeletesIdea(o: SyncOp, key: string) {
    o.kind == "idea" && o.ref == key && Get(o.op, "create").None? && Get(o.op, "update").None?
    && Get(o.op, "delete").Some?
  }

  predicate IsCreated(os: seq<SyncOp>, key: string) { exists k :: 0 <= k < |os| && CreatesIdea(os[k], key) }

  /** Some deletion comes after a creation. */
  predicate IsDeleted(os: seq<SyncOp>, key: string) {
    exists j, k :: 0 <= j < k < |os| && CreatesIdea(os[j], key) && DeletesIdea(os[k], key)
  }

  /** The first op that creates the idea. */
  function FirstCreate(os: seq<SyncOp>, key: string): (k: nat)
    requires IsCreated(os, key)
    ensures k < |os| && CreatesIdea(os[k], key) && forall j :: 0 <= j < k ==> !CreatesIdea(os[j], key)
  {
    if CreatesIdea(os[0], key) then 0
    else
      assert IsCreated(os[1..], key) by {
        var k :| 0 <= k < |os| && CreatesIdea(os[k], key);
        assert os[1..][k - 1] == os[k];
      }
      var k := FirstCreate(os[1..], key);
      assert forall j :: 1 <= j < k + 1 ==> os[j] == os[1..][j - 1];
      k + 1
  }

  /** The bodies sent: with the first creation, and with every update after it that has one. */
  function BodiesSent(os: seq<SyncOp>, key: string): seq<string> {
    if os == [] then []
    else
      var before, o := BodiesSent(os[..|os| - 1], key), os[|os| - 1];
      if before == [] then (if CreatesIdea(o, key) then [StrAt(Get(o.op, "create").value, "body", "")] else [])
      else if UpdatesIdea(o, key) && AsStr(Get(Get(o.op, "update").value, "body")).Some?
      then before + [AsStr(Get(Get(o.op, "update").value, "body")).value]
      else before
  }

  function LastOf(texts: seq<string>): string { if texts == [] then "" else texts[|texts| - 1] }

  /** An update of an idea that is there, and not lost because it sends the body that the idea has. */
  predicate Lands(before: seq<SyncOp>, o: SyncOp, key: string) {
    UpdatesIdea(o, key) && BodiesSent(before, key) != []
    && AsStr(Get(Get(o.op, "update").value, "body")) != Some(LastOf(BodiesSent(before, key)))
  }

  /** The numbers sent under this name by updates that land. */
  function NumbersSent(os: seq<SyncOp>, key: string, name: string): seq<int> {
    if os == [] then []
    else
      var before, o := NumbersSent(os[..|os| - 1], key, name), os[|os| - 1];
      if Lands(os[..|os| - 1], o, key) && AsNum(Get(Get(o.op, "update").value, name)).Some?
      then before + [AsNum(Get(Get(o.op, "update").value, name)).value]
      else before
  }

  function LastNumber(ns: seq<int>): Option<int> { if ns == [] then None else Some(ns[|ns| - 1]) }

  /** The idea that these ops leave. */
  ghost predicate IdeaIs(c: Canon, os: seq<SyncOp>, key: string) {
    && (key in c.ideas <==> IsCreated(os, key)) && (IsCreated(os, key) <==> BodiesSent(os, key) != [])
    && (key in c.ideas ==>
          var i, create := c.ideas[key], Get(os[FirstCreate(os, key)].op, "create").value;
          && i.body == LastOf(BodiesSent(os, key))
          && i.origin == StrAt(create, "origin", "capture") && i.capturedAt == AsStr(Get(create, "captured_at"))
          && (i.active <==> !IsDeleted(os, key))
          && i.lat == LastNumber(NumbersSent(os, key, "lat")) && i.lng == LastNumber(NumbersSent(os, key, "lng"))
          && i.accuracy == LastNumber(NumbersSent(os, key, "loc_accuracy_m")))
    && (!IsCreated(os, key) ==>
          NumbersSent(os, key, "lat") == NumbersSent(os, key, "lng") == NumbersSent(os, key, "loc_accuracy_m") == [])
  }

  lemma OneMoreCreated(os: seq<SyncOp>, o: SyncOp, key: string)
    ensures IsCreated(os + [o], key) <==> IsCreated(os, key) || CreatesIdea(o, key)
    ensures IsCreated(os, key) ==> FirstCreate(os + [o], key) == FirstCreate(os, key)
    ensures !IsCreated(os, key) && CreatesIdea(o, key) ==> FirstCreate(os + [o], key) == |os|
    ensures IsDeleted(os + [o], key) <==> IsDeleted(os, key) || (IsCreated(os, key) && DeletesIdea(o, key))
  {
    var all := os + [o];
    assert forall k :: 0 <= k < |os| ==> all[k] == os[k];
    assert all[|os|] == o;
    if IsCreated(os, key) {
      assert CreatesIdea(all[FirstCreate(os, key)], key);
    }
    if IsDeleted(os, key) {
      var j, k :| 0 <= j < k < |os| && CreatesIdea(os[j], key) && DeletesIdea(os[k], key);
      assert CreatesIdea(all[j], key) && DeletesIdea(all[k], key);
    }
  }

  lemma OneMoreSent(os: seq<SyncOp>, o: SyncOp, key: string, name: string)
    ensures BodiesSent(os + [o], key)
         == if BodiesSent(os, key) == []
            then (if CreatesIdea(o, key) then [StrAt(Get(o.op, "create").value, "body", "")] else [])
            else if UpdatesIdea(o, key) && AsStr(Get(Get(o.op, "update").value, "body")).Some?
            then BodiesSent(os, key) + [AsStr(Get(Get(o.op, "update").value, "body")).value]
            else BodiesSent(os, key)
    ensures NumbersSent(os + [o], key, name)
         == if Lands(os, o, key) && AsNum(Get(Get(o.op, "update").value, name)).Some?
            then NumbersSent(os, key, name) + [AsNum(Get(Get(o.op, "update").value, name)).value]
            else NumbersSent(os, key, name)
  {
    assert (os + [o])[..|os|] == os;
  }

  lemma CreationKeepsIdea(env: Env, c: Canon, os: seq<SyncOp>, o: SyncOp, key: string)
    requires IdeaIs(c, os, key) && CreatesIdea(o, key)
    ensures IdeaIs(Apply(env, c, o), os + [o], key)
  {
    OneMoreCreated(os, o, key);
    OneMoreSent(os, o, key, "lat");
    OneMoreSent(os, o, key, "lng");
    OneMoreSent(os, o, key, "loc_accuracy_m");
    var first := FirstCreate(os + [o], key);
    assert (os + [o])[first] == if IsCreated(os, key) then os[FirstCreate(os, key)] else o;
  }

  function IdeaIn(c: Canon, key: string): Option<Idea> { if key in c.ideas then Some(c.ideas[key]) else None }

  lemma OpOnIdea(env: Env, c: Canon, o: SyncOp, key: string)
    requires !CreatesIdea(o, key)
    ensures IdeaIn(Apply(env, c, o), key)
         == if IdeaIn(c, key).None? then None
            else if UpdatesIdea(o, key) then IdeaIn(ApplyUpdate(c, key, Get(o.op, "update").value), key)
            else if DeletesIdea(o, key) then Some(c.ideas[key].(active := false))
            else IdeaIn(c, key)
  {
  }

  lemma SentBefore(os: seq<SyncOp>, o: SyncOp, key: string)
    requires !CreatesIdea(o, key) && (IsCreated(os, key) <==> BodiesSent(os, key) != [])
    ensures IsCreated(os + [o], key) <==> IsCreated(os, key)
    ensures IsCreated(os, key) ==> (os + [o])[FirstCreate(os + [o], key)] == os[FirstCreate(os, key)]
    ensures IsCreated(os + [o], key) <==> BodiesSent(os + [o], key) != []
  {
    OneMoreCreated(os, o, key);
    OneMoreSent(os, o, key, "");
  }

  lemma NotThereStays(env: Env, c: Canon, os: seq<SyncOp>, o: SyncOp, key: string)
    requires IdeaIs(c, os, key) && !CreatesIdea(o, key) && !IsCreated(os, key)
    ensures IdeaIs(Apply(env, c, o), os + [o], key)
  {
    OpOnIdea(env, c, o, key);
    SentBefore(os, o, key);
    OneMoreSent(os, o, key, "lat");
    OneMoreSent(os, o, key, "lng");
    OneMoreSent(os, o, key, "loc_accuracy_m");
  }

  lemma NumberAfter(os: seq<SyncOp>, o: SyncOp, key: string, name: string, update: Json)
    requires UpdatesIdea(o, key) && BodiesSent(os, key) != [] && update == Get(o.op, "update").value
    ensures LastNumber(NumbersSent(os + [o], key, name))
         == if AsStr(Get(update, "body")) == Some(LastOf(BodiesSent(os, key)))
            then LastNumber(NumbersSent(os, key, name))
            else Coalesce(AsNum(Get(update, name)), LastNumber(NumbersSent(os, key, name)))
  {
    OneMoreSent(os, o, key, name);
  }

  lemma BodyAfter(os: seq<SyncOp>, o: SyncOp, key: string, update: Json)
    requires UpdatesIdea(o, key) && BodiesSent(os, key) != [] && update == Get(o.op, "update").value
    ensures LastOf(BodiesSent(os + [o], key)) == AsStr(Get(update, "body")).GetOr(LastOf(BodiesSent(os, key)))
  {
    OneMoreSent(os, o, key, "");
  }

  /** An idea after an update, part by part. */
  lemma UpdatedIdea(c: Canon, key: string, update: Json, body: string)
    requires key in c.ideas && body == c.ideas[key].body
    ensures var i, after, sent := c.ideas[key], ApplyUpdate(c, key, update), AsStr(Get(update, "body"));
            && key in after.ideas
            && after.ideas[key]
               == if sent == Some(body) then i
                  else Idea(sent.GetOr(body), i.origin, i.capturedAt, Coalesce(AsNum(Get(update, "lat")), i.lat),
                            Coalesce(AsNum(Get(update, "lng")), i.lng),
                            Coalesce(AsNum(Get(update, "loc_accuracy_m")), i.accuracy), i.active)
  {
  }

  lemma UpdateKeepsIdea(env: Env, c: Canon, os: seq<SyncOp>, o: SyncOp, key: string)
    requires IdeaIs(c, os, key) && UpdatesIdea(o, key) && IsCreated(os, key)
    ensures IdeaIs(Apply(env, c, o), os + [o], key)
  {
    var update := Get(o.op, "update").value;
    OpOnIdea(env, c, o, key);
    UpdatedIdea(c, key, update, c.ideas[key].body);
    SentBefore(os, o, key);
    OneMoreCreated(os, o, key);
    BodyAfter(os, o, key, update);
    NumberAfter(os, o, key, "lat", update);
    NumberAfter(os, o, key, "lng", update);
    NumberAfter(os, o, key, "loc_accuracy_m", update);
  }

  lemma OtherKeepsIdea(env: Env, c: Canon, os: seq<SyncOp>, o: SyncOp, key: string)
    requires IdeaIs(c, os, key) && !CreatesIdea(o, key) && !UpdatesIdea(o, key) && IsCreated(os, key)
    ensures IdeaIs(Apply(env, c, o), os + [o], key)
  {
    OpOnIdea(env, c, o, key);
    SentBefore(os, o, key);
    OneMoreCreated(os, o, key);
    OneMoreSent(os, o, key, "lat");
    OneMoreSent(os, o, key, "lng");
    OneMoreSent(os, o, key, "loc_accuracy_m");
  }

  /** What the ops make of an idea, in terms of the ops alone: it is there exactly if some op creates it, with
      origin and time of the first creation; active exactly if none that comes after a creation deletes it; its
      body is the last one sent since, and each coordinate the last one sent by an update that is not lost. */
  lemma {:induction false} IdeasFollowTheirOps(env: Env, os: seq<SyncOp>, key: string)
    ensures IdeaIs(ApplyAll(env, EMPTY, os), os, key)
  {
    if os != [] {
      var before, o := os[..|os| - 1], os[|os| - 1];
      IdeasFollowTheirOps(env, before, key);
      assert before + [o] == os;
      if CreatesIdea(o, key) {
        CreationKeepsIdea(env, ApplyAll(env, EMPTY, before), before, o, key);
      } else if !IsCreated(before, key) {
        NotThereStays(env, ApplyAll(env, EMPTY, before), before, o, key);
      } else if UpdatesIdea(o, key) {
        UpdateKeepsIdea(env, ApplyAll(env, EMPTY, before), before, o, key);
      } else {
        OtherKeepsIdea(env, ApplyAll(env, EMPTY, before), before, o, key);
      }
    }
  }

  predicate SamePlace(i: Idea, j: Idea) { i.lat == j.lat && i.lng == j.lng && i.accuracy == j.accuracy }

  /** The coordinates that an update sends differ from the idea's. */
  predicate Moves(i: Idea, update: Json) {
    || (AsNum(Get(update, "lat")).Some? && AsNum(Get(update, "lat")) != i.lat)
    || (AsNum(Get(update, "lng")).Some? && AsNum(Get(update, "lng")) != i.lng)
    || (AsNum(Get(update, "loc_accuracy_m")).Some? && AsNum(Get(update, "loc_accuracy_m")) != i.accuracy)
  }

  /** A location sent along with an unchanged body is lost: an update leaves the idea where it says, with every
      coordinate it does not send unchanged, exactly if it sends no body, a new body, or no new coordinate. */
  lemma UnchangedBodyLosesLocation(c: Canon, key: string, update: Json)
    requires key in c.ideas
    ensures var i, after := c.ideas[key], ApplyUpdate(c, key, update);
            && after.ideas.Keys == c.ideas.Keys
            && (SamePlace(after.ideas[key], Located(i, update))
                <==> AsStr(Get(update, "body")) != Some(i.body) || !Moves(i, update))
            && (AsStr(Get(update, "body")) == Some(i.body) ==> after == c)
  {
  }
}
