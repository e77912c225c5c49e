/** Where the write gate puts body files, and which writes it lets through (qcue-rs/wiki/src/write_gate.rs,
    path_guard.rs). */
module GatePaths {
  import opened Common
  import opened Pages
  import opened WriteGate
  import opened WriteRuns
  import Text

  /** A name that leads to one entry of the directory it is used in, and to no other directory. */
  predicate Proper(name: string) {
    name != "" && name != "." && '/' !in name && '\0' !in name && !Text.Occurs(name, "..")
  }

  lemma DotsStepByStep(s: string)
    requires s != ""
    ensures HasDots(s) <==> ".." <= s || HasDots(s[1..])
  {
    if HasDots(s) {
      var i :| 0 <= i < |s| - 1 && s[i] == '.' && s[i + 1] == '.';
      assert i > 0 ==> s[1..][i - 1] == '.' && s[1..][i - 1 + 1] == '.';
      assert i == 0 ==> s[..2] == "..";
    }
    if ".." <= s {
      assert s[0] == ".."[0] && s[0 + 1] == ".."[1];
    } else if HasDots(s[1..]) {
      var i :| 0 <= i < |s[1..]| - 1 && s[1..][i] == '.' && s[1..][i + 1] == '.';
      assert s[i + 1] == '.' && s[i + 1 + 1] == '.';
    }
  }

  lemma {:induction false} DotsOccur(s: string)
    ensures HasDots(s) <==> Text.Occurs(s, "..")
  {
    if s != "" {
      DotsStepByStep(s);
      DotsOccur(s[1..]);
    }
  }

  lemma NoDotsInPart(s: string, i: nat, j: nat)
    requires i <= j <= |s| && !HasDots(s)
    ensures !HasDots(s[i..j])
  {
    forall k | 0 <= k < j - i - 1
      ensures !(s[i..j][k] == '.' && s[i..j][k + 1] == '.')
    {
      assert s[i..j][k] == s[i + k] && s[i..j][k + 1] == s[i + k + 1];
    }
  }

  lemma ComponentIsProper(name: string)
    requires '/' !in name && '\0' !in name && !HasDots(name)
    ensures forall k :: 0 <= k < |Component(name)| ==> Proper(Component(name)[k])
  {
    DotsOccur(name);
  }

  lemma {:induction false} ComponentsAreProper(rel: string)
    requires '\0' !in rel && !HasDots(rel)
    ensures forall k :: 0 <= k < |Components(rel)| ==> Proper(Components(rel)[k])
    decreases |rel|
  {
    var i := Text.IndexOf(rel, '/');
    if i == |rel| {
      ComponentIsProper(rel);
    } else {
      assert rel[..i] == rel[0..i] && rel[i + 1..] == rel[i + 1..|rel|];
      NoDotsInPart(rel, 0, i);
      NoDotsInPart(rel, i + 1, |rel|);
      ComponentIsProper(rel[..i]);
      ComponentsAreProper(rel[i + 1..]);
    }
  }

  predicate Inside(path: Path) { path != [] && forall k :: 0 <= k < |path| ==> Proper(path[k]) }

  lemma GuardedIsInside(dirs: set<Path>, files: map<Path, string>, pageType: string, slug: string)
    requires Guard(dirs, files, pageType, slug).Ok?
    ensures Inside(Guard(dirs, files, pageType, slug).value)
  {
    ComponentsAreProper(Relative(pageType, slug));
  }

  lemma WriteStaysInside(t: Tools, q: Quota, v: Vault, w: PageWrite, stop: Stop, path: Path)
    requires path in v.files ==> Inside(path)
    ensures path in Written(t, q, v, w, stop).0.files ==> Inside(path)
  {
    var dirs := Dirs(v, w.pageType);
    if Guard(dirs, v.files, w.pageType, w.slug).Ok? {
      GuardedIsInside(dirs, v.files, w.pageType, w.slug);
    }
  }

  /** Whatever slugs it is given, the gate creates files below the vault's root only, by names that each lead one
      directory down. */
  lemma {:induction false} FilesStayInside(t: Tools, q: Quota, acts: seq<Action>, path: Path)
    requires path in Run(t, q, acts).files
    ensures Inside(path)
  {
    var v := Run(t, q, acts);
    if acts != [] {
      var before, a := acts[..|acts| - 1], acts[|acts| - 1];
      if path in Run(t, q, before).files {
        FilesStayInside(t, q, before, path);
      }
      if a.Write? {
        WriteStaysInside(t, q, Run(t, q, before), a.w, a.stop, path);
      }
    }
  }

  /** A slug that names a file by itself. One that ends in a dot does not, as ".md" follows it. */
  predicate Fileable(slug: string) { '/' !in slug && '\0' !in slug && !Text.Occurs(slug + ".md", "..") }

  /** It is filed under its own name: in the folder of its type, if that has one. */
  lemma FiledUnderItsName(pageType: string, slug: string)
    requires Fileable(slug)
    ensures PathOf(pageType, slug)
         == match pageType
            case "entity" => ["entities", slug + ".md"]
            case "concept" => ["concepts", slug + ".md"]
            case "source" => ["sources", slug + ".md"]
            case _ => [slug + ".md"]
  {
    PathOfPlain(Key(pageType, slug));
  }

  lemma DotsBelow(folder: string, s: string)
    requires '.' !in folder
    ensures HasDots(folder + "/" + s) <==> HasDots(s)
  {
    var all := folder + "/" + s;
    assert forall k :: 0 <= k < |s| ==> all[|folder| + 1 + k] == s[k];
    if HasDots(s) {
      var i :| 0 <= i < |s| - 1 && s[i] == '.' && s[i + 1] == '.';
      assert all[|folder| + 1 + i] == '.' && all[|folder| + 1 + i + 1] == '.';
    }
    if HasDots(all) {
      var i :| 0 <= i < |all| - 1 && all[i] == '.' && all[i + 1] == '.';
      assert i > |folder|;
      assert s[i - |folder| - 1] == '.' && s[i - |folder|] == '.';
    }
  }

  lemma FileableIsLegal(pageType: string, slug: string)
    requires Fileable(slug)
    ensures var rel := Relative(pageType, slug);
            '\0' !in rel && !HasDots(rel) && rel[0] != '/'
  {
    DotsOccur(slug + ".md");
    assert (slug + ".md")[|slug|] == '.';
    if Folder(pageType) != "" {
      DotsBelow(Folder(pageType), slug + ".md");
      assert Folder(pageType) + "/" + slug + ".md" == Folder(pageType) + "/" + (slug + ".md");
    }
  }

  lemma FileableIsGuarded(v: Vault, pageType: string, slug: string)
    requires Fileable(slug)
    ensures Guard(Dirs(v, pageType), v.files, pageType, slug)
         == if Oversized(v, PathOf(pageType, slug)) then Err(TooBig) else Ok(PathOf(pageType, slug))
  {
    FileableIsLegal(pageType, slug);
    PathOfPlain(Key(pageType, slug));
    var path := PathOf(pageType, slug);
    assert path[..|path| - 1] == if Folder(pageType) == "" then [] else [Folder(pageType)];
  }

  /** The numbers of the pages that are not deleted. */
  function LiveIds(pages: seq<Page>): set<nat> { set i | 0 <= i < |pages| && !pages[i].deleted }

  lemma {:induction false} LiveIdsCounted(pages: seq<Page>)
    ensures LivePages(pages) == |LiveIds(pages)|
  {
    if pages != [] {
      var n := |pages| - 1;
      LiveIdsCounted(pages[..n]);
      assert LiveIds(pages) == if pages[n].deleted then LiveIds(pages[..n]) else LiveIds(pages[..n]) + {n};
    }
  }

  /** A page of a known type whose slug names a file is written exactly if there is room for one page more, and for
      its characters besides those of all the live pages (its own row's former ones included), if the file it
      replaces is not oversized, and if the process lives. */
  lemma WrittenExactlyIf(t: Tools, q: Quota, v: Vault, w: PageWrite, stop: Stop)
    requires Fileable(w.slug) && w.pageType in PAGE_TYPES
    ensures Written(t, q, v, w, stop).1.Ok? <==>
              && |LiveIds(v.pages)| + 1 <= q.maxPages
              && LiveChars(v.pages) + Min(|t.sanitize(w.body)|, 2147483647) <= q.maxBytes
              && !Oversized(v, PathOf(w.pageType, w.slug)) && stop.Nowhere?
  {
    LiveIdsCounted(v.pages);
    FileableIsGuarded(v, w.pageType, w.slug);
  }

  /** Otherwise the first of these conditions that fails is the refusal's reason. */
  lemma RefusedFor(t: Tools, q: Quota, v: Vault, w: PageWrite, stop: Stop)
    requires Fileable(w.slug) && Written(t, q, v, w, stop).1.Err?
    ensures match Written(t, q, v, w, stop).1.error
            case OverQuota =>
              |LiveIds(v.pages)| >= q.maxPages
              || LiveChars(v.pages) + Min(|t.sanitize(w.body)|, 2147483647) > q.maxBytes
            case TooBig => Oversized(v, PathOf(w.pageType, w.slug))
            case Crashed => !stop.Nowhere?
            case Database => w.pageType !in PAGE_TYPES
            case _ => false
  {
    LiveIdsCounted(v.pages);
    FileableIsGuarded(v, w.pageType, w.slug);
  }
}
