/** The documents browser (`src/app/documents/page.tsx`): a flat list of folders linked by
    `parent_id`, the breadcrumb path of the folder being shown, the listing of that folder, and
    the local list updates after create and delete. */
module FolderTree {
  import opened Common
  import opened Records
  import opened Text

  /** One breadcrumb entry; the synthetic root has no id. */
  datatype Crumb = Crumb(id: Option<string>, name: string)

  const Home: Crumb := Crumb(None, "Home")

  function CrumbOf(f: Folder): Crumb {
    Crumb(Some(f.id), f.name)
  }

  /** `folders.find(f => f.id === id)`: the first folder with that id. */
  function Find(fs: seq<Folder>, id: string): (r: Option<Folder>)
    ensures r.Some? ==> r.value in fs && r.value.id == id
    ensures r.None? ==> forall f :: f in fs ==> f.id != id
    decreases |fs|
  {
    if fs == [] then None
    else if fs[0].id == id then Some(fs[0])
    else Find(fs[1..], id)
  }

  /** `find` returns the first folder with the id, whatever folders with that id follow it. */
  lemma {:induction false} FindFirst(fs: seq<Folder>, id: string, i: nat)
    requires i < |fs| && fs[i].id == id
    requires forall j :: 0 <= j < i ==> fs[j].id != id
    ensures Find(fs, id) == Some(fs[i])
    decreases i
  {
    if i > 0 {
      assert fs[0].id != id;
      forall j | 0 <= j < i - 1 ensures fs[1..][j].id != id {
        assert fs[1..][j] == fs[j + 1];
      }
      FindFirst(fs[1..], id, i - 1);
    }
  }

  /** One step of the ancestor walk: from the folder with id `id`, its parent, when the folder is
      listed, its `parent_id` is set, and a folder with that id is listed. */
  function ParentOf(fs: seq<Folder>, id: string): (r: Option<Folder>)
    ensures r.Some? ==> r.value in fs && r.value.id != ""
    ensures r.Some? ==> Find(fs, id).Some? && Find(fs, id).value.parentId == Some(r.value.id)
  {
    match Find(fs, id)
    case None => None
    case Some(f) => if Present(f.parentId) then Find(fs, f.parentId.value) else None
  }

  /** The ancestors of `id`, nearest first, when the walk stops within `fuel` steps; `None`
      when it does not (a cycle in `parent_id` makes the walk go on for ever). */
  function Ancestors(fs: seq<Folder>, id: string, fuel: nat): Option<seq<Folder>>
    decreases fuel
  {
    if fuel == 0 then None
    else
      match ParentOf(fs, id)
      case None => Some([])
      case Some(p) =>
        match Ancestors(fs, p.id, fuel - 1)
        case None => None
        case Some(up) => Some([p] + up)
  }

  /** The walk from `id` terminates: the `parent_id` chain above it has no cycle. */
  ghost predicate WalkEnds(fs: seq<Folder>, id: string) {
    exists fuel: nat :: Ancestors(fs, id, fuel).Some?
  }

  /** The start of the `k`-th step of the walk from `id` along chain `c`. */
  function StepFrom(id: string, c: seq<Folder>, k: nat): string
    requires k <= |c|
  {
    if k == 0 then id else c[k - 1].id
  }

  /** `c` is the walk from `id`: its first entry is the parent of `id`, each further entry is
      the parent of the one before, and the last entry has no listed parent. */
  ghost predicate IsWalk(fs: seq<Folder>, id: string, c: seq<Folder>) {
    && ParentOf(fs, id) == (if c == [] then None else Some(c[0]))
    && (forall k :: 0 <= k < |c| - 1 ==> ParentOf(fs, c[k].id) == Some(c[k + 1]))
    && (c != [] ==> ParentOf(fs, c[|c| - 1].id).None?)
  }

  /** Step `k` of a walk, from wherever the walk stands after `k - 1` steps. */
  lemma WalkStep(fs: seq<Folder>, id: string, c: seq<Folder>, k: nat)
    requires IsWalk(fs, id, c) && k <= |c|
    ensures ParentOf(fs, StepFrom(id, c, k)) == (if k < |c| then Some(c[k]) else None)
  {
    if 0 < k < |c| {
      assert ParentOf(fs, c[k - 1].id) == Some(c[k]);
    }
  }

  lemma {:induction false} AncestorsWalk(fs: seq<Folder>, id: string, fuel: nat)
    requires Ancestors(fs, id, fuel).Some?
    ensures IsWalk(fs, id, Ancestors(fs, id, fuel).value)
    decreases fuel
  {
    var c := Ancestors(fs, id, fuel).value;
    if c != [] {
      var p := ParentOf(fs, id).value;
      AncestorsWalk(fs, p.id, fuel - 1);
      var up := c[1..];
      forall k | 0 <= k < |c| - 1 ensures ParentOf(fs, c[k].id) == Some(c[k + 1]) {
        if k > 0 {
          assert c[k] == up[k - 1];
        }
      }
    }
  }

  /** Once the walk has ended, more fuel changes nothing: the walk from an id is unique. */
  lemma {:induction false} AncestorsUnique(fs: seq<Folder>, id: string, f1: nat, f2: nat)
    requires Ancestors(fs, id, f1).Some? && Ancestors(fs, id, f2).Some?
    ensures Ancestors(fs, id, f1) == Ancestors(fs, id, f2)
    decreases f1
  {
    match ParentOf(fs, id)
    case None =>
    case Some(p) => AncestorsUnique(fs, p.id, f1 - 1, f2 - 1);
  }

  /** The walk from the `k`-th ancestor is the rest of the walk. */
  lemma {:induction false} AncestorsSuffix(fs: seq<Folder>, id: string, fuel: nat, k: nat)
    requires Ancestors(fs, id, fuel).Some? && k < |Ancestors(fs, id, fuel).value|
    ensures fuel >= k + 1
    ensures Ancestors(fs, Ancestors(fs, id, fuel).value[k].id, fuel - k - 1)
            == Some(Ancestors(fs, id, fuel).value[k + 1..])
    decreases k
  {
    var c := Ancestors(fs, id, fuel).value;
    var p := ParentOf(fs, id).value;
    if k > 0 {
      AncestorsSuffix(fs, p.id, fuel - 1, k - 1);
      assert c[1..][k - 1] == c[k] && c[1..][k..] == c[k + 1..];
    }
  }

  /** Under a terminating walk no folder id occurs twice, and the start is not among its
      ancestors. */
  lemma AncestorsDistinct(fs: seq<Folder>, id: string, fuel: nat)
    requires Ancestors(fs, id, fuel).Some?
    ensures forall i, j :: 0 <= i < j < |Ancestors(fs, id, fuel).value| ==>
              Ancestors(fs, id, fuel).value[i].id != Ancestors(fs, id, fuel).value[j].id
    ensures forall j :: 0 <= j < |Ancestors(fs, id, fuel).value| ==>
              Ancestors(fs, id, fuel).value[j].id != id
  {
    var c := Ancestors(fs, id, fuel).value;
    forall i, j | 0 <= i < j < |c| ensures c[i].id != c[j].id {
      AncestorIdsDiffer(fs, id, fuel, i, j);
    }
    forall j | 0 <= j < |c| ensures c[j].id != id {
      AncestorIsNotStart(fs, id, fuel, j);
    }
  }

  lemma AncestorIdsDiffer(fs: seq<Folder>, id: string, fuel: nat, i: nat, j: nat)
    requires Ancestors(fs, id, fuel).Some? && i < j < |Ancestors(fs, id, fuel).value|
    ensures Ancestors(fs, id, fuel).value[i].id != Ancestors(fs, id, fuel).value[j].id
  {
    var c := Ancestors(fs, id, fuel).value;
    AncestorsSuffix(fs, id, fuel, i);
    AncestorsSuffix(fs, id, fuel, j);
    if c[i].id == c[j].id {
      AncestorsUnique(fs, c[i].id, fuel - i - 1, fuel - j - 1);
    }
  }

  lemma AncestorIsNotStart(fs: seq<Folder>, id: string, fuel: nat, j: nat)
    requires Ancestors(fs, id, fuel).Some? && j < |Ancestors(fs, id, fuel).value|
    ensures Ancestors(fs, id, fuel).value[j].id != id
  {
    AncestorsSuffix(fs, id, fuel, j);
    if Ancestors(fs, id, fuel).value[j].id == id {
      AncestorsUnique(fs, id, fuel, fuel - j - 1);
    }
  }

  /** The ancestors of a folder whose walk terminates. */
  ghost function Chain(fs: seq<Folder>, id: string): (c: seq<Folder>)
    requires WalkEnds(fs, id)
    ensures IsWalk(fs, id, c)
    ensures forall i, j :: 0 <= i < j < |c| ==> c[i].id != c[j].id
    ensures forall j :: 0 <= j < |c| ==> c[j].id != id
  {
    var fuel: nat :| Ancestors(fs, id, fuel).Some?;
    AncestorsWalk(fs, id, fuel);
    AncestorsDistinct(fs, id, fuel);
    Ancestors(fs, id, fuel).value
  }

  /** Breadcrumbs of a chain listed nearest first, farthest ancestor first. */
  function RevCrumbs(c: seq<Folder>): (r: seq<Crumb>)
    ensures |r| == |c|
    ensures forall i :: 0 <= i < |c| ==> r[i] == CrumbOf(c[|c| - 1 - i])
    decreases |c|
  {
    if c == [] then [] else [CrumbOf(c[|c| - 1])] + RevCrumbs(c[..|c| - 1])
  }

  /** The breadcrumb path to `folder` given its ancestors `c`: Home, the ancestors from the
      top down, then the folder itself. */
  function Breadcrumbs(folder: Folder, c: seq<Folder>): seq<Crumb> {
    [Home] + RevCrumbs(c) + [CrumbOf(folder)]
  }

  /** Every entry after the first two names, by its id, a listed folder whose `parent_id` is
      the id of the entry before it. */
  ghost predicate ParentLinked(fs: seq<Folder>, path: seq<Crumb>) {
    forall i :: 2 <= i < |path| ==>
      path[i].id.Some? && Find(fs, path[i].id.value).Some?
      && Find(fs, path[i].id.value).value.parentId == path[i - 1].id
  }

  /** Where the entries of a breadcrumb path come from. */
  lemma CrumbsAt(folder: Folder, c: seq<Folder>)
    ensures var path := Breadcrumbs(folder, c);
      && |path| == |c| + 2 && path[0] == Home && path[|c| + 1] == CrumbOf(folder)
      && forall i :: 1 <= i <= |c| ==> path[i] == CrumbOf(c[|c| - i])
  {
    var path := Breadcrumbs(folder, c);
    forall i | 1 <= i <= |c| ensures path[i] == CrumbOf(c[|c| - i]) {
      assert path[i] == RevCrumbs(c)[i - 1];
    }
  }

  /** The path built from a walk links each folder entry to the one before it, and its first
      folder entry is where the walk stopped. */
  lemma WalkLinked(fs: seq<Folder>, target: string, folder: Folder, c: seq<Folder>)
    requires Find(fs, target) == Some(folder)
    requires IsWalk(fs, target, c)
    ensures ParentLinked(fs, Breadcrumbs(folder, c))
    ensures var path := Breadcrumbs(folder, c);
      path[1].id.Some? && ParentOf(fs, path[1].id.value).None?
  {
    CrumbsAt(folder, c);
    ChainLinked(fs, target, folder, c);
    var n := |c|;
    if n > 0 {
      assert Breadcrumbs(folder, c)[1].id == Some(c[n - 1].id);
    }
  }

  /** The path built from a chain of parents links each folder entry to the one before it,
      wherever the chain stops. */
  lemma ChainLinked(fs: seq<Folder>, target: string, folder: Folder, c: seq<Folder>)
    requires Find(fs, target) == Some(folder)
    requires c != [] ==> ParentOf(fs, target) == Some(c[0])
    requires forall k :: 0 <= k < |c| - 1 ==> ParentOf(fs, c[k].id) == Some(c[k + 1])
    ensures ParentLinked(fs, Breadcrumbs(folder, c))
  {
    CrumbsAt(folder, c);
    var path := Breadcrumbs(folder, c);
    var n := |c|;
    forall i | 2 <= i < |path|
      ensures path[i].id.Some? && Find(fs, path[i].id.value).Some?
              && Find(fs, path[i].id.value).value.parentId == path[i - 1].id
    {
      if i == n + 1 {
        assert ParentOf(fs, target) == Some(c[0]);
      } else {
        assert path[i].id == Some(c[n - i].id);
        assert ParentOf(fs, c[n - i].id) == Some(c[n - i + 1]);
      }
    }
  }

  /** The path built from a walk that repeats no id repeats no id. */
  lemma WalkDistinct(target: string, folder: Folder, c: seq<Folder>)
    requires folder.id == target
    requires forall i, j :: 0 <= i < j < |c| ==> c[i].id != c[j].id
    requires forall j :: 0 <= j < |c| ==> c[j].id != target
    ensures var path := Breadcrumbs(folder, c);
      forall i, j :: 0 <= i < j < |path| ==> path[i].id != path[j].id
  {
    CrumbsAt(folder, c);
    var path := Breadcrumbs(folder, c);
    var n := |c|;
    forall i, j | 0 <= i < j < |path| ensures path[i].id != path[j].id {
      if 0 < i && j <= n {
        assert path[i].id == Some(c[n - i].id) && path[j].id == Some(c[n - j].id);
      } else if 0 < i {
        assert path[i].id == Some(c[n - i].id);
      }
    }
  }

  /** The rebuilt path starts at Home, ends at the requested folder, has one entry per ancestor
      plus two, links each entry to its parent, starts its folders at one whose walk stops there
      (no parent id, or a parent that is not listed), and repeats no id. */
  lemma BreadcrumbsSpec(fs: seq<Folder>, target: string, folder: Folder)
    requires Find(fs, target) == Some(folder)
    requires WalkEnds(fs, target)
    ensures var path := Breadcrumbs(folder, Chain(fs, target));
      && path[0] == Home
      && path[|path| - 1] == CrumbOf(folder)
      && |path| == |Chain(fs, target)| + 2
      && ParentLinked(fs, path)
      && path[1].id.Some? && ParentOf(fs, path[1].id.value).None?
      && forall i, j :: 0 <= i < j < |path| ==> path[i].id != path[j].id
  {
    var c := Chain(fs, target);
    CrumbsAt(folder, c);
    WalkLinked(fs, target, folder, c);
    WalkDistinct(target, folder, c);
  }

  lemma RevCrumbsStep(c: seq<Folder>, k: nat)
    requires k < |c|
    ensures RevCrumbs(c[..k + 1]) == [CrumbOf(c[k])] + RevCrumbs(c[..k])
  {
    assert c[..k + 1][..k] == c[..k];
  }

  /** `path.splice(1, 0, x)` on a path that starts at Home. */
  lemma SpliceAfterHome(middle: seq<Crumb>, x: Crumb, last: Crumb)
    ensures var path := [Home] + middle + [last];
      path[..1] + [x] + path[1..] == [Home] + ([x] + middle) + [last]
  {
    var path := [Home] + middle + [last];
    assert path[..1] == [Home];
    assert path[1..] == middle + [last];
  }

  /** The same walk run as the loop of the page: start from the folder, and while the current id
      is set, look up the current folder and put its parent right after Home. */
  method BuildPath(fs: seq<Folder>, target: string, folder: Folder) returns (path: seq<Crumb>)
    requires target != ""
    requires Find(fs, target) == Some(folder)
    requires WalkEnds(fs, target)
    ensures path == Breadcrumbs(folder, Chain(fs, target))
  {
    ghost var c := Chain(fs, target);
    path := [Home, CrumbOf(folder)];
    var current: Option<string> := Some(target);
    ghost var k: nat := 0;
    while Present(current)
      invariant k <= |c|
      invariant path == [Home] + RevCrumbs(c[..k]) + [CrumbOf(folder)]
      invariant current.Some? ==> current.value == StepFrom(target, c, k) && current.value != ""
      invariant current.None? ==> k == |c|
      decreases |c| - k + (if current.Some? then 1 else 0)
    {
      ghost var next := ParentOf(fs, current.value);
      WalkStep(fs, target, c, k);
      var currentFolder := Find(fs, current.value);
      if currentFolder.Some? && Present(currentFolder.value.parentId) {
        var parentFolder := Find(fs, currentFolder.value.parentId.value);
        if parentFolder.Some? {
          assert parentFolder == next;
          RevCrumbsStep(c, k);
          SpliceAfterHome(RevCrumbs(c[..k]), CrumbOf(parentFolder.value), CrumbOf(folder));
          path := path[..1] + [CrumbOf(parentFolder.value)] + path[1..];
          current := Some(parentFolder.value.id);
          k := k + 1;
        } else {
          current := None;
        }
      } else {
        current := None;
      }
    }
    assert c[..k] == c;
  }

  /** A folder that is its own parent. */
  const SelfParent: seq<Folder> := [Folder("a", "A", Some("a"), 0)]

  /** As written, the walk from a folder that is its own parent never stops, however many steps
      it is given: the page's `while (currentFolderId)` loop runs for ever. */
  lemma {:induction false} SelfParentWalkNeverStops(fuel: nat)
    ensures Ancestors(SelfParent, "a", fuel).None?
    decreases fuel
  {
    if fuel > 0 {
      assert ParentOf(SelfParent, "a") == Some(SelfParent[0]);
      SelfParentWalkNeverStops(fuel - 1);
    }
  }

  lemma SelfParentNeverEnds()
    ensures !WalkEnds(SelfParent, "a")
  {
    forall fuel: nat ensures Ancestors(SelfParent, "a", fuel).None? {
      SelfParentWalkNeverStops(fuel);
    }
  }

  /** The ids of the listed folders. */
  function FolderIds(fs: seq<Folder>): set<string> {
    set f | f in fs :: f.id
  }

  /** The corrected walk: the page's walk, stopped before a folder already on the path (`seen`),
      so a `parent_id` cycle ends the walk. */
  function GuardedWalk(fs: seq<Folder>, id: string, seen: set<string>): seq<Folder>
    decreases |FolderIds(fs) - seen|
  {
    match ParentOf(fs, id)
    case None => []
    case Some(p) =>
      if p.id in seen then []
      else
        assert p.id in FolderIds(fs);
        assert FolderIds(fs) - seen == (FolderIds(fs) - (seen + {p.id})) + {p.id};
        [p] + GuardedWalk(fs, p.id, seen + {p.id})
  }

  /** The guarded walk follows `parent_id` links, stops only at a folder without a listed parent
      or before one already seen, and repeats no id. */
  lemma {:induction false} GuardedWalkSpec(fs: seq<Folder>, id: string, seen: set<string>)
    ensures var c := GuardedWalk(fs, id, seen);
      && (forall k :: 0 <= k < |c| ==> c[k].id !in seen)
      && (forall i, j :: 0 <= i < j < |c| ==> c[i].id != c[j].id)
      && (c != [] ==> ParentOf(fs, id) == Some(c[0]))
      && (c == [] ==> ParentOf(fs, id).None? || ParentOf(fs, id).value.id in seen)
      && (forall k :: 0 <= k < |c| - 1 ==> ParentOf(fs, c[k].id) == Some(c[k + 1]))
    decreases |FolderIds(fs) - seen|
  {
    var c := GuardedWalk(fs, id, seen);
    if c != [] {
      var p := ParentOf(fs, id).value;
      var seen' := seen + {p.id};
      assert p.id in FolderIds(fs);
      assert FolderIds(fs) - seen == (FolderIds(fs) - seen') + {p.id};
      GuardedWalkSpec(fs, p.id, seen');
      var up := GuardedWalk(fs, p.id, seen');
      assert c == [p] + up;
      forall k | 0 <= k < |c| ensures c[k].id !in seen {
        if k > 0 { assert c[k] == up[k - 1]; }
      }
      forall i, j | 0 <= i < j < |c| ensures c[i].id != c[j].id {
        assert c[j] == up[j - 1];
        if i > 0 { assert c[i] == up[i - 1]; }
      }
      forall k | 0 <= k < |c| - 1 ensures ParentOf(fs, c[k].id) == Some(c[k + 1]) {
        assert c[k + 1] == up[k];
        if k > 0 { assert c[k] == up[k - 1]; }
      }
    }
  }

  /** On a walk that stops by itself and repeats no id of `seen`, the guard never fires. */
  lemma {:induction false} GuardedWalkIsWalk(fs: seq<Folder>, id: string, seen: set<string>, c: seq<Folder>)
    requires IsWalk(fs, id, c)
    requires forall i, j :: 0 <= i < j < |c| ==> c[i].id != c[j].id
    requires forall k :: 0 <= k < |c| ==> c[k].id !in seen
    ensures GuardedWalk(fs, id, seen) == c
    decreases |c|
  {
    if c != [] {
      var p := c[0];
      var up := c[1..];
      assert IsWalk(fs, p.id, up) by {
        if up != [] {
          assert ParentOf(fs, c[0].id) == Some(c[1]);
          forall k | 0 <= k < |up| - 1 ensures ParentOf(fs, up[k].id) == Some(up[k + 1]) {
            assert ParentOf(fs, c[k + 1].id) == Some(c[k + 2]);
          }
          assert up[|up| - 1] == c[|c| - 1];
        }
      }
      forall k | 0 <= k < |up| ensures up[k].id !in seen + {p.id} {
        assert up[k] == c[k + 1];
      }
      GuardedWalkIsWalk(fs, p.id, seen + {p.id}, up);
    }
  }

  /** The corrected breadcrumbs: Home, the guarded ancestors from the top down, the folder. */
  function GuardedBreadcrumbs(fs: seq<Folder>, target: string, folder: Folder): seq<Crumb> {
    Breadcrumbs(folder, GuardedWalk(fs, target, {target}))
  }

  /** For every folder list, cycles included, the corrected path starts at Home, ends at the
      requested folder, links each entry to its parent and repeats no id; where the page's walk
      stops by itself, it is the page's path. */
  lemma GuardedBreadcrumbsSpec(fs: seq<Folder>, target: string, folder: Folder)
    requires Find(fs, target) == Some(folder)
    ensures var path := GuardedBreadcrumbs(fs, target, folder);
      && path[0] == Home
      && path[|path| - 1] == CrumbOf(folder)
      && ParentLinked(fs, path)
      && (forall i, j :: 0 <= i < j < |path| ==> path[i].id != path[j].id)
      && (WalkEnds(fs, target) ==> path == Breadcrumbs(folder, Chain(fs, target)))
  {
    var c := GuardedWalk(fs, target, {target});
    GuardedWalkSpec(fs, target, {target});
    CrumbsAt(folder, c);
    ChainLinked(fs, target, folder, c);
    WalkDistinct(target, folder, c);
    if WalkEnds(fs, target) {
      GuardedWalkIsWalk(fs, target, {target}, Chain(fs, target));
    }
  }

  /** An entry of the listing. */
  datatype Item = FolderItem(folder: Folder) | DocItem(doc: Document)

  function FolderItems(fs: seq<Folder>): (r: seq<Item>)
    ensures |r| == |fs|
    ensures forall i :: 0 <= i < |fs| ==> r[i] == FolderItem(fs[i])
  {
    seq(|fs|, i requires 0 <= i < |fs| => FolderItem(fs[i]))
  }

  function DocItems(ds: seq<Document>): (r: seq<Item>)
    ensures |r| == |ds|
    ensures forall i :: 0 <= i < |ds| ==> r[i] == DocItem(ds[i])
  {
    seq(|ds|, i requires 0 <= i < |ds| => DocItem(ds[i]))
  }

  /** Search matching on lower-cased names (ASCII case folding only). */
  predicate FolderMatches(f: Folder, term: string) {
    Includes(Lower(f.name), Lower(term))
  }

  predicate DocMatches(d: Document, term: string) {
    Includes(Lower(d.title), Lower(term))
    || (Present(d.folderName) && Includes(Lower(d.folderName.value), Lower(term)))
  }

  /** The id of the folder being shown: none at the root. */
  function CurrentId(path: seq<Crumb>): Option<string>
    requires |path| >= 1
  {
    if |path| == 1 then None else path[|path| - 1].id
  }

  /** The listing effect: search results when a term is typed, otherwise the children of the
      current folder; folders before documents. */
  function Listing(folders: seq<Folder>, docs: seq<Document>, term: string, path: seq<Crumb>): seq<Item>
    requires |path| >= 1
  {
    if term != "" then
      FolderItems(Filter(folders, (f: Folder) => FolderMatches(f, term)))
      + DocItems(Filter(docs, (d: Document) => DocMatches(d, term)))
    else
      var here := CurrentId(path);
      FolderItems(Filter(folders, (f: Folder) => f.parentId == here))
      + DocItems(Filter(docs, (d: Document) => d.folderId == here))
  }

  /** Without a search term the listing holds exactly the folders whose parent is the current
      folder and the documents filed in it (at the root: those with no parent and no folder),
      and every folder precedes every document. */
  lemma ListingSpec(folders: seq<Folder>, docs: seq<Document>, path: seq<Crumb>)
    requires |path| >= 1
    ensures forall f :: FolderItem(f) in Listing(folders, docs, "", path)
              <==> f in folders && f.parentId == CurrentId(path)
    ensures forall d :: DocItem(d) in Listing(folders, docs, "", path)
              <==> d in docs && d.folderId == CurrentId(path)
    ensures FoldersFirst(Listing(folders, docs, "", path))
  {
    var here := CurrentId(path);
    var fp := (f: Folder) => f.parentId == here;
    var dp := (d: Document) => d.folderId == here;
    var fl := Filter(folders, fp);
    var dl := Filter(docs, dp);
    forall f ensures FolderItem(f) in Listing(folders, docs, "", path) <==> f in folders && f.parentId == here {
      FilterMembership(folders, fp, f);
      ItemsMembership(fl, dl);
    }
    forall d ensures DocItem(d) in Listing(folders, docs, "", path) <==> d in docs && d.folderId == here {
      FilterMembership(docs, dp, d);
      ItemsMembership(fl, dl);
    }
    ItemsMembership(fl, dl);
  }

  /** Folder entries followed by document entries: each record is listed exactly when it is in
      its part, and the folders come first. */
  lemma ItemsMembership(fl: seq<Folder>, dl: seq<Document>)
    ensures forall f :: FolderItem(f) in FolderItems(fl) + DocItems(dl) <==> f in fl
    ensures forall d :: DocItem(d) in FolderItems(fl) + DocItems(dl) <==> d in dl
    ensures FoldersFirst(FolderItems(fl) + DocItems(dl))
  {
    var l := FolderItems(fl) + DocItems(dl);
    forall f ensures FolderItem(f) in l <==> f in fl {
      if FolderItem(f) in l {
        var i :| 0 <= i < |l| && l[i] == FolderItem(f);
        assert fl[i] == f;
      } else {
        assert forall i :: 0 <= i < |fl| ==> l[i] == FolderItem(fl[i]);
      }
    }
    forall d ensures DocItem(d) in l <==> d in dl {
      if DocItem(d) in l {
        var i :| 0 <= i < |l| && l[i] == DocItem(d);
        assert dl[i - |fl|] == d;
      } else {
        assert forall i :: 0 <= i < |dl| ==> l[|fl| + i] == DocItem(dl[i]);
      }
    }
  }

  /** Every folder entry comes before every document entry. */
  predicate FoldersFirst(items: seq<Item>) {
    forall i, j :: 0 <= i < j < |items| && items[j].FolderItem? ==> items[i].FolderItem?
  }

  /** The render's `sort` (folders first, otherwise stable): the folder entries in order, then
      the document entries in order. */
  function SortFoldersFirst(items: seq<Item>): seq<Item> {
    Filter(items, (it: Item) => it.FolderItem?) + Filter(items, (it: Item) => it.DocItem?)
  }

  /** On a listing, which already has folders first, the render's sort changes nothing. */
  lemma {:induction false} SortKeepsFoldersFirst(items: seq<Item>)
    requires FoldersFirst(items)
    ensures SortFoldersFirst(items) == items
    decreases |items|
  {
    var isF := (it: Item) => it.FolderItem?;
    var isD := (it: Item) => it.DocItem?;
    if items != [] {
      if items[0].FolderItem? {
        SortKeepsFoldersFirst(items[1..]);
        assert SortFoldersFirst(items) == [items[0]] + SortFoldersFirst(items[1..]);
        assert [items[0]] + items[1..] == items;
      } else {
        // a document first means no folder at all
        FilterNone(items, isF);
        FilterAll(items, isD);
      }
    }
  }

  lemma {:induction false} FilterNone<T>(xs: seq<T>, p: T -> bool)
    requires forall i :: 0 <= i < |xs| ==> !p(xs[i])
    ensures Filter(xs, p) == []
    decreases |xs|
  {
    if xs != [] {
      FilterNone(xs[1..], p);
    }
  }

  /** `folders.filter(f => f.id !== id)`. */
  function WithoutFolder(fs: seq<Folder>, id: string): seq<Folder> {
    Filter(fs, (f: Folder) => f.id != id)
  }

  /** `documents.filter(d => d.id !== id)`. */
  function WithoutDocument(ds: seq<Document>, id: string): seq<Document> {
    Filter(ds, (d: Document) => d.id != id)
  }

  /** `documents.filter(d => d.folder_id !== id)`. */
  function OutsideFolder(ds: seq<Document>, id: string): seq<Document> {
    Filter(ds, (d: Document) => d.folderId != Some(id))
  }

  /** Deleting removes exactly the records named, and keeps the others in their order: the
      removal of a concatenation is the concatenation of the removals. */
  lemma DeleteSpec(fs: seq<Folder>, ds: seq<Document>, id: string, fs2: seq<Folder>, ds2: seq<Document>)
    ensures forall f :: f in WithoutFolder(fs, id) <==> f in fs && f.id != id
    ensures forall d :: d in WithoutDocument(ds, id) <==> d in ds && d.id != id
    ensures forall d :: d in OutsideFolder(ds, id) <==> d in ds && d.folderId != Some(id)
    ensures WithoutFolder(fs + fs2, id) == WithoutFolder(fs, id) + WithoutFolder(fs2, id)
    ensures WithoutDocument(ds + ds2, id) == WithoutDocument(ds, id) + WithoutDocument(ds2, id)
    ensures OutsideFolder(ds + ds2, id) == OutsideFolder(ds, id) + OutsideFolder(ds2, id)
  {
    var pf := (f: Folder) => f.id != id;
    var pd := (d: Document) => d.id != id;
    var po := (d: Document) => d.folderId != Some(id);
    forall f ensures f in WithoutFolder(fs, id) <==> f in fs && f.id != id {
      FilterMembership(fs, pf, f);
    }
    forall d ensures d in WithoutDocument(ds, id) <==> d in ds && d.id != id {
      FilterMembership(ds, pd, d);
    }
    forall d ensures d in OutsideFolder(ds, id) <==> d in ds && d.folderId != Some(id) {
      FilterMembership(ds, po, d);
    }
    FilterAppend(fs, fs2, pf);
    FilterAppend(ds, ds2, pd);
    FilterAppend(ds, ds2, po);
  }

  /** `toggleFolder`: flip membership of one id. */
  function Toggled(s: set<Option<string>>, id: string): (r: set<Option<string>>)
    ensures forall x :: x in r <==> (if x == Some(id) then x !in s else x in s)
  {
    if Some(id) in s then s - {Some(id)} else s + {Some(id)}
  }

  /** Toggling the same folder twice restores the expanded set. */
  lemma ToggleTwice(s: set<Option<string>>, id: string)
    ensures Toggled(Toggled(s, id), id) == s
  {
  }

  /** The parent a new folder is created under: the folder being shown, none at the root
      (`currentFolderId || undefined`). */
  function NewFolderParent(path: seq<Crumb>): Option<string>
    requires |path| >= 1
  {
    if |path| > 1 && Present(path[|path| - 1].id) then path[|path| - 1].id else None
  }

  /** The body of the create request. */
  datatype FolderDraft = FolderDraft(name: string, parentId: Option<string>)

  class DocumentsPage {
    var initialFolderId: Option<string>
    var folders: seq<Folder>
    var documents: seq<Document>
    var filteredItems: seq<Item>
    var searchTerm: string
    var createDialogOpen: bool
    var newFolderName: string
    var expandedFolders: set<Option<string>>
    var currentPath: seq<Crumb>

    /** The path is never empty and always starts at Home. */
    ghost predicate Valid()
      reads this
    {
      |currentPath| >= 1 && currentPath[0] == Home
    }

    /** The initial state; `folder` is the `?folder=` query parameter, if any. */
    constructor (folder: Option<string>)
      ensures Valid()
      ensures initialFolderId == folder
      ensures folders == [] && documents == [] && filteredItems == []
      ensures searchTerm == "" && newFolderName == "" && !createDialogOpen
      ensures expandedFolders == {None} && currentPath == [Home]
    {
      initialFolderId := folder;
      folders, documents, filteredItems := [], [], [];
      searchTerm, newFolderName, createDialogOpen := "", "", false;
      expandedFolders := {None};
      currentPath := [Home];
    }

    /** `fetchData`: both lists replaced on success, nothing changed on failure. */
    method Load(reply: Result<(seq<Folder>, seq<Document>)>)
      modifies this`folders, this`documents
      ensures reply.Ok? ==> folders == reply.value.0 && documents == reply.value.1
      ensures reply.Err? ==> folders == old(folders) && documents == old(documents)
    {
      if reply.Ok? {
        folders := reply.value.0;
        documents := reply.value.1;
      }
    }

    /** The effect that opens the folder named in the URL: when the id is set and listed, the
        path becomes its breadcrumbs; otherwise the path is left as it was. The walk loops for
        ever on a `parent_id` cycle, so the caller must supply folders whose walk ends. */
    method OpenInitialFolder()
      requires Valid()
      requires Present(initialFolderId) && Find(folders, initialFolderId.value).Some?
               ==> WalkEnds(folders, initialFolderId.value)
      modifies this`currentPath
      ensures Valid()
      ensures Present(initialFolderId) && Find(folders, initialFolderId.value).Some? ==>
                currentPath == Breadcrumbs(Find(folders, initialFolderId.value).value,
                                           Chain(folders, initialFolderId.value))
      ensures !(Present(initialFolderId) && Find(folders, initialFolderId.value).Some?) ==>
                currentPath == old(currentPath)
    {
      if Present(initialFolderId) {
        var folder := Find(folders, initialFolderId.value);
        if folder.Some? {
          currentPath := BuildPath(folders, initialFolderId.value, folder.value);
        }
      }
    }

    /** The listing effect. */
    method RefreshListing()
      requires Valid()
      modifies this`filteredItems
      ensures filteredItems == Listing(folders, documents, searchTerm, currentPath)
    {
      filteredItems := Listing(folders, documents, searchTerm, currentPath);
    }

    /** The in-place sort the render applies to the listing. */
    method SortListing()
      modifies this`filteredItems
      ensures filteredItems == SortFoldersFirst(old(filteredItems))
    {
      filteredItems := SortFoldersFirst(filteredItems);
    }

    /** `handleCreateFolder`: nothing for a blank name; otherwise the request goes out with the
        name as typed and the current folder as parent, and on success the created folder is
        appended, the name cleared and the dialog closed. */
    method CreateFolder(reply: Result<Folder>) returns (sent: Option<FolderDraft>)
      requires Valid()
      modifies this`folders, this`newFolderName, this`createDialogOpen
      ensures Trim(old(newFolderName)) == "" ==> sent.None?
      ensures Trim(old(newFolderName)) != "" ==>
                sent == Some(FolderDraft(old(newFolderName), NewFolderParent(currentPath)))
      ensures sent.Some? && reply.Ok? ==>
                folders == old(folders) + [reply.value] && newFolderName == "" && !createDialogOpen
      ensures sent.None? || reply.Err? ==>
                folders == old(folders) && newFolderName == old(newFolderName)
                && createDialogOpen == old(createDialogOpen)
    {
      if Trim(newFolderName) == "" {
        return None;
      }
      sent := Some(FolderDraft(newFolderName, NewFolderParent(currentPath)));
      if reply.Ok? {
        folders := folders + [reply.value];
        newFolderName := "";
        createDialogOpen := false;
      }
    }

    /** `handleDeleteDocument`: after the server confirms, drop the documents with that id. */
    method DeleteDocument(docId: string, reply: Result<()>)
      modifies this`documents
      ensures reply.Ok? ==> documents == WithoutDocument(old(documents), docId)
      ensures reply.Err? ==> documents == old(documents)
    {
      if reply.Ok? {
        documents := WithoutDocument(documents, docId);
      }
    }

    /** `handleDeleteFolder`: after the server confirms, drop the folder and the documents filed
        directly in it. */
    method DeleteFolder(folderId: string, reply: Result<()>)
      modifies this`folders, this`documents
      ensures reply.Ok? ==> folders == WithoutFolder(old(folders), folderId)
                            && documents == OutsideFolder(old(documents), folderId)
      ensures reply.Err? ==> folders == old(folders) && documents == old(documents)
    {
      if reply.Ok? {
        folders := WithoutFolder(folders, folderId);
        documents := OutsideFolder(documents, folderId);
      }
    }

    /** `navigateToFolder`: back to Home for none, otherwise one step down. */
    method NavigateToFolder(folder: Option<Folder>)
      requires Valid()
      modifies this`currentPath
      ensures Valid()
      ensures folder.None? ==> currentPath == [Home]
      ensures folder.Some? ==> currentPath == old(currentPath) + [CrumbOf(folder.value)]
    {
      if folder.None? {
        currentPath := [Home];
      } else {
        currentPath := currentPath + [CrumbOf(folder.value)];
      }
    }

    /** `navigateToBreadcrumb`: keep the entries up to the one clicked. */
    method NavigateToBreadcrumb(index: nat)
      requires Valid() && index < |currentPath|
      modifies this`currentPath
      ensures Valid()
      ensures currentPath == old(currentPath)[..index + 1]
    {
      if index == 0 {
        currentPath := [Home];
      } else {
        currentPath := currentPath[..index + 1];
      }
    }

    /** `navigateUp`: drop the last entry, never Home itself. */
    method NavigateUp()
      requires Valid()
      modifies this`currentPath
      ensures Valid()
      ensures |old(currentPath)| > 1 ==> currentPath == old(currentPath)[..|old(currentPath)| - 1]
      ensures |old(currentPath)| == 1 ==> currentPath == old(currentPath)
    {
      if |currentPath| > 1 {
        currentPath := currentPath[..|currentPath| - 1];
      }
    }

    method ToggleFolder(folderId: string)
      modifies this`expandedFolders
      ensures expandedFolders == Toggled(old(expandedFolders), folderId)
    {
      expandedFolders := Toggled(expandedFolders, folderId);
    }
  }
}
