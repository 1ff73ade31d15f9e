/** How the builder decides: directories from paths, their order, clusters in a row, children lists. */
module EspPlan {
  import opened Wrappers
  import opened Arithmetic
  import opened Bytes
  import opened Fat16
  import opened EspImage

  // ---------------------------------------------------------------- the input

  /** The proper, non-empty prefixes of the file paths. */
  ghost function DirsOf(keys: set<Path>): set<Path> {
    set p, i | p in keys && 0 < i < |p| :: p[..i]
  }

  /** A path as it is split at its slashes, those at its ends stripped: folders, then a file. */
  ghost predicate IsFilePath(p: Path) {
    && p != [] && Last(p).File? && p[0].name != "" && Last(p).name != ""
    && forall i :: 0 <= i < |p| ==> '/' !in p[i].name && (i < |p| - 1 ==> p[i].Folder?)
  }

  ghost predicate PathInput(keys: set<Path>) {
    forall p :: p in keys ==> IsFilePath(p)
  }

  /** Every name of the paths prints. */
  ghost predicate Nameable(keys: set<Path>) {
    forall p: Path, i :: p in keys && 0 <= i < |p| ==> Name83(p[i].name).Success?
  }

  /** Every name is upper-case 8.3 in the characters the reader admits. */
  ghost predicate CanonicalNames(keys: set<Path>) {
    forall p: Path, i :: p in keys && 0 <= i < |p| ==> Canonical83(p[i].name)
  }

  /** No file has the names of a folder. */
  ghost predicate Unclashed(keys: set<Path>) {
    forall p, d :: p in keys && d in DirsOf(keys) ==> Names(p) != Names(d)
  }

  /** The limits of the reader's profile, said of the input. */
  ghost predicate InProfile(keys: set<Path>) {
    |keys + DirsOf(keys)| <= MAX_PATHS && forall d :: d in DirsOf(keys) ==> |d| <= MAX_DEPTH
  }

  /** What the reader can find on an image. */
  ghost predicate Readable(keys: set<Path>) {
    CanonicalNames(keys) && Unclashed(keys) && InProfile(keys)
  }

  /** A folder of the input is not one of its files. */
  lemma InputApart(keys: set<Path>)
    requires PathInput(keys)
    ensures keys !! DirsOf(keys)
    ensures forall d :: d in DirsOf(keys) ==> d != [] && Last(d).Folder?
  {
    forall d | d in DirsOf(keys) ensures d != [] && Last(d).Folder? {
      var p, i :| p in keys && 0 < i < |p| && d == p[..i];
      assert IsFilePath(p) && Last(d) == p[i - 1];
    }
  }

  /** The list holds each element of the set once. */
  ghost predicate Lists<T(!new)>(s: seq<T>, elements: set<T>) {
    Distinct(s) && forall x :: x in s <==> x in elements
  }

  method CollectDirs(order: seq<Path>) returns (dirs: set<Path>)
    ensures dirs == DirsOf(set p | p in order)
  {
    dirs := {};
    for k := 0 to |order|
      invariant dirs == DirsOf(set p | p in order[..k])
    {
      var p := order[k];
      ghost var before := dirs;
      var i := 1;
      while i < |p|
        invariant 1 <= i && dirs == before + set j | 0 < j < i && j < |p| :: p[..j]
      {
        dirs := dirs + {p[..i]};
        i := i + 1;
      }
      DirsOfMore(order[..k], p);
      assert order[..k + 1] == order[..k] + [p];
    }
    assert order[..|order|] == order;
  }

  lemma DirsOfMore(paths: seq<Path>, p: Path)
    ensures DirsOf(set q | q in paths + [p]) == DirsOf(set q | q in paths) + set j | 0 < j < |p| :: p[..j]
  {
  }

  // ---------------------------------------------------------------- sorted directories

  predicate LexAtMost(a: string, b: string) {
    a == "" || (b != "" && (a[0] < b[0] || (a[0] == b[0] && LexAtMost(a[1..], b[1..]))))
  }

  /** Shallower directories first, then by text. */
  predicate Before(p: Path, q: Path) {
    |p| < |q| || (|p| == |q| && LexAtMost(Text(p), Text(q)))
  }

  lemma {:induction false} LexTotal(a: string, b: string)
    ensures LexAtMost(a, b) || LexAtMost(b, a)
  {
    if a != "" && b != "" && a[0] == b[0] { LexTotal(a[1..], b[1..]); }
  }

  lemma {:induction false} LexTransitive(a: string, b: string, c: string)
    requires LexAtMost(a, b) && LexAtMost(b, c)
    ensures LexAtMost(a, c)
  {
    if a != "" && a[0] == b[0] == c[0] { LexTransitive(a[1..], b[1..], c[1..]); }
  }

  ghost predicate Ordered(list: seq<Path>) {
    forall i, j :: 0 <= i < j < |list| ==> Before(list[i], list[j])
  }

  lemma InsertKeepsOrder(list: seq<Path>, i: nat, d: Path)
    requires Ordered(list) && i <= |list|
    requires forall k :: 0 <= k < i ==> Before(list[k], d)
    requires i < |list| ==> !Before(list[i], d)
    ensures Ordered(list[..i] + [d] + list[i..])
  {
    hide LexAtMost, Text;
    var after := list[..i] + [d] + list[i..];
    forall k | i <= k < |list| ensures Before(d, list[k]) {
      LexTotal(Text(list[i]), Text(d));
      if k > i {
        assert Before(list[i], list[k]);
        if |d| == |list[i]| == |list[k]| { LexTransitive(Text(d), Text(list[i]), Text(list[k])); }
      }
    }
    forall j, k | 0 <= j < k < |after| ensures Before(after[j], after[k]) {
      if j < i && k > i { assert Before(list[j], list[k - 1]); }
    }
  }

  method SortDirs(dirs: set<Path>) returns (list: seq<Path>)
    ensures Lists(list, dirs) && Ordered(list)
  {
    hide Before;
    list := [];
    var rest := dirs;
    while rest != {}
      invariant rest <= dirs && Lists(list, dirs - rest) && Ordered(list)
    {
      var d :| d in rest;
      var i := 0;
      while i < |list| && Before(list[i], d)
        invariant 0 <= i <= |list| && forall k :: 0 <= k < i ==> Before(list[k], d)
      {
        i := i + 1;
      }
      InsertKeepsOrder(list, i, d);
      InsertLists(list, i, d, dirs - rest);
      list := list[..i] + [d] + list[i..];
      rest := rest - {d};
      assert dirs - rest == dirs - (rest + {d}) + {d};
    }
    assert dirs - {} == dirs;
  }

  lemma InsertLists<T(!new)>(list: seq<T>, i: nat, x: T, elements: set<T>)
    requires Lists(list, elements) && i <= |list| && x !in elements
    ensures Lists(list[..i] + [x] + list[i..], elements + {x})
  {
  }

  // ---------------------------------------------------------------- clusters in a row

  ghost function ClustersNeeded(order: seq<Path>, files: map<Path, seq<Byte>>): nat
    requires forall f :: f in order ==> f in files
  {
    if order == [] then 0
    else ClustersNeeded(order[..|order| - 1], files) + CeilDiv(|files[order[|order| - 1]]|, SECTOR)
  }

  /** Paths hold disjoint stretches of clusters between the first one and `next`; empty files hold none. */
  ghost predicate InRow(clusters: map<Path, nat>, extent: map<Path, nat>, next: nat) {
    && clusters.Keys == extent.Keys
    && (forall p :: p in clusters && extent[p] == 0 ==> clusters[p] == 0)
    && (forall p :: p in clusters && extent[p] > 0 ==> 2 <= clusters[p] && clusters[p] + extent[p] <= next)
    && (forall p, q :: p in clusters && q in clusters && p != q && extent[p] > 0 && extent[q] > 0 ==>
          clusters[p] + extent[p] <= clusters[q] || clusters[q] + extent[q] <= clusters[p])
  }

  lemma ExtendRow(clusters: map<Path, nat>, extent: map<Path, nat>, next: nat, p: Path, n: nat)
    requires InRow(clusters, extent, next) && p !in clusters && next >= 2
    ensures InRow(clusters[p := if n == 0 then 0 else next], extent[p := n], next + n)
  {
  }

  /** The clusters given out so far, with how many each path holds. */
  ghost predicate Given(
    clusters: map<Path, nat>, extent: map<Path, nat>, next: nat, dirs: seq<Path>, done: seq<Path>,
    files: map<Path, seq<Byte>>) {
    && InRow(clusters, extent, next) && next >= 2
    && (forall p :: p in clusters <==> p in dirs || p in done)
    && (forall d :: d in dirs ==> d in extent && extent[d] == 1)
    && (forall f :: f in done ==> f in extent && f in files && extent[f] == CeilDiv(|files[f]|, SECTOR))
  }

  lemma GiveDirectory(
    clusters: map<Path, nat>, extent: map<Path, nat>, next: nat, dirs: seq<Path>, d: Path, files: map<Path, seq<Byte>>)
    requires Given(clusters, extent, next, dirs, [], files) && d !in dirs
    ensures Given(clusters[d := next], extent[d := 1], next + 1, dirs + [d], [], files)
  {
    hide InRow;
    ExtendRow(clusters, extent, next, d, 1);
  }

  lemma GiveFile(
    clusters: map<Path, nat>, extent: map<Path, nat>, next: nat, dirs: seq<Path>, done: seq<Path>, f: Path,
    files: map<Path, seq<Byte>>)
    requires Given(clusters, extent, next, dirs, done, files) && f !in dirs && f !in done && f in files
    ensures var n := CeilDiv(|files[f]|, SECTOR);
      Given(clusters[f := if n == 0 then 0 else next], extent[f := n], next + n, dirs, done + [f], files)
  {
    hide InRow, CeilDiv;
    ExtendRow(clusters, extent, next, f, CeilDiv(|files[f]|, SECTOR));
  }

  lemma OneMoreNeeded(order: seq<Path>, f: Path, files: map<Path, seq<Byte>>)
    requires f in files && forall g :: g in order ==> g in files
    ensures ClustersNeeded(order + [f], files) == ClustersNeeded(order, files) + CeilDiv(|files[f]|, SECTOR)
  {
  }

  method Allocate(dirList: seq<Path>, order: seq<Path>, files: map<Path, seq<Byte>>)
    returns (clusters: map<Path, nat>, sizes: map<Path, nat>, next: nat, ghost extent: map<Path, nat>)
    requires Distinct(dirList) && Distinct(order) && (forall f :: f in order ==> f in files && f !in dirList)
    ensures Given(clusters, extent, next, dirList, order, files)
    ensures next == 2 + |dirList| + ClustersNeeded(order, files)
    ensures sizes.Keys == (set f | f in order)
    ensures forall f :: f in order ==> sizes[f] == CeilDiv(|files[f]|, SECTOR)
  {
    hide InRow, Given, CeilDiv, ClustersNeeded;
    clusters, sizes, next, extent := map[], map[], 2, map[];
    NothingGiven(files);
    for i := 0 to |dirList|
      invariant Given(clusters, extent, next, dirList[..i], [], files) && next == 2 + i
    {
      assert dirList[..i + 1] == dirList[..i] + [dirList[i]];
      GiveDirectory(clusters, extent, next, dirList[..i], dirList[i], files);
      clusters, extent := clusters[dirList[i] := next], extent[dirList[i] := 1];
      next := next + 1;
    }
    assert dirList[..|dirList|] == dirList && order[..0] == [];
    for i := 0 to |order|
      invariant Given(clusters, extent, next, dirList, order[..i], files)
      invariant next == 2 + |dirList| + ClustersNeeded(order[..i], files)
      invariant sizes.Keys == (set f | f in order[..i])
      invariant forall f :: f in order[..i] ==> sizes[f] == CeilDiv(|files[f]|, SECTOR)
    {
      var f := order[i];
      assert order[..i + 1] == order[..i] + [f];
      OneMoreNeeded(order[..i], f, files);
      CeilDivCovers(|files[f]|, SECTOR);
      GiveFile(clusters, extent, next, dirList, order[..i], f, files);
      if |files[f]| == 0 {
        clusters, sizes := clusters[f := 0], sizes[f := 0];
        extent := extent[f := 0];
      } else {
        var n := CeilDiv(|files[f]|, SECTOR);
        clusters, sizes := clusters[f := next], sizes[f := n];
        extent := extent[f := n];
        next := next + n;
      }
    }
    assert order[..|order|] == order;
  }

  lemma NothingGiven(files: map<Path, seq<Byte>>)
    ensures Given(map[], map[], 2, [], [], files) && ClustersNeeded([], files) == 0
  {
  }

  lemma RowIsAllocated(plan: Plan, extent: map<Path, nat>, next: nat)
    requires InRow(plan.start, extent, next) && next <= CLUSTER_COUNT + 2
    requires plan.start.Keys == plan.Items() && forall p :: p in plan.Items() ==> extent[p] == plan.Count(p)
    ensures plan.Allocated()
  {
    hide plan.Count;
  }

  // ---------------------------------------------------------------- children

  predicate NonEmpty(paths: seq<Path>) {
    forall i :: 0 <= i < |paths| ==> paths[i] != []
  }

  /** The paths of the list whose parent is the directory, in list order. */
  function ChildrenIn(paths: seq<Path>, d: Path): seq<Path>
    requires NonEmpty(paths)
  {
    if paths == [] then []
    else
      var last := paths[|paths| - 1];
      ChildrenIn(paths[..|paths| - 1], d) + if Parent(last) == d then [last] else []
  }

  lemma {:induction false} ChildrenAre(paths: seq<Path>, d: Path)
    requires Distinct(paths) && NonEmpty(paths)
    ensures Distinct(ChildrenIn(paths, d))
    ensures forall p :: p in ChildrenIn(paths, d) <==> p in paths && p != [] && Parent(p) == d
  {
    if paths != [] {
      var rest, last := paths[..|paths| - 1], paths[|paths| - 1];
      ChildrenAre(rest, d);
      assert paths == rest + [last] && last !in rest;
    }
  }

  method Children(dirList: seq<Path>, order: seq<Path>, d: Path) returns (kids: seq<Path>)
    requires NonEmpty(dirList) && NonEmpty(order)
    ensures kids == ChildrenIn(dirList, d) + ChildrenIn(order, d)
  {
    kids := [];
    for i := 0 to |dirList|
      invariant kids == ChildrenIn(dirList[..i], d)
    {
      assert dirList[..i + 1][..i] == dirList[..i];
      if Parent(dirList[i]) == d { kids := kids + [dirList[i]]; }
    }
    assert dirList[..|dirList|] == dirList;
    for i := 0 to |order|
      invariant kids == ChildrenIn(dirList, d) + ChildrenIn(order[..i], d)
    {
      assert order[..i + 1][..i] == order[..i];
      if Parent(order[i]) == d { kids := kids + [order[i]]; }
    }
    assert order[..|order|] == order;
  }

  // ---------------------------------------------------------------- the plan

  ghost function PlanOf(
    dirList: seq<Path>, order: seq<Path>, files: map<Path, seq<Byte>>, clusters: map<Path, nat>): Plan
    requires NonEmpty(dirList) && NonEmpty(order)
  {
    var dirs := set d | d in dirList;
    Plan(dirs, files, clusters, map d | d in dirs + {[]} :: ChildrenIn(dirList, d) + ChildrenIn(order, d))
  }

  lemma DirsAreProper(keys: set<Path>)
    requires PathInput(keys)
    ensures forall p :: p in keys + DirsOf(keys) ==> p != [] && (Parent(p) == [] || Parent(p) in DirsOf(keys))
    ensures (forall p :: p in keys ==> p != []) && (forall p :: p in DirsOf(keys) ==> p != [])
  {
    assert forall p :: p in keys ==> IsFilePath(p);
    forall p | p in keys + DirsOf(keys)
      ensures p != [] && (Parent(p) == [] || Parent(p) in DirsOf(keys))
    {
      if p in keys {
        assert p != [] && Parent(p) == p[..|p| - 1];
      } else {
        var q, i :| q in keys && 0 < i < |q| && p == q[..i];
        assert Parent(p) == q[..i - 1];
      }
    }
  }

  /** The last names of files and directories are exactly the names of the paths. */
  lemma NamesOfItems(keys: set<Path>, p: Path)
    requires p in keys + DirsOf(keys) && p != []
    ensures exists q, i :: q in keys && 0 <= i < |q| && q[i] == Last(p)
  {
    if p in keys {
      assert p[|p| - 1] == Last(p);
    } else {
      var q, i :| q in keys && 0 < i < |q| && p == q[..i];
      assert q[i - 1] == Last(p);
    }
  }

  lemma ItemOfName(keys: set<Path>, q: Path, i: nat) returns (p: Path)
    requires q in keys && i < |q|
    ensures p != [] && p in keys + DirsOf(keys) && Last(p) == q[i]
  {
    p := q[..i + 1];
    if i + 1 == |q| { assert p == q; }
  }

  lemma PlanIsCanonical(plan: Plan)
    requires plan.Sound() && plan.dirs == DirsOf(plan.files.Keys) && PathInput(plan.files.Keys)
    requires CanonicalNames(plan.files.Keys) && Unclashed(plan.files.Keys)
    ensures plan.Canonical()
  {
    hide DirsOf, Last, Canonical83, plan.Allocated, PathInput;
    forall p | p in plan.Items() ensures Canonical83(Last(p).name) { NamesOfItems(plan.files.Keys, p); }
    forall p, q | p in plan.Items() && q in plan.Items() && Names(p) == Names(q) ensures p == q {
      NamesDecide(plan.files.Keys, p, q);
    }
  }

  /** The names of a path and whether it ends in a file say which path it is. */
  lemma NamesDecide(keys: set<Path>, p: Path, q: Path)
    requires PathInput(keys) && p in keys + DirsOf(keys) && q in keys + DirsOf(keys) && Names(p) == Names(q)
    requires p in keys <==> q in keys
    ensures p == q
  {
    forall i | 0 <= i < |p| ensures p[i] == q[i] {
      PartOf(keys, p, i);
      PartOf(keys, q, i);
      assert Names(p)[i] == Names(q)[i];
    }
  }

  lemma PartOf(keys: set<Path>, p: Path, i: nat)
    requires PathInput(keys) && p in keys + DirsOf(keys) && i < |p|
    ensures p[i].File? <==> p in keys && i == |p| - 1
  {
    InputApart(keys);
    if p in keys {
      assert IsFilePath(p);
    } else {
      var q, n :| q in keys && 0 < n < |q| && p == q[..n];
      assert IsFilePath(q);
    }
  }

  /** The children lists of the plan make its paths a tree. */
  lemma PlanIsTree(dirList: seq<Path>, order: seq<Path>, files: map<Path, seq<Byte>>, clusters: map<Path, nat>)
    requires PathInput(files.Keys) && Lists(dirList, DirsOf(files.Keys)) && Lists(order, files.Keys)
    ensures NonEmpty(dirList) && NonEmpty(order)
    ensures PlanOf(dirList, order, files, clusters).Tree()
  {
    hide IsFilePath, DirsOf, ChildrenIn;
    InputApart(files.Keys);
    DirsAreProper(files.Keys);
    ListsNonEmpty(dirList, DirsOf(files.Keys));
    ListsNonEmpty(order, files.Keys);
    var plan := PlanOf(dirList, order, files, clusters);
    assert plan.dirs == DirsOf(files.Keys);
    forall d | d in plan.kids
      ensures Lists(plan.kids[d], set p | p in plan.Items() && p != [] && Parent(p) == d)
    {
      KidsAre(dirList, order, d, plan.dirs, files.Keys);
    }
    hide Distinct;
    TreeOf(plan);
  }

  lemma ListsNonEmpty(list: seq<Path>, elements: set<Path>)
    requires Lists(list, elements) && forall p :: p in elements ==> p != []
    ensures NonEmpty(list)
  {
    forall i | 0 <= i < |list| ensures list[i] != [] { assert list[i] in list; }
  }

  lemma KidsAre(dirList: seq<Path>, order: seq<Path>, d: Path, dirs: set<Path>, keys: set<Path>)
    requires Lists(dirList, dirs) && Lists(order, keys) && dirs !! keys
    requires (forall p :: p in dirs ==> p != []) && (forall p :: p in keys ==> p != [])
    ensures NonEmpty(dirList) && NonEmpty(order)
    ensures Lists(ChildrenIn(dirList, d) + ChildrenIn(order, d), set p | p in dirs + keys && p != [] && Parent(p) == d)
  {
    ListsNonEmpty(dirList, dirs);
    ListsNonEmpty(order, keys);
    ChildrenAre(dirList, d);
    ChildrenAre(order, d);
    var a, b := ChildrenIn(dirList, d), ChildrenIn(order, d);
    assert forall p :: p in a ==> p in dirs;
    assert forall p :: p in b ==> p in keys;
    forall i, j | 0 <= i < j < |a + b| ensures (a + b)[i] != (a + b)[j] {
      if i < |a| <= j { assert (a + b)[i] in a && (a + b)[j] in b; }
    }
  }

  lemma TreeOf(plan: Plan)
    requires plan.dirs !! plan.files.Keys && plan.kids.Keys == plan.dirs + {[]}
    requires forall p :: p in plan.Items() ==> p != [] && plan.IsDirectory(Parent(p))
    requires forall d :: d in plan.kids ==> Lists(plan.kids[d], set p | p in plan.Items() && p != [] && Parent(p) == d)
    ensures plan.Tree()
  {
    forall d, k | d in plan.kids && 0 <= k < |plan.kids[d]|
      ensures plan.kids[d][k] in plan.Items() && plan.kids[d][k] != [] && Parent(plan.kids[d][k]) == d
    {
      assert plan.kids[d][k] in plan.kids[d];
    }
  }
}
