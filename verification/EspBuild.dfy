/** The whole builder, and the round trip through the reader. */
module EspBuild {
  import opened Wrappers
  import opened Arithmetic
  import opened Bytes
  import opened Fat16
  import opened EspImage
  import opened EspNames
  import opened EspPlan
  import opened EspBuilder
  import opened EspRoundTrip
  import opened EspFound

  // ---------------------------------------------------------------- regions of the image

  ghost predicate SameOutside(before: seq<Byte>, after: seq<Byte>, at: nat, size: nat) {
    |before| == |after| && forall i :: 0 <= i < |before| && !(at <= i < at + size) ==> after[i] == before[i]
  }

  lemma WindowKept(before: seq<Byte>, after: seq<Byte>, at: nat, size: nat, lo: nat, hi: nat)
    requires SameOutside(before, after, at, size) && lo <= hi <= |before| && (hi <= at || at + size <= lo)
    ensures after[lo..hi] == before[lo..hi]
  {
  }

  /** Everything before the data region is finished. */
  ghost predicate Front(img: seq<Byte>, plan: Plan) {
    && BootSector(img) && plan.Sound() && Linked(img, plan) && plan.IsDirectory([])
    && HoldsDirectory(img[ROOT_OFFSET..DATA_OFFSET], plan, [])
  }

  lemma FrontKept(before: seq<Byte>, after: seq<Byte>, plan: Plan, at: nat, size: nat)
    requires Front(before, plan) && SameOutside(before, after, at, size) && DATA_OFFSET <= at
    ensures Front(after, plan)
  {
    hide plan.Sound, HoldsDirectory, Linked, BootSector;
    BootKept(before, after, plan, at, size);
    WindowKept(before, after, at, size, ROOT_OFFSET, DATA_OFFSET);
    LinkedKept(before, after, plan, at, size);
  }

  lemma BootKept(before: seq<Byte>, after: seq<Byte>, plan: Plan, at: nat, size: nat)
    requires Front(before, plan) && SameOutside(before, after, at, size) && DATA_OFFSET <= at
    ensures BootSector(after) && |after| == |before| == TOTAL
  {
    hide plan.Sound, HoldsDirectory, Linked;
  }

  lemma LinkedKept(before: seq<Byte>, after: seq<Byte>, plan: Plan, at: nat, size: nat)
    requires |before| == |after| == TOTAL && plan.Sound() && Linked(before, plan)
    requires SameOutside(before, after, at, size) && DATA_OFFSET <= at
    ensures Linked(after, plan)
  {
    hide plan.Count, plan.Tree;
    WindowKept(before, after, at, size, FAT_OFFSET, FAT_OFFSET + FAT_BYTES);
    WindowKept(before, after, at, size, FAT_OFFSET + FAT_BYTES, ROOT_OFFSET);
    forall c: nat | c < CLUSTER_COUNT + 2
      ensures Link(after, c) == Link(before, c)
    {
    }
    forall p: Path, c: nat | plan.Owns(p, c)
      ensures c < CLUSTER_COUNT + 2
    {
    }
  }

  /** The directories and files done so far are in place. */
  ghost predicate Done(img: seq<Byte>, plan: Plan, dirs: set<Path>, files: set<Path>) {
    && Front(img, plan) && |img| == TOTAL && plan.Sound() && dirs <= plan.dirs && files <= plan.files.Keys
    && (forall d :: d in dirs ==> DirectoryWritten(img, plan, d))
    && (forall f :: f in files && plan.files[f] != [] ==>
      f in plan.start && plan.start[f] >= 2 && FileWritten(img, plan, f))
  }

  /** The clusters of these directories are still blank. */
  ghost predicate Blank(img: seq<Byte>, plan: Plan, dirs: set<Path>)
    requires |img| == TOTAL
  {
    forall d :: d in dirs ==> d in plan.start && plan.start[d] >= 2 && BlankAt(img, ClusterAt(plan.start[d]))
  }

  ghost predicate BlankAt(img: seq<Byte>, at: nat) {
    at + SECTOR <= |img| && forall i :: at <= i < at + SECTOR ==> img[i] == 0
  }

  lemma BlankAtKept(before: seq<Byte>, after: seq<Byte>, at: nat, size: nat, lo: nat)
    requires SameOutside(before, after, at, size) && BlankAt(before, lo) && (lo + SECTOR <= at || at + size <= lo)
    ensures BlankAt(after, lo)
  {
  }

  /** A path's stretch of the image, inside it and apart from every other path's. */
  lemma Stretch(plan: Plan, p: Path)
    requires plan.Sound() && p in plan.Items() && plan.Count(p) > 0
    ensures p in plan.start && plan.start[p] >= 2
    ensures DATA_OFFSET <= ClusterAt(plan.start[p]) && ClusterAt(plan.start[p]) + plan.Count(p) * SECTOR <= TOTAL
  {
  }

  lemma Apart(plan: Plan, p: Path, q: Path)
    requires plan.Sound() && p in plan.Items() && q in plan.Items() && p != q && plan.Count(p) > 0 && plan.Count(q) > 0
    ensures p in plan.start && q in plan.start && plan.start[p] >= 2 && plan.start[q] >= 2
    ensures ClusterAt(plan.start[p]) + plan.Count(p) * SECTOR <= ClusterAt(plan.start[q])
         || ClusterAt(plan.start[q]) + plan.Count(q) * SECTOR <= ClusterAt(plan.start[p])
  {
    hide plan.Sound, plan.Count, plan.Owns;
    OwnsRun(plan, p);
    OwnsRun(plan, q);
    if plan.start[p] <= plan.start[q] < plan.start[p] + plan.Count(p) {
      OwnersDiffer(plan, p, q, plan.start[q]);
    }
    if plan.start[q] <= plan.start[p] < plan.start[q] + plan.Count(q) {
      OwnersDiffer(plan, p, q, plan.start[p]);
    }
  }

  lemma DirectoryKept(before: seq<Byte>, after: seq<Byte>, plan: Plan, p: Path, size: nat, d: Path)
    requires |before| == TOTAL && plan.Sound() && p in plan.Items() && d in plan.dirs && p != d && plan.Count(p) > 0
    requires p in plan.start && plan.start[p] >= 2 && size <= plan.Count(p) * SECTOR
    requires SameOutside(before, after, ClusterAt(plan.start[p]), size)
    requires DirectoryWritten(before, plan, d)
    ensures DirectoryWritten(after, plan, d)
  {
    hide plan.Sound, HoldsDirectory, SameOutside, plan.Items, plan.Count, ClusterAt;
    ItemOf(plan, d);
    Apart(plan, p, d);
    var lo := ClusterAt(plan.start[d]);
    WindowKept(before, after, ClusterAt(plan.start[p]), size, lo, lo + SECTOR);
    SameLength(before, after, ClusterAt(plan.start[p]), size);
  }

  lemma SameLength(before: seq<Byte>, after: seq<Byte>, at: nat, size: nat)
    requires SameOutside(before, after, at, size)
    ensures |before| == |after|
  {
  }

  lemma ItemOf(plan: Plan, d: Path)
    requires plan.Sound() && d in plan.dirs
    ensures d in plan.Items() && plan.Count(d) == 1 && d in plan.start
  {
  }

  lemma FileItem(plan: Plan, f: Path)
    requires plan.Sound() && f in plan.files
    ensures f in plan.Items() && f !in plan.dirs && f in plan.start
    ensures |plan.files[f]| <= plan.Count(f) * SECTOR && (plan.files[f] != [] <==> plan.Count(f) > 0)
  {
  }

  lemma FileKept(before: seq<Byte>, after: seq<Byte>, plan: Plan, p: Path, size: nat, f: Path)
    requires |before| == TOTAL && plan.Sound() && p in plan.Items() && f in plan.files && p != f && plan.Count(p) > 0
    requires p in plan.start && plan.start[p] >= 2 && size <= plan.Count(p) * SECTOR
    requires SameOutside(before, after, ClusterAt(plan.start[p]), size)
    requires plan.files[f] != [] && f in plan.start && plan.start[f] >= 2 && FileWritten(before, plan, f)
    ensures |after| == TOTAL && FileWritten(after, plan, f)
  {
    hide plan.Sound, SameOutside, plan.Items, plan.Count, ClusterAt;
    FileItem(plan, f);
    Apart(plan, p, f);
    var lo := ClusterAt(plan.start[f]);
    WindowKept(before, after, ClusterAt(plan.start[p]), size, lo, lo + |plan.files[f]|);
    SameLength(before, after, ClusterAt(plan.start[p]), size);
  }

  /** Writing into one path's stretch keeps everything done for other paths. */
  lemma OthersKept(
    before: seq<Byte>, after: seq<Byte>, plan: Plan, p: Path, size: nat, dirs: set<Path>, files: set<Path>)
    requires Done(before, plan, dirs, files) && p in plan.Items() && p !in dirs && p !in files && plan.Count(p) > 0
    requires p in plan.start && plan.start[p] >= 2 && size <= plan.Count(p) * SECTOR
    requires SameOutside(before, after, ClusterAt(plan.start[p]), size)
    ensures Done(after, plan, dirs, files)
  {
    hide plan.Sound, SameOutside, plan.Items, plan.Count, Front, DirectoryWritten, FileWritten, ClusterAt;
    Stretch(plan, p);
    FrontKept(before, after, plan, ClusterAt(plan.start[p]), size);
    SameLength(before, after, ClusterAt(plan.start[p]), size);
    forall d | d in dirs
      ensures DirectoryWritten(after, plan, d)
    {
      DirectoryKept(before, after, plan, p, size, d);
    }
    forall f | f in files && plan.files[f] != []
      ensures f in plan.start && plan.start[f] >= 2 && FileWritten(after, plan, f)
    {
      FileItem(plan, f);
      FileKept(before, after, plan, p, size, f);
    }
  }

  lemma BlankKept(before: seq<Byte>, after: seq<Byte>, plan: Plan, p: Path, size: nat, dirs: set<Path>)
    requires |before| == TOTAL && plan.Sound() && p in plan.Items() && p !in dirs && plan.Count(p) > 0
      && dirs <= plan.dirs
    requires p in plan.start && plan.start[p] >= 2 && size <= plan.Count(p) * SECTOR
    requires SameOutside(before, after, ClusterAt(plan.start[p]), size) && Blank(before, plan, dirs)
    ensures |after| == TOTAL && Blank(after, plan, dirs)
  {
    hide plan.Sound, SameOutside, plan.Items, plan.Count, BlankAt, ClusterAt;
    SameLength(before, after, ClusterAt(plan.start[p]), size);
    forall d | d in dirs
      ensures BlankAt(after, ClusterAt(plan.start[d]))
    {
      ItemOf(plan, d);
      Apart(plan, p, d);
      BlankAtKept(before, after, ClusterAt(plan.start[p]), size, ClusterAt(plan.start[d]));
    }
  }

  // ---------------------------------------------------------------- the builder

  /** The first directory's worth of blank clusters, the finished front, and nothing else done. */
  lemma StartDone(img: seq<Byte>, plan: Plan)
    requires Front(img, plan) && forall i :: DATA_OFFSET <= i < TOTAL ==> img[i] == 0
    ensures Done(img, plan, {}, {}) && Blank(img, plan, plan.dirs)
  {
  }

  lemma DirectoryDone(before: seq<Byte>, after: seq<Byte>, plan: Plan, dirs: set<Path>, d: Path, blank: set<Path>)
    requires Done(before, plan, dirs, {}) && Blank(before, plan, blank) && d in plan.dirs && d !in dirs
      && blank <= plan.dirs
    requires d in plan.start && plan.start[d] >= 2 && SameOutside(before, after, ClusterAt(plan.start[d]), SECTOR)
    requires DirectoryWritten(after, plan, d)
    ensures Done(after, plan, dirs + {d}, {}) && Blank(after, plan, blank - {d})
  {
    hide plan.Sound, SameOutside, plan.Items, plan.Count, Front, DirectoryWritten, FileWritten, ClusterAt, BlankAt;
    ItemOf(plan, d);
    OthersKept(before, after, plan, d, SECTOR, dirs, {});
    BlankKept(before, after, plan, d, SECTOR, blank - {d});
  }

  lemma FileDone(before: seq<Byte>, after: seq<Byte>, plan: Plan, files: set<Path>, f: Path)
    requires Done(before, plan, plan.dirs, files) && f in plan.files && f !in files
    requires f in plan.start && plan.start[f] >= 2 && plan.files[f] != []
    requires ClusterAt(plan.start[f]) + |plan.files[f]| <= |before|
    requires after == Put(before, ClusterAt(plan.start[f]), plan.files[f])
    ensures Done(after, plan, plan.dirs, files + {f})
  {
    hide plan.Sound, plan.Items, plan.Count, Front, DirectoryWritten, ClusterAt;
    FileItem(plan, f);
    OthersKept(before, after, plan, f, |plan.files[f]|, plan.dirs, files);
  }

  lemma EmptyFileDone(img: seq<Byte>, plan: Plan, files: set<Path>, f: Path)
    requires Done(img, plan, plan.dirs, files) && f in plan.files && plan.files[f] == []
    ensures Done(img, plan, plan.dirs, files + {f})
  {
    hide plan.Sound, Front, DirectoryWritten, FileWritten;
  }

  lemma AllDone(img: seq<Byte>, plan: Plan)
    requires Done(img, plan, plan.dirs, plan.files.Keys)
    ensures Printed(img, plan)
  {
  }

  /** The tables copied into the image are linked as the filled table is. */
  lemma TablesLinked(fat: seq<Byte>, img: seq<Byte>, plan: Plan)
    requires |img| == TOTAL && |fat| == FAT_BYTES && plan.Allocated() && Links(fat, plan, plan.Items())
    requires img[FAT_OFFSET..FAT_OFFSET + FAT_BYTES] == fat && img[FAT_OFFSET + FAT_BYTES..ROOT_OFFSET] == fat
    ensures Linked(img, plan)
  {
    hide plan.Count;
    forall c: nat | c < CLUSTER_COUNT + 2
      ensures Link(img, c) == Slot(fat, c)
    {
      U16Window(img, FAT_OFFSET, FAT_OFFSET + FAT_BYTES, 2 * c);
    }
    forall p: Path, c: nat | plan.Owns(p, c)
      ensures p in plan.Items() && c < CLUSTER_COUNT + 2 && Slot(fat, c) == LinkOf(plan, p, c)
    {
    }
  }

  /** The clusters fit the data region and every directory fits its buffer. */
  ghost predicate Roomy(dirs: set<Path>, order: seq<Path>, files: map<Path, seq<Byte>>)
    requires forall f :: f in order ==> f in files
  {
    && |dirs| + ClustersNeeded(order, files) <= CLUSTER_COUNT
    && |ChildrenOf(dirs + files.Keys, [])| <= ROOT_ENTRIES
    && forall d :: d in dirs ==> |ChildrenOf(dirs + files.Keys, d)| <= SECTOR / ENTRY - 2
  }

  ghost function ChildrenOf(items: set<Path>, d: Path): set<Path> {
    set p | p in items && p != [] && Parent(p) == d
  }

  lemma {:induction false} ListLength<T(!new)>(s: seq<T>, elements: set<T>)
    requires Lists(s, elements)
    ensures |s| == |elements|
  {
    if s == [] {
      assert elements == {};
    } else {
      var n := |s| - 1;
      assert s[n] in elements;
      forall x ensures x in s[..n] <==> x in elements - {s[n]} { assert s == s[..n] + [s[n]]; }
      ListLength(s[..n], elements - {s[n]});
    }
  }

  /** A directory fits its buffer exactly when it has few enough children. */
  lemma FitsByCount(
    plan: Plan, dirList: seq<Path>, order: seq<Path>, files: map<Path, seq<Byte>>, clusters: map<Path, nat>, d: Path)
    requires Planned(plan, dirList, order, files, clusters) && plan.IsDirectory(d) && PathInput(files.Keys)
    requires plan.dirs == DirsOf(files.Keys)
    ensures d in plan.kids && |plan.kids[d]| == |ChildrenOf(plan.dirs + files.Keys, d)|
    ensures d == [] ==> (KidOffset(d, |plan.kids[d]|) <= ROOT_BYTES <==>
      |ChildrenOf(plan.dirs + files.Keys, d)| <= ROOT_ENTRIES)
    ensures d != [] ==> (KidOffset(d, |plan.kids[d]|) <= SECTOR <==>
      |ChildrenOf(plan.dirs + files.Keys, d)| <= SECTOR / ENTRY - 2)
  {
    hide plan.Sound, ChildrenIn, PathInput, DirsOf, plan.IsDirectory, Lists;
    DirsAreProper(files.Keys);
    InputApart(files.Keys);
    PlannedKids(plan, dirList, order, files, clusters, d);
    KidsAre(dirList, order, d, plan.dirs, files.Keys);
    ListLength(plan.kids[d], ChildrenOf(plan.dirs + files.Keys, d));
  }

  /** What was allocated makes a sound plan. */
  lemma PlanReady(
    dirList: seq<Path>, order: seq<Path>, files: map<Path, seq<Byte>>, clusters: map<Path, nat>, next: nat,
    extent: map<Path, nat>)
    requires PathInput(files.Keys) && Lists(dirList, DirsOf(files.Keys)) && Lists(order, files.Keys)
    requires Given(clusters, extent, next, dirList, order, files) && next <= CLUSTER_COUNT + 2
    ensures NonEmpty(dirList) && NonEmpty(order)
    ensures var plan := PlanOf(dirList, order, files, clusters);
      Planned(plan, dirList, order, files, clusters) && plan.dirs == DirsOf(files.Keys) && plan.files == files
  {
    hide PathInput, DirsOf, ChildrenIn, InRow;
    PlanIsTree(dirList, order, files, clusters);
    var plan := PlanOf(dirList, order, files, clusters);
    assert plan.dirs == DirsOf(files.Keys);
    RowFits(plan, dirList, order, files, clusters, next, extent);
  }

  lemma RowFits(
    plan: Plan, dirList: seq<Path>, order: seq<Path>, files: map<Path, seq<Byte>>, clusters: map<Path, nat>,
    next: nat, extent: map<Path, nat>)
    requires Lists(dirList, plan.dirs) && Lists(order, files.Keys) && plan.files == files && plan.start == clusters
    requires plan.dirs !! files.Keys
    requires Given(clusters, extent, next, dirList, order, files) && next <= CLUSTER_COUNT + 2
    ensures plan.Allocated()
  {
    hide CeilDiv, plan.Allocated;
    RowKeys(clusters, extent, next);
    assert plan.start.Keys == plan.Items();
    RowIsAllocated(plan, extent, next);
  }

  lemma RowKeys(clusters: map<Path, nat>, extent: map<Path, nat>, next: nat)
    requires InRow(clusters, extent, next)
    ensures clusters.Keys == extent.Keys
  {
  }

  method WriteFront(
    img: array<Byte>, dirList: seq<Path>, order: seq<Path>, files: map<Path, seq<Byte>>, clusters: map<Path, nat>,
    sizes: map<Path, nat>, ghost plan: Plan)
    returns (r: Result<(), BuildError>)
    requires Planned(plan, dirList, order, files, clusters) && img.Length == TOTAL
      && forall i :: 0 <= i < TOTAL ==> img[i] == 0
    requires forall f :: f in order ==> f in sizes && f in files && sizes[f] == CeilDiv(|files[f]|, SECTOR)
    modifies img
    ensures plan.Sound() && plan.IsDirectory([]) && [] in plan.kids
    ensures r.Success? <==> KidOffset([], |plan.kids[[]]|) <= ROOT_BYTES && plan.NamesPrint([])
    ensures r.Success? ==> Front(img[..], plan)
    ensures forall i :: DATA_OFFSET <= i < TOTAL ==> img[i] == 0
  {
    hide Planned, plan.Sound, plan.NamesPrint, Links, Linked, BootSector, HoldsDirectory, plan.Items, plan.Count,
      CeilDiv, Put, ChildrenIn, Lists;
    PlannedLists(plan, dirList, order, files, clusters);
    RootIsDirectory(plan);
    WriteBootSector(img);
    FatInput(plan, dirList, order, files, sizes);
    var fat := FillFat(dirList, order, clusters, sizes, plan);
    ghost var boot, table := img[..], fat[..];
    Blit(img, FAT_OFFSET, fat[..]);
    Blit(img, FAT_OFFSET + FAT_BYTES, fat[..]);
    BlitsKeep(boot, table, img[..]);
    ghost var before := img[..];
    assert forall i :: 0 <= i < TOTAL ==> img[i] == before[i];
    r := WriteDirectory(img, ROOT_OFFSET, ROOT_BYTES, [], 0, 0, dirList, order, files, clusters, plan);
    assert forall i :: 0 <= i < TOTAL ==> img[i] == img[..][i];
    if r.Success? {
      FrontReady(before, img[..], table, plan);
    }
  }

  lemma FatInput(plan: Plan, dirList: seq<Path>, order: seq<Path>, files: map<Path, seq<Byte>>, sizes: map<Path, nat>)
    requires plan.Sound() && plan.files == files && Lists(dirList, plan.dirs) && Lists(order, files.Keys)
    requires forall f :: f in order ==> f in sizes && f in files && sizes[f] == CeilDiv(|files[f]|, SECTOR)
    ensures plan.Allocated()
    ensures (forall d :: d in dirList <==> d in plan.dirs) && (forall f :: f in order <==> f in plan.files)
    ensures forall f :: f in order ==> f in sizes && f in plan.Items() && sizes[f] == plan.Count(f)
  {
  }

  /** After both copies of the table are in, the boot sector stands and everything behind is still blank. */
  lemma BlitsKeep(boot: seq<Byte>, table: seq<Byte>, after: seq<Byte>)
    requires |boot| == TOTAL && |table| == FAT_BYTES && BootSector(boot)
      && forall i :: SECTOR <= i < TOTAL ==> boot[i] == 0
    requires after == Put(Put(boot, FAT_OFFSET, table), FAT_OFFSET + FAT_BYTES, table)
    ensures BootSector(after)
    ensures after[FAT_OFFSET..FAT_OFFSET + FAT_BYTES] == table && after[FAT_OFFSET + FAT_BYTES..ROOT_OFFSET] == table
    ensures forall i :: ROOT_OFFSET <= i < TOTAL ==> after[i] == 0
  {
    hide Put;
    var once := Put(boot, FAT_OFFSET, table);
    PutElsewhere(once, FAT_OFFSET + FAT_BYTES, table, FAT_OFFSET, FAT_OFFSET + FAT_BYTES);
    assert forall i :: 0 <= i < SECTOR ==> after[i] == once[i] == boot[i];
  }

  lemma FrontReady(before: seq<Byte>, after: seq<Byte>, table: seq<Byte>, plan: Plan)
    requires |before| == |after| == TOTAL && BootSector(before) && plan.Sound() && plan.IsDirectory([])
    requires |table| == FAT_BYTES && Links(table, plan, plan.Items())
    requires before[FAT_OFFSET..FAT_OFFSET + FAT_BYTES] == table && before[FAT_OFFSET + FAT_BYTES..ROOT_OFFSET] == table
    requires SameOutside(before, after, ROOT_OFFSET, ROOT_BYTES)
      && HoldsDirectory(after[ROOT_OFFSET..DATA_OFFSET], plan, [])
    ensures Front(after, plan)
  {
    hide Links, Linked, HoldsDirectory, plan.Tree, plan.Allocated;
    WindowKept(before, after, ROOT_OFFSET, ROOT_BYTES, FAT_OFFSET, FAT_OFFSET + FAT_BYTES);
    WindowKept(before, after, ROOT_OFFSET, ROOT_BYTES, FAT_OFFSET + FAT_BYTES, ROOT_OFFSET);
    TablesLinked(table, after, plan);
  }

  method WriteDirectories(
    img: array<Byte>, dirList: seq<Path>, order: seq<Path>, files: map<Path, seq<Byte>>, clusters: map<Path, nat>,
    ghost plan: Plan)
    returns (r: Result<(), BuildError>)
    requires Planned(plan, dirList, order, files, clusters) && img.Length == TOTAL && plan.dirs <= plan.kids.Keys
    requires Done(img[..], plan, {}, {}) && Blank(img[..], plan, plan.dirs)
    modifies img
    ensures r.Success? <==> forall d :: d in plan.dirs ==> KidOffset(d, |plan.kids[d]|) <= SECTOR && plan.NamesPrint(d)
    ensures r.Success? ==> Done(img[..], plan, plan.dirs, {})
  {
    hide Planned, plan.Sound, plan.NamesPrint, HoldsDirectory, plan.Items, plan.Count, Done, Blank, BlankAt, Lists,
      KidOffset, ClusterAt, DirectoryWritten;
    PlannedLists(plan, dirList, order, files, clusters);
    ghost var done: set<Path> := {};
    assert plan.dirs - done == plan.dirs;
    for i := 0 to |dirList|
      invariant Done(img[..], plan, done, {}) && Blank(img[..], plan, plan.dirs - done)
      invariant done == set d | d in dirList[..i]
      invariant forall d :: d in done ==> d in plan.kids && KidOffset(d, |plan.kids[d]|) <= SECTOR && plan.NamesPrint(d)
    {
      var d := dirList[i];
      ListedAt(dirList, plan.dirs, i);
      DirectoryReady(img[..], plan, dirList, order, files, clusters, d, plan.dirs - done);
      var parentCluster := if Parent(d) == [] then 0 else clusters[Parent(d)];
      ghost var before := img[..];
      assert forall j :: 0 <= j < TOTAL ==> img[j] == before[j];
      r := WriteDirectory(img, ClusterAt(clusters[d]), SECTOR, d, clusters[d], parentCluster, dirList, order, files,
        clusters, plan);
      if r.Failure? { return; }
      assert forall j :: 0 <= j < TOTAL ==> img[j] == img[..][j];
      assert img[ClusterAt(clusters[d])..ClusterAt(clusters[d]) + SECTOR]
        == img[..][ClusterAt(clusters[d])..ClusterAt(clusters[d]) + SECTOR];
      WrittenHere(img[..], plan, d);
      DirectoryDone(before, img[..], plan, done, d, plan.dirs - done);
      done := done + {d};
      assert plan.dirs - (done - {d}) - {d} == plan.dirs - done;
      assert dirList[..i + 1] == dirList[..i] + [d];
    }
    assert dirList[..|dirList|] == dirList;
    AllListed(dirList, plan.dirs);
    r := Success(());
  }

  lemma ListedAt(list: seq<Path>, elements: set<Path>, i: nat)
    requires Lists(list, elements) && i < |list|
    ensures list[i] in elements && list[i] !in list[..i]
  {
  }

  lemma AllListed(list: seq<Path>, elements: set<Path>)
    requires Lists(list, elements)
    ensures (set x | x in list) == elements
  {
  }

  lemma WrittenHere(img: seq<Byte>, plan: Plan, d: Path)
    requires |img| == TOTAL && plan.Sound() && d in plan.dirs && d in plan.start && plan.start[d] >= 2
      && plan.IsDirectory(d)
    requires ClusterAt(plan.start[d]) + SECTOR <= |img|
    requires HoldsDirectory(img[ClusterAt(plan.start[d])..ClusterAt(plan.start[d]) + SECTOR], plan, d)
    ensures DirectoryWritten(img, plan, d)
  {
  }

  /** A directory still to be written: its cluster is blank and its own and its parent's clusters are known. */
  lemma DirectoryReady(
    img: seq<Byte>, plan: Plan, dirList: seq<Path>, order: seq<Path>, files: map<Path, seq<Byte>>,
    clusters: map<Path, nat>, d: Path, blank: set<Path>)
    requires Planned(plan, dirList, order, files, clusters) && |img| == TOTAL && Blank(img, plan, blank)
      && d in blank && d in plan.dirs
    ensures plan.Sound() && plan.IsDirectory(d) && d != [] && d in plan.kids && d in plan.start
      && plan.start == clusters
    ensures plan.IsDirectory(Parent(d)) && (Parent(d) != [] ==> Parent(d) in plan.start)
    ensures 2 <= plan.start[d] == plan.ClusterOf(d) < 0x1_0000
    ensures plan.ClusterOf(Parent(d)) == (if Parent(d) == [] then 0 else clusters[Parent(d)]) < 0x1_0000
    ensures ClusterAt(plan.start[d]) + SECTOR <= TOTAL && DATA_OFFSET <= ClusterAt(plan.start[d])
    ensures forall i :: ClusterAt(plan.start[d]) <= i < ClusterAt(plan.start[d]) + SECTOR ==> img[i] == 0
  {
    hide plan.Sound, ChildrenIn;
    PlannedLists(plan, dirList, order, files, clusters);
    ItemOf(plan, d);
    IsKid(plan, d);
    OwnsRun(plan, d);
    Stretch(plan, d);
    PlannedKids(plan, dirList, order, files, clusters, d);
    if Parent(d) != [] {
      ItemOf(plan, Parent(d));
      OwnsRun(plan, Parent(d));
    }
  }

  method WriteFiles(
    img: array<Byte>, order: seq<Path>, files: map<Path, seq<Byte>>, clusters: map<Path, nat>, ghost plan: Plan)
    requires plan.Sound() && plan.files == files && plan.start == clusters && Lists(order, files.Keys)
      && img.Length == TOTAL
    requires Done(img[..], plan, plan.dirs, {})
    modifies img
    ensures Done(img[..], plan, plan.dirs, plan.files.Keys)
  {
    hide plan.Sound, plan.Items, plan.Count, Done, Lists, Put;
    ghost var done: set<Path> := {};
    for i := 0 to |order|
      invariant Done(img[..], plan, plan.dirs, done) && done == set f | f in order[..i]
    {
      var f := order[i];
      ListedAt(order, files.Keys, i);
      FileReady(plan, f);
      var start := clusters[f];
      if start == 0 {
        EmptyFileDone(img[..], plan, done, f);
      } else {
        ghost var before := img[..];
        Blit(img, ClusterAt(start), files[f]);
        FileDone(before, img[..], plan, done, f);
      }
      done := done + {f};
      assert order[..i + 1] == order[..i] + [f];
    }
    assert order[..|order|] == order;
    AllListed(order, files.Keys);
  }

  /** A file's start is zero exactly when it is empty; otherwise its bytes fit its stretch. */
  lemma FileReady(plan: Plan, f: Path)
    requires plan.Sound() && f in plan.files
    ensures f in plan.start
    ensures if plan.start[f] == 0 then plan.files[f] == []
      else plan.start[f] >= 2 && plan.files[f] != [] && ClusterAt(plan.start[f]) + |plan.files[f]| <= TOTAL
  {
  }

  /**
   The builder succeeds exactly when clusters and directories have room and every name prints, and then
   prints an image in which every region is what the plan says.
   */
  method BuildEsp(order: seq<Path>, files: map<Path, seq<Byte>>)
    returns (r: Result<seq<Byte>, BuildError>, ghost plan: Plan)
    requires PathInput(files.Keys) && Lists(order, files.Keys)
    ensures r.Success? <==> Roomy(DirsOf(files.Keys), order, files) && Nameable(files.Keys)
    ensures r.Success? ==> Printed(r.value, plan) && plan.files == files && plan.dirs == DirsOf(files.Keys)
  {
    hide Printed, Planned, Done, Blank, Front, PathInput, DirsOf, Given, ClustersNeeded, CeilDiv, ChildrenIn,
      ChildrenOf, PlanOf, Ordered, KidOffset, Lists, Roomy, Nameable, plan.NamesPrint, plan.Sound;
    r, plan := Failure(TooSmall), Plan({}, map[], map[], map[]);
    AllListed(order, files.Keys);
    InputLists(order, files.Keys);
    var dirs := CollectDirs(order);
    var dirList := SortDirs(dirs);
    DirsLists(dirList, order, files.Keys);
    var clusters, sizes, next, extent := Allocate(dirList, order, files);
    if next - 2 > CLUSTER_COUNT {
      TooSmallHasNoRoom(dirs, dirList, order, files);
      return;
    }
    PlanReady(dirList, order, files, clusters, next, extent);
    plan := PlanOf(dirList, order, files, clusters);
    RoomByFit(plan, dirList, order, files, clusters);
    PlannedLists(plan, dirList, order, files, clusters);
    NamesByDirectory(plan);
    var img := new Byte[TOTAL](_ => 0);
    var written := WriteFront(img, dirList, order, files, clusters, sizes, plan);
    if written.Failure? { return Failure(written.error), plan; }
    assert forall i :: 0 <= i < TOTAL ==> img[i] == img[..][i];
    StartDone(img[..], plan);
    written := WriteDirectories(img, dirList, order, files, clusters, plan);
    if written.Failure? { return Failure(written.error), plan; }
    WriteFiles(img, order, files, clusters, plan);
    AllDone(img[..], plan);
    r := Success(img[..]);
  }

  /** Every name of the paths is the name of one child of one directory. */
  lemma NamesByDirectory(plan: Plan)
    requires plan.Sound() && plan.dirs == DirsOf(plan.files.Keys)
    ensures plan.dirs <= plan.kids.Keys && [] in plan.kids
    ensures Nameable(plan.files.Keys) <==> plan.NamesPrint([]) && forall d :: d in plan.dirs ==> plan.NamesPrint(d)
  {
    hide Name83, DirsOf, plan.Allocated, Last;
    assert plan.IsDirectory([]);
    assert forall d :: d in plan.dirs ==> plan.IsDirectory(d);
    if Nameable(plan.files.Keys) {
      forall d, k | plan.IsDirectory(d) && 0 <= k < |plan.kids[d]|
        ensures plan.kids[d][k] != [] && Name83(Last(plan.kids[d][k]).name).Success?
      {
        NamesOfItems(plan.files.Keys, plan.kids[d][k]);
      }
    }
    if plan.NamesPrint([]) && forall d :: d in plan.dirs ==> plan.NamesPrint(d) {
      forall q: Path, i | q in plan.files.Keys && 0 <= i < |q| ensures Name83(q[i].name).Success? {
        var p := ItemOfName(plan.files.Keys, q, i);
        assert p in plan.Items() && plan.IsDirectory(Parent(p));
        assert p in plan.kids[Parent(p)];
      }
    }
  }

  lemma InputLists(order: seq<Path>, keys: set<Path>)
    requires Lists(order, keys)
    ensures Distinct(order) && (forall f :: f in order <==> f in keys)
  {
  }

  lemma DirsLists(dirList: seq<Path>, order: seq<Path>, keys: set<Path>)
    requires PathInput(keys) && Lists(order, keys) && Lists(dirList, DirsOf(keys))
    ensures Distinct(dirList) && (forall f :: f in order ==> f !in dirList)
    ensures |dirList| == |DirsOf(keys)|
  {
    hide DirsOf, IsFilePath;
    InputApart(keys);
    ListLength(dirList, DirsOf(keys));
  }

  lemma TooSmallHasNoRoom(dirs: set<Path>, dirList: seq<Path>, order: seq<Path>, files: map<Path, seq<Byte>>)
    requires (forall f :: f in order ==> f in files) && |dirList| == |dirs|
    requires |dirList| + ClustersNeeded(order, files) > CLUSTER_COUNT
    ensures !Roomy(dirs, order, files)
  {
  }

  /** Given enough clusters, there is room exactly when every directory fits its buffer. */
  lemma RoomByFit(
    plan: Plan, dirList: seq<Path>, order: seq<Path>, files: map<Path, seq<Byte>>, clusters: map<Path, nat>)
    requires Planned(plan, dirList, order, files, clusters) && PathInput(files.Keys) && plan.dirs == DirsOf(files.Keys)
    requires (forall f :: f in order ==> f in files) && |plan.dirs| + ClustersNeeded(order, files) <= CLUSTER_COUNT
    ensures plan.dirs <= plan.kids.Keys && [] in plan.kids
    ensures Roomy(plan.dirs, order, files) <==>
      && KidOffset([], |plan.kids[[]]|) <= ROOT_BYTES
      && forall d :: d in plan.dirs ==> KidOffset(d, |plan.kids[d]|) <= SECTOR
  {
    hide Planned, PathInput, DirsOf, ChildrenIn, KidOffset, ChildrenOf, ClustersNeeded, PlanOf, Lists;
    FitsByCount(plan, dirList, order, files, clusters, []);
    forall d | d in plan.dirs
      ensures d != [] && d in plan.kids
      ensures KidOffset(d, |plan.kids[d]|) <= SECTOR <==> |ChildrenOf(plan.dirs + files.Keys, d)| <= SECTOR / ENTRY - 2
    {
      DirsAreProper(files.Keys);
      FitsByCount(plan, dirList, order, files, clusters, d);
    }
  }

  /**
   Round trip: of every map the builder accepts, the reader finds exactly these files, byte for byte, if and
   only if their names are canonical, no file is also a folder, and they are inside its profile.
   */
  method BuildAndRead(order: seq<Path>, files: map<Path, seq<Byte>>) returns (r: Result<seq<Byte>, BuildError>)
    requires PathInput(files.Keys) && Lists(order, files.Keys)
    ensures r.Success? <==> Roomy(DirsOf(files.Keys), order, files) && Nameable(files.Keys)
    ensures CanonicalNames(files.Keys) ==> Nameable(files.Keys)
    ensures r.Success? ==>
      (Load(r.value).Success? && SameFiles(Load(r.value).value.1.files, files) <==> Readable(files.Keys))
    ensures r.Success? && CanonicalNames(files.Keys) && Unclashed(files.Keys) ==>
      (Load(r.value).Success? <==> InProfile(files.Keys))
  {
    hide Roomy, Printed, PathInput, DirsOf, Lists, Load, SameFiles, Nameable, CanonicalNames, Unclashed, InProfile;
    if CanonicalNames(files.Keys) { CanonicalIsNameable(files.Keys); }
    ghost var plan;
    r, plan := BuildEsp(order, files);
    if r.Success? { PrintedImageReadsBack(r.value, plan); }
  }

  lemma CanonicalIsNameable(keys: set<Path>)
    requires CanonicalNames(keys)
    ensures Nameable(keys)
  {
    forall p: Path, i | p in keys && 0 <= i < |p| ensures Name83(p[i].name).Success? { NameRoundTrip(p[i].name); }
  }

  // ---------------------------------------------------------------- the refusing side

  /** One empty file below `n` nested directories, every name "A". */
  function Nested(n: nat): Path {
    seq(n, _ => Folder("A")) + [File("A")]
  }

  ghost function PrefixesUpTo(p: Path, k: nat): set<Path>
    requires k <= |p|
  {
    set i | 0 < i <= k :: p[..i]
  }

  lemma {:induction false} PrefixCount(p: Path, k: nat)
    requires k <= |p|
    ensures |PrefixesUpTo(p, k)| <= k
  {
    if k == 0 {
      assert PrefixesUpTo(p, 0) == {};
    } else {
      PrefixCount(p, k - 1);
      assert PrefixesUpTo(p, k) == PrefixesUpTo(p, k - 1) + {p[..k]};
    }
  }

  /** In a map of one file every directory has one child. */
  lemma OneChild(p: Path, d: Path)
    requires p != []
    ensures |ChildrenOf({p} + DirsOf({p}), d)| <= 1
  {
    var children := ChildrenOf({p} + DirsOf({p}), d);
    if |d| < |p| {
      forall q | q in children ensures q == p[..|d| + 1] {
        assert q == p || exists i :: 0 < i < |p| && q == p[..i];
      }
      assert children <= {p[..|d| + 1]};
      SubsetCount(children, {p[..|d| + 1]});
    } else {
      assert forall q :: q in {p} + DirsOf({p}) ==> |q| <= |p|;
      assert children == {};
    }
  }

  lemma SubsetCount<T>(a: set<T>, b: set<T>)
    requires a <= b
    ensures |a| <= |b|
  {
    assert b == a + (b - a);
  }

  lemma ShortName()
    ensures Canonical83("A")
  {
    assert Spells("A", "A", "");
  }

  /**
   Such a file deeper than the profile, as deep as there are clusters for its directories, is canonical and
   has room, so the builder makes its image, and is outside the profile, so the reader refuses it.
   */
  lemma NestedIsBuiltAndRefused(n: nat, files: map<Path, seq<Byte>>)
    requires MAX_DEPTH < n <= CLUSTER_COUNT && files == map[Nested(n) := []]
    ensures PathInput(files.Keys) && CanonicalNames(files.Keys) && Unclashed(files.Keys)
      && Lists([Nested(n)], files.Keys)
    ensures Roomy(DirsOf(files.Keys), [Nested(n)], files)
    ensures !InProfile(files.Keys)
  {
    hide Canonical83, Roomy, IsFilePath, DirsOf;
    ShortName();
    var p := Nested(n);
    assert files.Keys == {p};
    NestedPath(n);
    NestedIsRoomy(n, files);
  }

  lemma NestedPath(n: nat)
    requires n > 0
    ensures IsFilePath(Nested(n)) && Unclashed({Nested(n)})
      && forall i :: 0 <= i < |Nested(n)| ==> Nested(n)[i].name == "A"
    ensures exists d :: d in DirsOf({Nested(n)}) && |d| == n
  {
    var p := Nested(n);
    assert p[..n] in DirsOf({p}) && |p[..n]| == n;
    assert forall d :: d in DirsOf({p}) ==> |Names(d)| < |Names(p)|;
  }

  lemma NestedIsRoomy(n: nat, files: map<Path, seq<Byte>>)
    requires n <= CLUSTER_COUNT && files == map[Nested(n) := []]
    ensures Roomy(DirsOf(files.Keys), [Nested(n)], files)
  {
    var p := Nested(n);
    var dirs := DirsOf({p});
    assert files.Keys == {p};
    assert dirs == PrefixesUpTo(p, n);
    PrefixCount(p, n);
    NoneNeeded([p], files);
    forall d ensures |ChildrenOf(dirs + files.Keys, d)| <= 1 {
      OneChild(p, d);
      assert dirs + files.Keys == {p} + dirs;
    }
  }

  /** One empty file of any name that prints is built; it is read back exactly if its name is canonical. */
  lemma SingleIsBuilt(name: string, files: map<Path, seq<Byte>>)
    requires name != "" && '/' !in name && Name83(name).Success? && files == map[[File(name)] := []]
    ensures PathInput(files.Keys) && Nameable(files.Keys) && Lists([[File(name)]], files.Keys)
    ensures Roomy(DirsOf(files.Keys), [[File(name)]], files)
    ensures Readable(files.Keys) <==> Canonical83(name)
  {
    hide Name83, Canonical83, Roomy;
    var p: Path := [File(name)];
    var none: set<Path> := {};
    assert files.Keys == {p} && DirsOf({p}) == none;
    NoneNeeded([p], files);
    FewAreRoomy(none, [p], files);
    assert p[0].name == name;
  }

  /** A space inside a name, a small letter and a ligature print, but are not canonical. */
  lemma NotCanonical()
    ensures Name83("A B").Success? && Name83("a").Success? && Name83("\U{DF}").Success?
    ensures !Canonical83("A B") && !Canonical83("a") && !Canonical83("\U{DF}")
  {
    hide Name83, Canonical83, Capitals, Capital;
    ShortCapitals();
    DotlessPrints("A B");
    DotlessPrints("a");
    DotlessPrints("\U{DF}");
    if Canonical83("A B") { CanonicalChars("A B", 1); }
    if Canonical83("a") { CanonicalChars("a", 0); }
    if Canonical83("\U{DF}") { CanonicalChars("\U{DF}", 0); }
  }

  lemma ShortCapitals()
    ensures Capitals("A B") == "A B" && Capitals("a") == "A" && Capitals("\U{DF}") == "SS" && Capitals("") == ""
  {
    assert "A B"[1..] == " B" && " B"[1..] == "B" && "B"[1..] == "" && "a"[1..] == "" && "\U{DF}"[1..] == "";
    assert Capitals("B") == "B" && Capitals(" B") == " B";
  }

  lemma DotlessPrints(name: string)
    requires '.' !in name && IsAscii(Capitals(name)) && 1 <= |Capitals(name)| <= 8 && Capitals("") == ""
    ensures Name83(name).Success?
  {
    hide Capitals, Pad;
    LastDotAbsent(name);
  }

  lemma CanonicalChars(name: string, i: nat)
    requires Canonical83(name) && i < |name| && name[i] != '.'
    ensures NameChar(name[i])
  {
    hide NameChar;
    var base, ext :| Spells(name, base, ext);
    assert name[i] in base || name[i] in ext;
  }

  /** A file and a folder of one name are built, one entry for each, and never read back. */
  lemma ClashIsBuilt(files: map<Path, seq<Byte>>)
    requires files == map[[File("A")] := [], [Folder("A"), File("A")] := []]
    ensures PathInput(files.Keys) && CanonicalNames(files.Keys) && InProfile(files.Keys) && !Unclashed(files.Keys)
    ensures Lists([[File("A")], [Folder("A"), File("A")]], files.Keys)
    ensures Roomy(DirsOf(files.Keys), [[File("A")], [Folder("A"), File("A")]], files)
  {
    hide Canonical83, Roomy, DirsOf, IsFilePath, Unclashed;
    ShortName();
    var p: Path, q: Path, d: Path := [File("A")], [Folder("A"), File("A")], [Folder("A")];
    assert files.Keys == {p, q};
    ClashPaths(p, q, d);
    assert !Unclashed({p, q}) by { Clash({p, q}, p, d); }
    NoneNeeded([p, q], files);
    FewAreRoomy({d}, [p, q], files);
  }

  lemma Clash(keys: set<Path>, p: Path, d: Path)
    requires p in keys && d in DirsOf(keys) && Names(p) == Names(d)
    ensures !Unclashed(keys)
  {
    hide DirsOf;
  }

  lemma ClashPaths(p: Path, q: Path, d: Path)
    requires p == [File("A")] && q == [Folder("A"), File("A")] && d == [Folder("A")]
    ensures IsFilePath(p) && IsFilePath(q) && DirsOf({p, q}) == {d} && Names(p) == Names(d)
    ensures forall i :: 0 <= i < |q| ==> q[i].name == "A"
  {
    assert q[..1] == d;
  }

  lemma {:induction false} NoneNeeded(order: seq<Path>, files: map<Path, seq<Byte>>)
    requires forall f :: f in order ==> f in files && files[f] == []
    ensures ClustersNeeded(order, files) == 0
  {
    if order != [] { NoneNeeded(order[..|order| - 1], files); }
  }

  lemma FewAreRoomy(dirs: set<Path>, order: seq<Path>, files: map<Path, seq<Byte>>)
    requires (forall f :: f in order ==> f in files) && ClustersNeeded(order, files) == 0 && |dirs + files.Keys| <= 14
    ensures Roomy(dirs, order, files)
  {
    hide ClustersNeeded;
    SubsetCount(dirs, dirs + files.Keys);
    forall e
      ensures |ChildrenOf(dirs + files.Keys, e)| <= 14
    {
      SubsetCount(ChildrenOf(dirs + files.Keys, e), dirs + files.Keys);
    }
  }
}
