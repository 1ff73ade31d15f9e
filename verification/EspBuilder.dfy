/** The builder's writes into the image buffer, region by region, and the plan they follow. */
module EspBuilder {
  import opened Wrappers
  import opened Bytes
  import opened Fat16
  import opened EspImage
  import opened EspPlan

  // ---------------------------------------------------------------- writing into a buffer

  function Put(s: seq<Byte>, at: nat, bytes: seq<Byte>): (r: seq<Byte>)
    requires at + |bytes| <= |s|
    ensures |r| == |s|
    ensures r[at..at + |bytes|] == bytes
    ensures forall i :: 0 <= i < |s| && !(at <= i < at + |bytes|) ==> r[i] == s[i]
  {
    s[..at] + bytes + s[at + |bytes|..]
  }

  method Blit(img: array<Byte>, at: nat, bytes: seq<Byte>)
    requires at + |bytes| <= img.Length
    modifies img
    ensures img[..] == Put(old(img[..]), at, bytes)
  {
    forall i | 0 <= i < |bytes| {
      img[at + i] := bytes[i];
    }
  }

  method Pack16(img: array<Byte>, at: nat, v: nat)
    requires at + 2 <= img.Length && v < 0x1_0000
    modifies img
    ensures img[at] == v % 0x100 && img[at + 1] == v / 0x100
    ensures forall i :: 0 <= i < img.Length && i != at && i != at + 1 ==> img[i] == old(img[i])
  {
    img[at], img[at + 1] := v % 0x100, v / 0x100;
  }

  /** A window that a write does not touch. */
  lemma PutElsewhere(s: seq<Byte>, at: nat, bytes: seq<Byte>, lo: nat, hi: nat)
    requires at + |bytes| <= |s| && lo <= hi <= |s| && (hi <= at || at + |bytes| <= lo)
    ensures Put(s, at, bytes)[lo..hi] == s[lo..hi]
  {
  }

  /** A write inside a window, seen from the window. */
  lemma PutInside(s: seq<Byte>, at: nat, bytes: seq<Byte>, lo: nat, hi: nat)
    requires lo <= at && at + |bytes| <= hi <= |s|
    ensures Put(s, at, bytes)[lo..hi] == Put(s[lo..hi], at - lo, bytes)
    ensures forall i :: 0 <= i < |s| && !(lo <= i < hi) ==> Put(s, at, bytes)[i] == s[i]
  {
  }

  /** The numeric fields the reader looks at. */
  predicate Geometry(s: seq<Byte>)
    requires |s| >= SECTOR
  {
    && s[11] == 0 && s[12] == 2 && s[13] == 1 && s[14] == 1 && s[15] == 0 && s[16] == 2 && s[17] == 0 && s[18] == 2
    && s[19] == 0x36 && s[20] == 0x10 && s[21] == 0xF8 && s[22] == 16 && s[23] == 0
  }

  lemma BootFields(s: seq<Byte>)
    requires |s| == TOTAL && Geometry(s)
    requires s[28] == s[29] == s[30] == s[31] == s[32] == s[33] == s[34] == s[35] == 0
    requires s[510] == 0x55 && s[511] == 0xAA
    ensures BootSector(s)
  {
  }

  const JUMP: seq<Byte> := [0xEB, 0x3C, 0x90]
  const OEM: seq<Byte> := [0x5A, 0x4B, 0x4E, 0x41, 0x54, 0x49, 0x56, 0x45]
  const LABEL: seq<Byte> := [0x5A, 0x4B, 0x4E, 0x41, 0x54, 0x49, 0x56, 0x45, 32, 32, 32]
  const FAT_TYPE: seq<Byte> := [0x46, 0x41, 0x54, 0x31, 0x36, 32, 32, 32]

  /** The fields the reader does not look at: jump, names, disk shape, signature; and nothing in between. */
  ghost predicate Labels(s: seq<Byte>)
    requires |s| >= SECTOR
  {
    && s[..3] == JUMP && s[3..11] == OEM && U16(s, 24) == 32 && U16(s, 26) == 2 && s[38] == 0x29
    && s[43..54] == LABEL && s[54..62] == FAT_TYPE
    && forall i :: 28 <= i < 38 || 39 <= i < 43 || 62 <= i < 510 ==> s[i] == 0
  }

  method WriteGeometry(img: array<Byte>)
    requires img.Length == TOTAL
    modifies img
    ensures Geometry(img[..]) && U16(img[..], 24) == 32 && U16(img[..], 26) == 2
    ensures forall i :: 0 <= i < TOTAL && !(11 <= i < 28) ==> img[i] == old(img[i])
  {
    WriteSizes(img);
    WriteText(img, 24, [32, 0, 2, 0]);
    assert img[24] == img[24..28][0] && img[25] == img[24..28][1] && img[26] == img[24..28][2]
      && img[27] == img[24..28][3];
  }

  method WriteSizes(img: array<Byte>)
    requires img.Length == TOTAL
    modifies img
    ensures Geometry(img[..])
    ensures forall i :: 0 <= i < TOTAL && !(11 <= i < 24) ==> img[i] == old(img[i])
  {
    img[11], img[12] := SECTOR % 0x100, SECTOR / 0x100;
    img[13] := 1;
    img[14], img[15] := RESERVED % 0x100, RESERVED / 0x100;
    img[16] := NFATS;
    img[17], img[18] := ROOT_ENTRIES % 0x100, ROOT_ENTRIES / 0x100;
    img[19], img[20] := TOTAL / SECTOR % 0x100, TOTAL / SECTOR / 0x100;
    img[21] := MEDIA;
    img[22], img[23] := FAT_SECTORS % 0x100, FAT_SECTORS / 0x100;
  }

  /** The whole boot sector, every byte of it. */
  method WriteBootSector(img: array<Byte>)
    requires img.Length == TOTAL && forall i :: 0 <= i < TOTAL ==> img[i] == 0
    modifies img
    ensures BootSector(img[..]) && Geometry(img[..]) && Labels(img[..])
    ensures forall i :: SECTOR <= i < TOTAL ==> img[i] == 0
  {
    hide BootSector, Put, Geometry, Labels, U16;
    WriteText(img, 0, JUMP);
    WriteText(img, 3, OEM);
    WriteGeometry(img);
    ghost var shaped := img[..];
    img[38] := 0x29;
    WriteText(img, 43, LABEL);
    WriteText(img, 54, FAT_TYPE);
    img[510], img[511] := 0x55, 0xAA;
    assert forall i :: 11 <= i < 28 ==> img[..][i] == shaped[i];
    ShapeStays(shaped, img[..]);
    assert img[..][..3] == img[0..3] && img[..][3..11] == img[3..11] && img[..][43..54] == img[43..54]
      && img[..][54..62] == img[54..62];
    LabelsAre(img[..]);
    BootFields(img[..]);
  }

  lemma ShapeStays(before: seq<Byte>, after: seq<Byte>)
    requires |before| == |after| == TOTAL && forall i :: 11 <= i < 28 ==> after[i] == before[i]
    ensures Geometry(before) ==> Geometry(after)
    ensures U16(after, 24) == U16(before, 24) && U16(after, 26) == U16(before, 26)
  {
  }

  lemma LabelsAre(s: seq<Byte>)
    requires |s| == TOTAL && s[..3] == JUMP && s[3..11] == OEM && U16(s, 24) == 32 && U16(s, 26) == 2 && s[38] == 0x29
    requires s[43..54] == LABEL && s[54..62] == FAT_TYPE
    requires forall i :: 28 <= i < 38 || 39 <= i < 43 || 62 <= i < 510 ==> s[i] == 0
    ensures Labels(s)
  {
  }

  /** A text field of the boot sector. */
  method WriteText(img: array<Byte>, at: nat, bytes: seq<Byte>)
    requires at + |bytes| <= img.Length
    modifies img
    ensures img[at..at + |bytes|] == bytes
    ensures forall i :: 0 <= i < img.Length && !(at <= i < at + |bytes|) ==> img[i] == old(img[i])
  {
    Blit(img, at, bytes);
    assert forall i :: 0 <= i < img.Length ==> img[i] == img[..][i];
  }

  // ---------------------------------------------------------------- allocation table

  function Slot(fat: seq<Byte>, c: nat): nat
    requires 2 * c + 2 <= |fat|
  {
    U16(fat, 2 * c)
  }

  method SetFat(fat: array<Byte>, c: nat, v: nat)
    requires 2 * c + 2 <= fat.Length && v < 0x1_0000
    modifies fat
    ensures forall k: nat :: 2 * k + 2 <= fat.Length ==> Slot(fat[..], k) == if k == c then v else old(Slot(fat[..], k))
  {
    Pack16(fat, c * 2, v);
  }

  ghost function LinkOf(plan: Plan, p: Path, c: nat): nat
    requires plan.Owns(p, c)
  {
    RunLink(c, plan.start[p] + plan.Count(p))
  }

  /** The table links the clusters of the paths done and nothing else. */
  ghost predicate Links(fat: seq<Byte>, plan: Plan, done: set<Path>)
    requires |fat| == FAT_BYTES
  {
    && Slot(fat, 0) == 0xFF00 + MEDIA && Slot(fat, 1) == END_OF_CHAIN
    && (forall p, c: nat :: p in done && plan.Owns(p, c) && c < CLUSTER_COUNT + 2 ==>
      Slot(fat, c) == LinkOf(plan, p, c))
    && (forall c: nat :: 2 <= c < CLUSTER_COUNT + 2 && Slot(fat, c) != 0 ==> exists p :: p in done && plan.Owns(p, c))
  }

  /** One more path's clusters, linked in a row in an otherwise unchanged table. */
  lemma LinksGrow(before: seq<Byte>, after: seq<Byte>, plan: Plan, done: set<Path>, p: Path)
    requires |before| == |after| == FAT_BYTES && plan.Allocated() && p in plan.Items() && Links(before, plan, done)
    requires forall c: nat :: c < CLUSTER_COUNT + 2 ==>
      Slot(after, c) == (if plan.Owns(p, c) then LinkOf(plan, p, c) else Slot(before, c))
    ensures Links(after, plan, done + {p})
  {
  }

  function RunLink(c: nat, end: nat): nat {
    if c + 1 == end then END_OF_CHAIN else c + 1
  }

  /** Links a path's clusters in a row. */
  method LinkRun(fat: array<Byte>, start: nat, n: nat)
    requires fat.Length == FAT_BYTES && start + n <= CLUSTER_COUNT + 2
    modifies fat
    ensures forall c: nat :: c < CLUSTER_COUNT + 2 ==>
      Slot(fat[..], c) == (if start <= c < start + n then RunLink(c, start + n) else old(Slot(fat[..], c)))
  {
    for i := 0 to n
      invariant forall c: nat :: c < CLUSTER_COUNT + 2 ==>
        Slot(fat[..], c) == (if start <= c < start + i then RunLink(c, start + n) else old(Slot(fat[..], c)))
    {
      SetFat(fat, start + i, if i + 1 == n then END_OF_CHAIN else start + i + 1);
    }
  }

  lemma LinksStart(fat: seq<Byte>, plan: Plan)
    requires |fat| == FAT_BYTES && Slot(fat, 0) == 0xFF00 + MEDIA && Slot(fat, 1) == END_OF_CHAIN
    requires forall c: nat :: 2 <= c < CLUSTER_COUNT + 2 ==> Slot(fat, c) == 0
    ensures Links(fat, plan, {})
  {
  }

  ghost function Members(paths: seq<Path>): set<Path> { set p | p in paths }

  lemma OneMore(paths: seq<Path>, i: nat)
    requires i < |paths|
    ensures Members(paths[..i + 1]) == Members(paths[..i]) + {paths[i]}
  {
  }

  method FillFat(
    dirList: seq<Path>, order: seq<Path>, clusters: map<Path, nat>, sizes: map<Path, nat>, ghost plan: Plan)
    returns (fat: array<Byte>)
    requires plan.Allocated() && plan.start == clusters
    requires (forall d :: d in dirList <==> d in plan.dirs) && (forall f :: f in order <==> f in plan.files)
    requires forall f :: f in order ==> f in sizes && f in plan.Items() && sizes[f] == plan.Count(f)
    ensures fresh(fat) && fat.Length == FAT_BYTES && Links(fat[..], plan, plan.Items())
  {
    hide Links, plan.Allocated, plan.Owns, plan.Count, LinkOf;
    fat := new Byte[FAT_BYTES](_ => 0);
    SetFat(fat, 0, 0xFF00 + MEDIA);
    SetFat(fat, 1, END_OF_CHAIN);
    LinksStart(fat[..], plan);
    ghost var done: set<Path> := {};
    for i := 0 to |dirList|
      invariant Links(fat[..], plan, done) && done == Members(dirList[..i])
    {
      var d := dirList[i];
      OwnsOne(plan, d);
      ghost var before := fat[..];
      SetFat(fat, clusters[d], END_OF_CHAIN);
      RunOfOne(before, fat[..], plan, d);
      LinksGrow(before, fat[..], plan, done, d);
      OneMore(dirList, i);
      done := done + {d};
    }
    for i := 0 to |order|
      invariant Links(fat[..], plan, done) && done == plan.dirs + Members(order[..i])
    {
      var f := order[i];
      OwnsRange(plan, f);
      ghost var before := fat[..];
      LinkRun(fat, clusters[f], sizes[f]);
      RunOfMany(before, fat[..], plan, f);
      LinksGrow(before, fat[..], plan, done, f);
      OneMore(order, i);
      done := done + {f};
    }
    assert done == plan.Items();
  }

  lemma RunOfOne(before: seq<Byte>, after: seq<Byte>, plan: Plan, d: Path)
    requires |before| == |after| == FAT_BYTES && plan.Allocated() && d in plan.dirs && d in plan.start
    requires forall k: nat :: 2 * k + 2 <= FAT_BYTES ==>
      Slot(after, k) == (if k == plan.start[d] then END_OF_CHAIN else Slot(before, k))
    ensures forall c: nat :: c < CLUSTER_COUNT + 2 ==>
      Slot(after, c) == (if plan.Owns(d, c) then LinkOf(plan, d, c) else Slot(before, c))
  {
  }

  lemma RunOfMany(before: seq<Byte>, after: seq<Byte>, plan: Plan, f: Path)
    requires |before| == |after| == FAT_BYTES && plan.Allocated() && f in plan.Items() && f in plan.start
    requires forall c: nat :: c < CLUSTER_COUNT + 2 ==>
      (Slot(after, c)
      == (if plan.start[f] <= c < plan.start[f] + plan.Count(f) then RunLink(c, plan.start[f] + plan.Count(f))
        else Slot(before, c)))
    ensures forall c: nat :: c < CLUSTER_COUNT + 2 ==>
      Slot(after, c) == (if plan.Owns(f, c) then LinkOf(plan, f, c) else Slot(before, c))
  {
  }

  lemma OwnsOne(plan: Plan, d: Path)
    requires plan.Allocated() && d in plan.dirs
    ensures d in plan.start && 2 <= plan.start[d] < CLUSTER_COUNT + 2 && plan.Count(d) == 1
    ensures forall c: nat :: plan.Owns(d, c) <==> c == plan.start[d]
  {
  }

  lemma OwnsRange(plan: Plan, f: Path)
    requires plan.Allocated() && f in plan.Items()
    ensures f in plan.start && plan.start[f] + plan.Count(f) <= CLUSTER_COUNT + 2
    ensures forall c: nat :: plan.Owns(f, c) <==> plan.start[f] <= c < plan.start[f] + plan.Count(f)
  {
  }

  // ---------------------------------------------------------------- directories

  method MakeEntry(name: string, attr: Byte, cluster: nat, size: nat) returns (r: Result<seq<Byte>, BuildError>)
    requires cluster < 0x1_0000 && size < 0x1_0000_0000
    ensures match Name83(name)
            case Success(raw) => r == Success(DirEntry(raw, attr, cluster, size))
            case Failure(e) => r == Failure(e)
  {
    hide Name83;
    var raw :- Name83(name);
    var entry := new Byte[ENTRY](_ => 0);
    Blit(entry, 0, raw);
    entry[11] := attr;
    Blit(entry, 26, Le16(cluster));
    Blit(entry, 28, Le32(size));
    assert entry[..] == DirEntry(raw, attr, cluster, size);
    r := Success(entry[..]);
  }

  lemma DotsWritten(zeros: seq<Byte>, after: seq<Byte>, plan: Plan, d: Path)
    requires plan.Sound() && d in plan.dirs && d != [] && d in plan.kids && |zeros| >= 2 * ENTRY
    requires d in plan.start && plan.IsDirectory(Parent(d)) && (Parent(d) != [] ==> Parent(d) in plan.start)
    requires plan.ClusterOf(d) < 0x1_0000 && plan.ClusterOf(Parent(d)) < 0x1_0000
    requires forall i :: 0 <= i < |zeros| ==> zeros[i] == 0
    requires after == Put(Put(zeros, 0, DirEntry(DOT_NAME, ATTR_DIRECTORY, plan.ClusterOf(d), 0)),
                          ENTRY, DirEntry(DOT_DOT_NAME, ATTR_DIRECTORY, plan.ClusterOf(Parent(d)), 0))
    ensures HoldsKids(after, plan, d, 0)
  {
  }

  lemma KidWritten(buf: seq<Byte>, after: seq<Byte>, plan: Plan, d: Path, k: nat, entry: seq<Byte>)
    requires plan.Sound() && plan.IsDirectory(d) && d in plan.kids && k < |plan.kids[d]| && HoldsKids(buf, plan, d, k)
    requires |entry| == ENTRY && KidOffset(d, k) + ENTRY <= |buf|
    requires plan.kids[d][k] in plan.Items() && plan.kids[d][k] != [] && Name83(Last(plan.kids[d][k]).name).Success?
    requires entry == plan.EntryOf(plan.kids[d][k]) && after == Put(buf, KidOffset(d, k), entry)
    ensures HoldsKids(after, plan, d, k + 1)
  {
    hide plan.Sound, DirEntry, Put, plan.EntryOf, Name83, plan.IsDirectory;
    var at := KidOffset(d, k);
    if d != [] {
      PutElsewhere(buf, at, entry, 0, ENTRY);
      PutElsewhere(buf, at, entry, ENTRY, 2 * ENTRY);
    }
    forall j | 0 <= j < k
      ensures after[KidOffset(d, j)..KidOffset(d, j) + ENTRY] == buf[KidOffset(d, j)..KidOffset(d, j) + ENTRY]
    {
      PutElsewhere(buf, at, entry, KidOffset(d, j), KidOffset(d, j) + ENTRY);
    }
  }

  /** What the builder knows of the plan while it writes. */
  ghost predicate Planned(
    plan: Plan, dirList: seq<Path>, order: seq<Path>, files: map<Path, seq<Byte>>, clusters: map<Path, nat>) {
    && plan.Sound() && NonEmpty(dirList) && NonEmpty(order)
    && plan == PlanOf(dirList, order, files, clusters)
    && Lists(dirList, plan.dirs) && Lists(order, files.Keys)
  }

  lemma PlannedKids(
    plan: Plan, dirList: seq<Path>, order: seq<Path>, files: map<Path, seq<Byte>>, clusters: map<Path, nat>, d: Path)
    requires Planned(plan, dirList, order, files, clusters) && plan.IsDirectory(d)
    ensures d in plan.kids && plan.kids[d] == ChildrenIn(dirList, d) + ChildrenIn(order, d)
    ensures plan.files == files && plan.start == clusters
  {
  }

  /** The cluster and the size of a child fit their fields; its entry has its printed name, if there is one. */
  lemma KidHasEntry(plan: Plan, d: Path, k: nat)
    requires plan.Sound() && plan.IsDirectory(d) && d in plan.kids && k < |plan.kids[d]|
    ensures var p := plan.kids[d][k];
      && p in plan.Items() && p != [] && p in plan.start && plan.start[p] < 0x1_0000
      && (p in plan.files ==> |plan.files[p]| < 0x1_0000_0000) && (p in plan.dirs <==> p !in plan.files)
      && (Name83(Last(p).name).Success? ==>
        plan.EntryOf(p) == DirEntry(Name83(Last(p).name).value, if p in plan.dirs then ATTR_DIRECTORY else ATTR_FILE,
                                      plan.start[p], if p in plan.dirs then 0 else |plan.files[p]|))
  {
  }

  method WriteDirectory(
    img: array<Byte>, base: nat, size: nat, d: Path, selfCluster: nat, parentCluster: nat, dirList: seq<Path>,
    order: seq<Path>, files: map<Path, seq<Byte>>, clusters: map<Path, nat>, ghost plan: Plan)
    returns (r: Result<(), BuildError>)
    requires Planned(plan, dirList, order, files, clusters) && plan.IsDirectory(d) && d in plan.kids
    requires 2 * ENTRY <= size && size % ENTRY == 0 && base + size <= img.Length
    requires forall i :: base <= i < base + size ==> img[i] == 0
    requires d != [] ==>
      && d in plan.dirs && d in plan.start && plan.IsDirectory(Parent(d))
      && (Parent(d) != [] ==> Parent(d) in plan.start)
      && selfCluster == plan.ClusterOf(d) < 0x1_0000 && parentCluster == plan.ClusterOf(Parent(d)) < 0x1_0000
    modifies img
    ensures r.Success? <==> KidOffset(d, |plan.kids[d]|) <= size && plan.NamesPrint(d)
    ensures r.Success? ==> HoldsDirectory(img[base..base + size], plan, d)
    ensures forall i :: 0 <= i < img.Length && !(base <= i < base + size) ==> img[i] == old(img[i])
  {
    hide HoldsKids, plan.Sound, plan.EntryOf, DirEntry, Name83, Put, Planned, PlanOf, plan.IsDirectory,
      plan.ClusterOf, ChildrenIn;
    PlannedKids(plan, dirList, order, files, clusters, d);
    PlannedLists(plan, dirList, order, files, clusters);
    ghost var zeros := img[base..base + size];
    if d != [] {
      DotNames();
      var dot := MakeEntry(".", ATTR_DIRECTORY, selfCluster, 0);
      Write(img, base, size, 0, dot.value);
      var dotDot := MakeEntry("..", ATTR_DIRECTORY, parentCluster, 0);
      Write(img, base, size, ENTRY, dotDot.value);
      DotsWritten(zeros, img[base..base + size], plan, d);
    } else {
      RootStarts(zeros, plan);
    }
    var kids := Children(dirList, order, d);
    KidOffsetGrows(d, 0);
    for k := 0 to |kids|
      invariant kids == plan.kids[d] && KidOffset(d, k) <= size
      invariant HoldsKids(img[base..base + size], plan, d, k)
      invariant forall j :: 0 <= j < k ==> kids[j] != [] && Name83(Last(kids[j]).name).Success?
      invariant forall i :: 0 <= i < img.Length && !(base <= i < base + size) ==> img[i] == old(img[i])
    {
      var p, offset := kids[k], KidOffset(d, k);
      KidHasEntry(plan, d, k);
      KidOffsetGrows(d, k);
      var entry;
      if p in files {
        entry := MakeEntry(Last(p).name, ATTR_FILE, clusters[p], |files[p]|);
      } else {
        entry := MakeEntry(Last(p).name, ATTR_DIRECTORY, clusters[p], 0);
      }
      if entry.Failure? { return Failure(entry.error); }
      if offset + ENTRY > size {
        KidOffsetMonotone(d, k + 1, |kids|);
        return Failure(DirectoryFull);
      }
      ghost var before := img[base..base + size];
      Write(img, base, size, offset, entry.value);
      KidWritten(before, img[base..base + size], plan, d, k, entry.value);
    }
    r := Success(());
  }

  /** A write into a window of the image. */
  method Write(img: array<Byte>, base: nat, size: nat, offset: nat, bytes: seq<Byte>)
    requires base + size <= img.Length && offset + |bytes| <= size
    modifies img
    ensures img[base..base + size] == Put(old(img[base..base + size]), offset, bytes)
    ensures forall i :: 0 <= i < img.Length && !(base <= i < base + size) ==> img[i] == old(img[i])
  {
    hide Put;
    ghost var before := img[..];
    Blit(img, base + offset, bytes);
    PutInside(before, base + offset, bytes, base, base + size);
    ghost var after := img[..];
    assert before[base..base + size] == old(img[base..base + size])
      && after[base..base + size] == img[base..base + size];
    assert forall i :: 0 <= i < img.Length ==> img[i] == after[i];
  }

  lemma PlannedLists(
    plan: Plan, dirList: seq<Path>, order: seq<Path>, files: map<Path, seq<Byte>>, clusters: map<Path, nat>)
    requires Planned(plan, dirList, order, files, clusters)
    ensures plan.Sound() && NonEmpty(dirList) && NonEmpty(order) && plan.files == files && plan.start == clusters
    ensures Lists(dirList, plan.dirs) && Lists(order, files.Keys)
  {
  }

  lemma DotNames()
    ensures Name83(".") == Success(DOT_NAME) && Name83("..") == Success(DOT_DOT_NAME)
  {
  }

  lemma RootStarts(zeros: seq<Byte>, plan: Plan)
    requires plan.Sound() && plan.IsDirectory([]) && [] in plan.kids && forall i :: 0 <= i < |zeros| ==> zeros[i] == 0
    ensures HoldsKids(zeros, plan, [], 0)
  {
  }

  lemma KidOffsetGrows(d: Path, k: nat)
    ensures KidOffset(d, 0) == if d == [] then 0 else 2 * ENTRY
    ensures KidOffset(d, k + 1) == KidOffset(d, k) + ENTRY
  {
  }

  lemma KidOffsetMonotone(d: Path, j: nat, k: nat)
    requires j <= k
    ensures KidOffset(d, j) <= KidOffset(d, k)
  {
  }
}
