/** Reading a printed image back: the reader accepts it and its files are the builder's input. */
module EspRoundTrip {
  import opened Wrappers
  import opened Arithmetic
  import opened Bytes
  import opened Fat16
  import opened EspImage
  import opened EspNames

  // ---------------------------------------------------------------- geometry

  function VolumeOf(img: seq<Byte>): Volume {
    Volume(img, 1, SECTOR, ROOT_ENTRIES, FAT_OFFSET, FAT_BYTES, ROOT_OFFSET, DATA_OFFSET, CLUSTER_COUNT)
  }

  lemma HeaderReads(img: seq<Byte>)
    requires BootSector(img)
    ensures ReadHeader(img) == Success(Header(1, 1, 512, 16))
  {
  }

  lemma LayoutReads(img: seq<Byte>)
    requires |img| == TOTAL
    ensures Layout(img, Header(1, 1, 512, 16)) == Success(VolumeOf(img)) && VolumeOf(img).Valid()
  {
  }

  lemma OpenReads(img: seq<Byte>)
    requires BootSector(img)
    requires img[FAT_OFFSET..FAT_OFFSET + FAT_BYTES] == img[FAT_OFFSET + FAT_BYTES..ROOT_OFFSET]
    requires Link(img, 0) == 0xFF00 + MEDIA && Link(img, 1) == END_OF_CHAIN
    ensures Open(img) == Success(VolumeOf(img)) && VolumeOf(img).Valid()
  {
    hide ReadHeader, Layout, U16, U32;
    HeaderReads(img);
    LayoutReads(img);
    assert VolumeOf(img).Fat(0) == Link(img, 0) && VolumeOf(img).Fat(1) == Link(img, 1);
  }

  // ---------------------------------------------------------------- runs of clusters

  function Run(start: nat, n: nat): (r: seq<nat>)
    ensures |r| == n
    ensures forall c :: c in r <==> start <= c < start + n
    decreases n
  {
    if n == 0 then [] else [start] + Run(start + 1, n - 1)
  }

  ghost predicate RunLinked(v: Volume, start: nat, n: nat)
    requires v.Valid()
  {
    && 2 <= start && start + n <= v.clusterCount + 2 <= 0xFFF0
    && forall c: nat :: start <= c < start + n ==> v.Fat(c) == if c + 1 == start + n then END_OF_CHAIN else c + 1
  }

  /** Following a row of linked, unclaimed clusters claims exactly that row. */
  lemma {:induction false} ChainRun(
    v: Volume, start: nat, n: nat, owner: string, seen: set<nat>, claimed: map<nat, string>)
    requires v.Valid() && n > 0 && RunLinked(v, start, n)
    requires forall c: nat :: start <= c < start + n ==> c !in seen && c !in claimed
    ensures match Chain(v, start, owner, seen, claimed)
            case Failure(_) => false
            case Success((clusters, after)) =>
              && clusters == Run(start, n)
              && forall c :: c in after <==> c in claimed || start <= c < start + n
    decreases n
  {
    v.OffsetInside(start);
    assert v.Fat(start) == if n == 1 then END_OF_CHAIN else start + 1;
    if n > 1 {
      ChainRun(v, start + 1, n - 1, owner, seen + {start}, claimed[start := owner]);
    } else {
      assert Run(start, 1) == [start] + Run(start + 1, 0);
    }
  }

  lemma RunInside(v: Volume, start: nat, n: nat)
    requires v.Valid() && 2 <= start && start + n <= v.clusterCount + 2
    ensures v.dataOffset + (start - 2) * v.clusterBytes + n * v.clusterBytes <= |v.data|
  {
    Distribute(start - 2, n, v.clusterBytes);
    MulAtMost(start - 2 + n, v.clusterCount, v.clusterBytes);
  }

  lemma GatherCons(v: Volume, c: nat, rest: seq<nat>)
    requires v.Valid() && v.InRegion(c) && forall r :: r in rest ==> v.InRegion(r)
    ensures v.Offset(c) + v.clusterBytes <= |v.data|
    ensures Gather(v, [c] + rest) == v.data[v.Offset(c)..v.Offset(c) + v.clusterBytes] + Gather(v, rest)
  {
    hide v.Valid;
    v.OffsetInside(c);
    assert ([c] + rest)[1..] == rest;
  }

  lemma SliceSplit<T>(s: seq<T>, at: nat, first: nat, second: nat)
    requires at + first + second <= |s|
    ensures s[at..at + (first + second)] == s[at..at + first] + s[at + first..at + first + second]
  {
  }

  /** The clusters of a row hold one contiguous stretch of the image. */
  lemma {:induction false} GatherRun(v: Volume, start: nat, n: nat, at: nat)
    requires v.Valid() && 2 <= start && start + n <= v.clusterCount + 2
    requires at == v.dataOffset + (start - 2) * v.clusterBytes
    ensures at + n * v.clusterBytes <= |v.data|
    ensures Gather(v, Run(start, n)) == v.data[at..at + n * v.clusterBytes]
    decreases n
  {
    hide v.Valid, Gather;
    RunInside(v, start, n);
    if n > 0 {
      var size := v.clusterBytes;
      Distribute(1, n - 1, size);
      Distribute(start - 2, 1, size);
      GatherRun(v, start + 1, n - 1, at + size);
      GatherCons(v, start, Run(start + 1, n - 1));
      SliceSplit(v.data, at, size, (n - 1) * size);
    } else {
      assert v.data[at..at + 0 * v.clusterBytes] == [];
    }
  }

  // ---------------------------------------------------------------- the tree of paths

  /** A path and everything below it. */
  ghost function Sub(plan: Plan, p: Path): set<Path> {
    set q | q in plan.Items() && p <= q
  }

  /** Everything below the children of a directory from the k-th on, with those children. */
  ghost function Rest(plan: Plan, d: Path, k: nat): set<Path>
    requires d in plan.kids
  {
    set q | q in plan.Items() && exists j :: k <= j < |plan.kids[d]| && plan.kids[d][j] <= q
  }

  lemma KidOf(plan: Plan, d: Path, k: nat)
    requires plan.Sound() && plan.IsDirectory(d)
    ensures d in plan.kids
    ensures k < |plan.kids[d]| ==>
      var kid := plan.kids[d][k];
      kid in plan.Items() && kid != [] && Parent(kid) == d && d <= kid && |kid| == |d| + 1
  {
  }

  lemma KidsDiffer(plan: Plan, d: Path, j: nat, k: nat)
    requires plan.Sound() && plan.IsDirectory(d) && d in plan.kids && j < |plan.kids[d]| && k < |plan.kids[d]| && j != k
    ensures plan.kids[d][j] != plan.kids[d][k]
  {
  }

  lemma IsKid(plan: Plan, p: Path)
    requires plan.Sound() && p in plan.Items()
    ensures p != [] && plan.IsDirectory(Parent(p)) && Parent(p) in plan.kids && p in plan.kids[Parent(p)]
  {
  }

  lemma {:induction false} PrefixesAreItems(plan: Plan, q: Path, n: nat)
    requires plan.Sound() && q in plan.Items() && 0 < n <= |q|
    ensures q[..n] in plan.Items()
    decreases |q|
  {
    hide plan.Sound;
    if n < |q| {
      IsKid(plan, q);
      PrefixesAreItems(plan, Parent(q), n);
      assert Parent(q)[..n] == q[..n];
    } else {
      assert q[..n] == q;
    }
  }

  /** Every path strictly below a directory is below exactly one of its children, or is it. */
  lemma RestIsBelow(plan: Plan, d: Path)
    requires plan.Sound() && plan.IsDirectory(d) && d in plan.kids
    ensures Rest(plan, d, 0) == Sub(plan, d) - {d}
  {
    hide plan.Sound, plan.IsDirectory;
    var kids := plan.kids[d];
    forall q | q in Rest(plan, d, 0)
      ensures q in Sub(plan, d) - {d}
    {
      var j :| 0 <= j < |kids| && kids[j] <= q;
      KidOf(plan, d, j);
    }
    forall q | q in Sub(plan, d) && q != d
      ensures q in Rest(plan, d, 0)
    {
      var kid := q[..|d| + 1];
      PrefixesAreItems(plan, q, |d| + 1);
      assert Parent(kid) == d;
      IsKid(plan, kid);
      var j :| 0 <= j < |kids| && kids[j] == kid;
      assert kids[j] <= q;
    }
  }

  lemma RestSplits(plan: Plan, d: Path, k: nat)
    requires plan.Sound() && plan.IsDirectory(d) && d in plan.kids && k < |plan.kids[d]|
    ensures Rest(plan, d, k) == Sub(plan, plan.kids[d][k]) + Rest(plan, d, k + 1)
    ensures Sub(plan, plan.kids[d][k]) !! Rest(plan, d, k + 1)
  {
    hide plan.Sound, plan.IsDirectory;
    var kids := plan.kids[d];
    forall q | q in Rest(plan, d, k)
      ensures q in Sub(plan, kids[k]) || q in Rest(plan, d, k + 1)
    {
      var j :| k <= j < |kids| && kids[j] <= q;
    }
    forall q | q in Sub(plan, kids[k]) ensures q in Rest(plan, d, k) { assert kids[k] <= q; }
    forall q | q in Rest(plan, d, k + 1)
      ensures q !in Sub(plan, kids[k])
    {
      var j :| k + 1 <= j < |kids| && kids[j] <= q;
      KidOf(plan, d, j);
      KidOf(plan, d, k);
      KidsDiffer(plan, d, j, k);
      assert kids[j] == q[..|d| + 1];
    }
  }

  lemma ItemsSlashFree(plan: Plan, q: Path)
    requires plan.Canonical()
    requires plan.Sound() && q in plan.Items()
    ensures SlashFree(q)
  {
    hide plan.Canonical, plan.Sound, Canonical83, Name83;
    forall i | 0 <= i < |q|
      ensures '/' !in q[i].name
    {
      PrefixesAreItems(plan, q, i + 1);
      ItemCanonical(plan, q[..i + 1]);
      NameRoundTrip(Last(q[..i + 1]).name);
    }
  }

  lemma ItemsTextDiffers(plan: Plan, p: Path, q: Path)
    requires plan.Canonical()
    requires plan.Sound() && p in plan.Items() && q in plan.Items() && Text(p) == Text(q)
    ensures p == q
  {
    hide plan.Sound, Text, Canonical83;
    ItemsSlashFree(plan, p);
    ItemsSlashFree(plan, q);
    TextInjective(p, q);
  }

  // ---------------------------------------------------------------- what the tables reflect

  /** The tables record exactly the paths of `done`, their clusters and their contents. */
  ghost predicate Reflects(plan: Plan, t: Tables, done: set<Path>)
    requires plan.Sound()
  {
    && done <= plan.Items() && PathsReflect(t, done) && ClaimsReflect(plan, t, done) && FilesReflect(plan, t, done)
    && Bounded(plan, done)
  }

  /** What has been recorded is inside the reader's limits. */
  ghost predicate Bounded(plan: Plan, done: set<Path>) {
    |done| <= MAX_PATHS && forall d :: d in done && d in plan.dirs ==> |d| <= MAX_DEPTH
  }

  ghost predicate PathsReflect(t: Tables, done: set<Path>) {
    && (forall s :: s in t.paths <==> exists p :: p in done && Text(p) == s)
    && |t.paths| == |done|
  }

  ghost predicate ClaimsReflect(plan: Plan, t: Tables, done: set<Path>) {
    forall c: nat :: c in t.claimed <==> exists p :: p in done && plan.Owns(p, c)
  }

  ghost predicate FilesReflect(plan: Plan, t: Tables, done: set<Path>) {
    && (forall s :: s in t.files ==> exists p :: p in done && p in plan.files && Text(p) == s)
    && (forall p :: p in done && p in plan.files ==> Text(p) in t.files && t.files[Text(p)] == plan.files[p])
  }

  /** The reader's view of a directory of the plan. */
  ghost predicate Views(plan: Plan, d: Path, dir: Directory)
    requires plan.Sound()
  {
    && plan.IsDirectory(d) && dir.path == Text(d) + "/" && dir.depth == |d|
    && dir.cluster == plan.ClusterOf(d)
    && (d != [] ==> plan.IsDirectory(Parent(d)) && dir.parent == plan.ClusterOf(Parent(d)))
  }

  ghost function EntryFor(plan: Plan, p: Path): Entry
    requires plan.Sound() && p in plan.Items()
  {
    if p in plan.dirs then Entry(ATTR_DIRECTORY, Last(p).name, plan.start[p], 0)
    else Entry(ATTR_FILE, Last(p).name, plan.start[p], |plan.files[p]|)
  }

  lemma ChildText(d: Path, p: Path)
    requires p != [] && Parent(p) == d
    ensures Text(d) + "/" + Last(p).name == Text(p)
  {
  }

  lemma NewPath(plan: Plan, t: Tables, done: set<Path>, p: Path)
    requires plan.Canonical()
    requires plan.Sound() && done <= plan.Items() && PathsReflect(t, done) && p in plan.Items() && p !in done
    ensures Text(p) !in t.paths
  {
    hide plan.Canonical, Text, plan.Sound, plan.Items;
    forall q | q in done && Text(q) == Text(p) ensures q == p { ItemsTextDiffers(plan, p, q); }
  }

  lemma AddPath(plan: Plan, t: Tables, done: set<Path>, p: Path)
    requires plan.Canonical()
    requires plan.Sound() && done <= plan.Items() && PathsReflect(t, done) && p in plan.Items() && p !in done
    ensures Text(p) !in t.paths
    ensures PathsReflect(t.(paths := t.paths + {Text(p)}), done + {p})
    ensures |t.paths + {Text(p)}| <= |plan.Items()|
  {
    hide plan.Canonical, Text, plan.Sound, plan.Items;
    NewPath(plan, t, done, p);
    DoneIsBounded(plan, done + {p});
    PathsGrow(t.paths, done, p);
    assert |t.paths + {Text(p)}| == |t.paths| + 1 && |done + {p}| == |done| + 1;
  }

  lemma PathsGrow(paths: set<string>, done: set<Path>, p: Path)
    requires forall s :: s in paths <==> exists q :: q in done && Text(q) == s
    ensures forall s :: s in paths + {Text(p)} <==> exists q :: q in done + {p} && Text(q) == s
  {
    hide Text;
    forall s | s in paths + {Text(p)}
      ensures exists q :: q in done + {p} && Text(q) == s
    {
      if s in paths {
        var q :| q in done && Text(q) == s;
        assert q in done + {p};
      } else {
        assert p in done + {p};
      }
    }
  }

  lemma DoneIsBounded(plan: Plan, done: set<Path>)
    requires done <= plan.Items()
    ensures |done| <= |plan.Items()|
  {
    var items := plan.Items();
    assert items == done + (items - done);
  }

  /** Placing the entry of a path not yet recorded claims its clusters; it only fails if there are too many paths. */
  lemma PlaceItem(
    plan: Plan, v: Volume, raw: seq<Byte>, at: nat, d: Path, dir: Directory, p: Path, t: Tables, done: set<Path>)
    requires plan.Canonical()
    requires v.Valid() && |raw| == ENTRY && plan.Sound() && Views(plan, d, dir)
    requires v.clusterBytes == SECTOR && v.clusterCount == CLUSTER_COUNT
    requires p in plan.Items() && p != [] && Parent(p) == d && p !in done && Reflects(plan, t, done)
    requires forall c: nat :: plan.Owns(p, c) ==>
      v.Fat(c) == if c + 1 == plan.start[p] + plan.Count(p) then END_OF_CHAIN else c + 1
    ensures match Place(v, raw, at, dir, EntryFor(plan, p), t)
            case Failure(_) => |plan.Items()| > MAX_PATHS
            case Success(placed) =>
              && placed.entries[|t.entries|].clusters == Run(plan.start[p], plan.Count(p))
              && placed.paths == t.paths + {Text(p)} && placed.files == t.files && |done + {p}| <= MAX_PATHS
              && PathsReflect(placed, done + {p}) && ClaimsReflect(plan, placed, done + {p})
  {
    hide plan.Canonical, v.Valid, plan.Sound, Place, FilesReflect, EntryFor, PathsReflect, ClaimsReflect, Bounded,
      Chain, Views, v.Fat, Text, Last, plan.Count, plan.Owns, plan.Items, Parent;
    ViewsPath(plan, d, dir);
    ChildText(d, p);
    AddPath(plan, t, done, p);
    PathCount(t.paths + {Text(p)}, t.(paths := t.paths + {Text(p)}), done + {p});
    if |t.paths + {Text(p)}| > MAX_PATHS {
      PlaceFails(plan, v, raw, at, dir, p, t);
    } else {
      ItemChain(plan, v, p, t, done);
      PlaceItemRuns(plan, v, raw, at, dir, p, t);
      var placed := Place(v, raw, at, dir, EntryFor(plan, p), t).value;
      AddClaims(plan, t, placed, done, p);
      SamePaths(placed, t.(paths := t.paths + {Text(p)}), done + {p});
    }
  }

  lemma PathCount(paths: set<string>, t: Tables, done: set<Path>)
    requires PathsReflect(t, done) && t.paths == paths
    ensures |paths| == |done|
  {
  }

  lemma PlaceFails(plan: Plan, v: Volume, raw: seq<Byte>, at: nat, dir: Directory, p: Path, t: Tables)
    requires v.Valid() && |raw| == ENTRY && plan.Sound() && p in plan.Items()
    requires dir.path + Last(p).name == Text(p) && Text(p) !in t.paths && |t.paths + {Text(p)}| > MAX_PATHS
    ensures Place(v, raw, at, dir, EntryFor(plan, p), t).Failure?
  {
  }

  lemma SamePaths(a: Tables, b: Tables, done: set<Path>)
    requires a.paths == b.paths && PathsReflect(b, done)
    ensures PathsReflect(a, done)
  {
  }

  lemma OwnsRun(plan: Plan, p: Path)
    requires plan.Sound() && p in plan.Items()
    ensures p in plan.start
    ensures forall c: nat :: plan.Owns(p, c) <==> plan.start[p] <= c < plan.start[p] + plan.Count(p)
    ensures plan.Count(p) > 0 ==> 2 <= plan.start[p] && plan.start[p] + plan.Count(p) <= CLUSTER_COUNT + 2
    ensures plan.Count(p) == 0 ==> plan.start[p] == 0
  {
  }

  lemma OwnersDiffer(plan: Plan, p: Path, q: Path, c: nat)
    requires plan.Sound() && plan.Owns(p, c) && plan.Owns(q, c)
    ensures p == q
  {
  }

  /** The clusters of a path not yet recorded are all still unclaimed, and linked in a row. */
  lemma ItemChain(plan: Plan, v: Volume, p: Path, t: Tables, done: set<Path>)
    requires v.Valid() && plan.Sound() && p in plan.Items() && p !in done && ClaimsReflect(plan, t, done)
    requires v.clusterCount == CLUSTER_COUNT
    requires forall c: nat :: plan.Owns(p, c) ==>
      v.Fat(c) == if c + 1 == plan.start[p] + plan.Count(p) then END_OF_CHAIN else c + 1
    ensures p in plan.start
    ensures plan.Count(p) > 0 ==>
      match Chain(v, plan.start[p], Text(p), {}, t.claimed)
      case Failure(_) => false
      case Success((clusters, after)) =>
        && clusters == Run(plan.start[p], plan.Count(p))
        && forall c: nat :: c in after <==> c in t.claimed || plan.start[p] <= c < plan.start[p] + plan.Count(p)
  {
    hide v.Valid, plan.Sound, v.Fat, Chain;
    OwnsRun(plan, p);
    var start, n := plan.start[p], plan.Count(p);
    forall c: nat | start <= c < start + n
      ensures c !in t.claimed
    {
      if c in t.claimed {
        var q :| q in done && plan.Owns(q, c);
        OwnersDiffer(plan, p, q, c);
      }
    }
    if n > 0 {
      ChainRun(v, start, n, Text(p), {}, t.claimed);
    }
  }

  lemma AddClaims(plan: Plan, t: Tables, after: Tables, done: set<Path>, p: Path)
    requires plan.Sound() && p in plan.Items() && p in plan.start && ClaimsReflect(plan, t, done)
    requires forall c: nat :: c in after.claimed <==>
      c in t.claimed || plan.start[p] <= c < plan.start[p] + plan.Count(p)
    ensures ClaimsReflect(plan, after, done + {p})
  {
  }

  lemma PlaceItemRuns(plan: Plan, v: Volume, raw: seq<Byte>, at: nat, dir: Directory, p: Path, t: Tables)
    requires v.Valid() && |raw| == ENTRY && plan.Sound() && p in plan.Items()
    requires v.clusterBytes == SECTOR
    requires dir.path + Last(p).name == Text(p) && Text(p) !in t.paths && |t.paths + {Text(p)}| <= MAX_PATHS
    requires plan.Count(p) > 0 ==>
      match Chain(v, plan.start[p], Text(p), {}, t.claimed)
      case Failure(_) => false
      case Success((clusters, after)) =>
        && clusters == Run(plan.start[p], plan.Count(p))
        && forall c: nat :: c in after <==> c in t.claimed || plan.start[p] <= c < plan.start[p] + plan.Count(p)
    ensures match Place(v, raw, at, dir, EntryFor(plan, p), t)
            case Failure(_) => false
            case Success(placed) =>
              && placed.entries == t.entries + [placed.entries[|t.entries|]]
              && placed.entries[|t.entries|].clusters == Run(plan.start[p], plan.Count(p))
              && placed.paths == t.paths + {Text(p)} && placed.files == t.files
              && forall c: nat :: c in placed.claimed <==>
                c in t.claimed || plan.start[p] <= c < plan.start[p] + plan.Count(p)
  {
    hide v.Valid, Chain, CeilDiv;
    if p in plan.files { CeilDivCovers(|plan.files[p]|, SECTOR); }
  }

  // ---------------------------------------------------------------- one entry at a time

  lemma ScanDot(
    v: Volume, buf: seq<Byte>, dir: Directory, offset: nat, names: set<string>, dots: set<string>, t: Tables, e: Entry)
    requires v.Valid() && Fits(v, buf, dir) && offset % ENTRY == 0 && offset + ENTRY <= |buf| && dir.depth <= MAX_DEPTH
    requires buf[offset] != 0 && buf[offset] != 0xE5
    requires ReadEntry(buf[offset..offset + ENTRY], dir, names) == Success(e)
    requires IsDot(e.name) && CheckDot(e, dir).Success?
    ensures Scan(v, buf, dir, offset, names, dots, t)
         == Scan(v, buf, dir, offset + ENTRY, names + {e.name}, dots + {e.name}, t)
  {
    hide v.Valid, ReadEntry, CheckDot, Absolute, Enter;
  }

  lemma ScanNamed(
    v: Volume, buf: seq<Byte>, dir: Directory, offset: nat, next: nat, names: set<string>, dots: set<string>,
    t: Tables, e: Entry, raw: seq<Byte>, at: nat, after: Tables)
    requires v.Valid() && Fits(v, buf, dir) && dir.depth <= MAX_DEPTH
    requires offset % ENTRY == 0 && next % ENTRY == 0 && next == offset + ENTRY && offset < next <= |buf|
      && |raw| == ENTRY
    requires at == Absolute(v, buf, dir, offset) && Enter(v, raw, at, dir, e, t) == Success(after)
    requires raw == buf[offset..next] && raw[0] != 0 && raw[0] != 0xE5
    requires ReadEntry(raw, dir, names) == Success(e) && !IsDot(e.name)
    ensures Scan(v, buf, dir, offset, names, dots, t) == Scan(v, buf, dir, next, names + {e.name}, dots, after)
  {
    hide v.Valid, ReadEntry, CheckDot, Absolute, Enter, Fits;
  }

  lemma ScanFails(
    v: Volume, buf: seq<Byte>, dir: Directory, offset: nat, next: nat, names: set<string>, dots: set<string>,
    t: Tables, e: Entry, raw: seq<Byte>, at: nat)
    requires v.Valid() && Fits(v, buf, dir) && dir.depth <= MAX_DEPTH
    requires offset % ENTRY == 0 && next == offset + ENTRY && offset < next <= |buf| && |raw| == ENTRY
    requires at == Absolute(v, buf, dir, offset) && Enter(v, raw, at, dir, e, t).Failure?
    requires raw == buf[offset..next] && raw[0] != 0 && raw[0] != 0xE5
    requires ReadEntry(raw, dir, names) == Success(e) && !IsDot(e.name)
    ensures Scan(v, buf, dir, offset, names, dots, t).Failure?
  {
  }

  lemma KidRaw(plan: Plan, buf: seq<Byte>, d: Path, k: nat)
    requires plan.Sound() && plan.IsDirectory(d) && d in plan.kids && HoldsDirectory(buf, plan, d) && k < |plan.kids[d]|
    ensures var kid, offset := plan.kids[d][k], KidOffset(d, k);
      && kid in plan.Items() && Name83(Last(kid).name).Success?
      && offset + ENTRY <= |buf| && buf[offset..offset + ENTRY] == plan.EntryOf(kid)
  {
  }

  lemma EntryOfReads(plan: Plan, p: Path, dir: Directory, names: set<string>)
    requires plan.Sound() && p in plan.Items() && p != [] && Name83(Last(p).name).Success?
      && Canonical83(Last(p).name) && Last(p).name !in names
    ensures var raw := plan.EntryOf(p);
      raw[0] != 0 && raw[0] != 0xE5 && ReadEntry(raw, dir, names) == Success(EntryFor(plan, p)) && !IsDot(Last(p).name)
  {
    hide plan.Sound, Name, Name83, ReadEntry, Canonical83, DirEntry, IsDot;
    plan.StartFits(p);
    NameRoundTrip(Last(p).name);
    var short, e := Name83(Last(p).name).value, EntryFor(plan, p);
    EntryFields(short, e.attr, e.first, e.size);
    EntryRoundTrip(short, Last(p).name, e.attr, e.first, e.size, dir, names);
  }

  lemma ItemCanonical(plan: Plan, p: Path)
    requires plan.Canonical()
    requires plan.Sound() && p in plan.Items()
    ensures p != [] && Canonical83(Last(p).name)
  {
    hide plan.Allocated, Canonical83;
  }

  lemma KidReads(plan: Plan, buf: seq<Byte>, d: Path, k: nat, p: Path, offset: nat, dir: Directory, names: set<string>)
    requires plan.Canonical()
    requires plan.Sound() && plan.IsDirectory(d) && d in plan.kids && HoldsDirectory(buf, plan, d)
    requires k < |plan.kids[d]| && p == plan.kids[d][k] && offset == KidOffset(d, k)
    requires p != [] && Last(p).name !in names
    ensures p in plan.Items() && offset + ENTRY <= |buf|
    ensures var raw := buf[offset..offset + ENTRY];
      raw[0] != 0 && raw[0] != 0xE5 && ReadEntry(raw, dir, names) == Success(EntryFor(plan, p)) && !IsDot(Last(p).name)
  {
    hide plan.Canonical, plan.Sound, plan.EntryOf, EntryFor, ReadEntry, IsDot, HoldsDirectory, Canonical83;
    KidRaw(plan, buf, d, k);
    ItemCanonical(plan, p);
    EntryOfReads(plan, p, dir, names);
  }

  lemma DotsRead(plan: Plan, buf: seq<Byte>, d: Path, dir: Directory)
    requires plan.Sound() && d in plan.dirs && d in plan.kids && HoldsDirectory(buf, plan, d) && Views(plan, d, dir)
    ensures 2 * ENTRY <= |buf| && buf[0] == 46 && buf[ENTRY] == 46
    ensures var dot, dotDot := Entry(ATTR_DIRECTORY, ".", dir.cluster, 0), Entry(ATTR_DIRECTORY, "..", dir.parent, 0);
      && ReadEntry(buf[..ENTRY], dir, {}) == Success(dot) && CheckDot(dot, dir).Success?
      && ReadEntry(buf[ENTRY..2 * ENTRY], dir, {"."}) == Success(dotDot) && CheckDot(dotDot, dir).Success?
  {
    hide plan.Sound, ReadEntry;
    DirectoryIsItem(plan, d);
    EntryFields(DOT_NAME, ATTR_DIRECTORY, dir.cluster, 0);
    EntryFields(DOT_DOT_NAME, ATTR_DIRECTORY, dir.parent, 0);
    EntryRoundTrip(DOT_NAME, ".", ATTR_DIRECTORY, dir.cluster, 0, dir, {});
    EntryRoundTrip(DOT_DOT_NAME, "..", ATTR_DIRECTORY, dir.parent, 0, dir, {"."});
    assert buf[0] == buf[..ENTRY][0] && buf[ENTRY] == buf[ENTRY..2 * ENTRY][0];
    assert Text(d) != "" by { assert Text(d) == Text(Parent(d)) + "/" + Last(d).name; }
  }

  // ---------------------------------------------------------------- the walk over the tree

  /** A printed image of canonical names and the volume it opens as. */
  ghost predicate Reading(plan: Plan, v: Volume) {
    && Printed(v.data, plan) && plan.Canonical() && v == VolumeOf(v.data) && v.Valid()
  }

  lemma PrintedFile(img: seq<Byte>, plan: Plan, f: Path)
    requires Printed(img, plan) && f in plan.files && plan.files[f] != []
    ensures |img| == TOTAL && plan.Sound() && f in plan.start && plan.start[f] >= 2 && FileWritten(img, plan, f)
  {
    hide Linked, HoldsDirectory, DirectoryWritten, FileWritten, plan.Tree;
  }

  lemma PrintedDirectory(img: seq<Byte>, plan: Plan, d: Path)
    requires Printed(img, plan) && d in plan.dirs
    ensures |img| == TOTAL && plan.Sound() && DirectoryWritten(img, plan, d)
  {
    hide Linked, HoldsDirectory, DirectoryWritten, FileWritten, plan.Sound;
  }

  lemma ReadingSize(plan: Plan, v: Volume)
    requires Reading(plan, v)
    ensures |v.data| == TOTAL
  {
  }

  lemma ReadingParts(plan: Plan, v: Volume)
    requires Reading(plan, v)
    ensures |v.data| == TOTAL && v == VolumeOf(v.data) && v.Valid() && plan.Sound() && Linked(v.data, plan)
  {
  }

  lemma LinkIsRead(v: Volume, c: nat)
    requires |v.data| == TOTAL && v == VolumeOf(v.data) && v.Valid() && 2 <= c < CLUSTER_COUNT + 2
    ensures v.InRegion(c) && v.Fat(c) == Link(v.data, c)
  {
  }

  lemma ReadingLinks(plan: Plan, v: Volume, p: Path)
    requires Reading(plan, v) && p in plan.Items()
    ensures plan.Sound() && p in plan.start
    ensures forall c: nat :: plan.Owns(p, c) ==>
      v.InRegion(c) && v.Fat(c) == if c + 1 == plan.start[p] + plan.Count(p) then END_OF_CHAIN else c + 1
  {
    hide Reading, plan.Sound, plan.Owns, v.Valid, v.Fat, Link;
    ReadingParts(plan, v);
    OwnsRun(plan, p);
    forall c: nat | plan.Owns(p, c)
      ensures v.InRegion(c) && v.Fat(c) == if c + 1 == plan.start[p] + plan.Count(p) then END_OF_CHAIN else c + 1
    {
      LinkIsRead(v, c);
    }
  }

  lemma FileContent(plan: Plan, v: Volume, f: Path)
    requires Reading(plan, v) && f in plan.files && plan.Sound() && f in plan.start
    requires forall c :: c in Run(plan.start[f], plan.Count(f)) ==> v.InRegion(c)
    ensures var payload := Gather(v, Run(plan.start[f], plan.Count(f)));
      |payload| >= |plan.files[f]| && payload[..|plan.files[f]|] == plan.files[f]
  {
    hide plan.Sound, v.Valid, Gather, Printed;
    var start, n, content := plan.start[f], plan.Count(f), plan.files[f];
    OwnsRun(plan, f);
    FileCount(plan, f);
    CeilDivCovers(|content|, SECTOR);
    if content != [] {
      PrintedFile(v.data, plan, f);
      GatherRun(v, start, n, ClusterAt(start));
      PrefixOfSlice(v.data, ClusterAt(start), n * SECTOR, |content|);
    }
  }

  lemma PrefixOfSlice<T>(s: seq<T>, at: nat, long: nat, short: nat)
    requires short <= long && at + long <= |s|
    ensures s[at..at + long][..short] == s[at..at + short]
  {
  }

  lemma FileCount(plan: Plan, f: Path)
    requires plan.Sound() && f in plan.files
    ensures plan.Count(f) == CeilDiv(|plan.files[f]|, SECTOR)
  {
  }

  lemma FilesHaveNothingBelow(plan: Plan, f: Path)
    requires plan.Sound() && f in plan.files
    ensures Sub(plan, f) == {f}
  {
    forall q | q in Sub(plan, f) && q != f
      ensures plan.IsDirectory(f)
    {
      var kid := q[..|f| + 1];
      PrefixesAreItems(plan, q, |f| + 1);
      IsKid(plan, kid);
      assert Parent(kid) == f;
    }
    IsKid(plan, f);
    FilesAreNotDirectories(plan, f);
  }

  lemma FilesAreNotDirectories(plan: Plan, f: Path)
    requires plan.Sound() && f in plan.files
    ensures f != [] && !plan.IsDirectory(f)
  {
  }

  lemma DirectoryBuffer(plan: Plan, v: Volume, d: Path)
    requires Reading(plan, v) && d in plan.dirs && plan.Sound()
    ensures d in plan.start && v.InRegion(plan.start[d]) && plan.Count(d) == 1 && d in plan.kids && plan.IsDirectory(d)
    ensures HoldsDirectory(Gather(v, Run(plan.start[d], 1)), plan, d)
  {
    hide v.Valid, HoldsDirectory, Gather, plan.Sound, Printed;
    OwnsRun(plan, d);
    DirectoryHasKids(plan, d);
    PrintedDirectory(v.data, plan, d);
    GatherRun(v, plan.start[d], 1, ClusterAt(plan.start[d]));
  }

  lemma DirectoryHasKids(plan: Plan, d: Path)
    requires plan.Sound() && d in plan.dirs
    ensures d in plan.kids && plan.Count(d) == 1
  {
  }

  /** Walking a printed directory records exactly what is below it, or the plan is outside the reader's profile. */
  lemma {:induction false} WalkReads(
    plan: Plan, v: Volume, buf: seq<Byte>, d: Path, dir: Directory, t: Tables, done: set<Path>)
    requires v.Valid() && Fits(v, buf, dir) && dir.depth <= MAX_DEPTH
    requires plan.Sound() && plan.IsDirectory(d) && d in plan.kids && HoldsDirectory(buf, plan, d)
    requires Reading(plan, v) && Views(plan, d, dir) && |d| <= MAX_DEPTH
    requires Reflects(plan, t, done) && done !! Sub(plan, d) - {d}
    ensures match Walk(v, buf, dir, t)
            case Failure(_) => !plan.WithinProfile()
            case Success(after) => Reflects(plan, after, done + (Sub(plan, d) - {d}))
    decreases 20 - |d|, |plan.kids[d]| + 2
  {
    hide plan.Canonical, CheckDot, ReadEntry, plan.Sound, v.Valid, HoldsDirectory, Reading, Scan, Reflects, Views,
      plan.IsDirectory, plan.WithinProfile, Fits, Text, Sub, Rest, Last;
    ReadingVolume(plan, v);
    KidOffsets(d, 0);
    RestIsBelow(plan, d);
    KidsAreNotDots(plan, d);
    if d == [] {
        ScanReads(plan, v, buf, d, dir, 0, {}, {}, t, done);
    } else {
      ViewsFacts(plan, d, dir);
      DotsRead(plan, buf, d, dir);
      ScanDots(v, buf, dir, t, Entry(ATTR_DIRECTORY, ".", dir.cluster, 0), Entry(ATTR_DIRECTORY, "..", dir.parent, 0));
      ScanReads(plan, v, buf, d, dir, 0, {".", ".."}, {".", ".."}, t, done);
    }
  }

  /** Two dot entries at the start of a directory are passed over. */
  lemma ScanDots(v: Volume, buf: seq<Byte>, dir: Directory, t: Tables, dot: Entry, dotDot: Entry)
    requires v.Valid() && Fits(v, buf, dir) && dir.depth <= MAX_DEPTH
    requires 2 * ENTRY <= |buf| && buf[0] == 46 && buf[ENTRY] == 46 && dot.name == "." && dotDot.name == ".."
    requires ReadEntry(buf[..ENTRY], dir, {}) == Success(dot) && CheckDot(dot, dir).Success?
    requires ReadEntry(buf[ENTRY..2 * ENTRY], dir, {"."}) == Success(dotDot) && CheckDot(dotDot, dir).Success?
    ensures Scan(v, buf, dir, 0, {}, {}, t) == Scan(v, buf, dir, 2 * ENTRY, {".", ".."}, {".", ".."}, t)
  {
    hide v.Valid, Scan, CheckDot, ReadEntry;
    ScanDot(v, buf, dir, 0, {}, {}, t, dot);
    assert {} + {"."} == {"."};
    ScanDot(v, buf, dir, ENTRY, {"."}, {"."}, t, dotDot);
    assert {"."} + {".."} == {".", ".."};
  }

  lemma ViewsFacts(plan: Plan, d: Path, dir: Directory)
    requires plan.Sound() && Views(plan, d, dir)
    ensures plan.IsDirectory(d) && dir.depth == |d| && (dir.path == "/" <==> d == []) && (d != [] ==> d in plan.dirs)
  {
  }

  lemma KidsAreNotDots(plan: Plan, d: Path)
    requires plan.Canonical()
    requires plan.Sound() && plan.IsDirectory(d) && d in plan.kids
    ensures forall j :: 0 <= j < |plan.kids[d]| ==> plan.kids[d][j] != [] && Last(plan.kids[d][j]).name !in {".", ".."}
  {
    hide plan.Sound, Canonical83, plan.IsDirectory;
    forall j | 0 <= j < |plan.kids[d]|
      ensures plan.kids[d][j] != [] && Last(plan.kids[d][j]).name !in {".", ".."}
    {
      KidOf(plan, d, j);
      ItemCanonical(plan, plan.kids[d][j]);
      NameRoundTrip(Last(plan.kids[d][j]).name);
    }
  }

  /** The names of the children from the k-th on are still free. */
  ghost predicate NamesFree(plan: Plan, d: Path, k: nat, names: set<string>)
    requires d in plan.kids
  {
    forall j :: k <= j < |plan.kids[d]| ==> plan.kids[d][j] != [] && Last(plan.kids[d][j]).name !in names
  }

  lemma NamesStayFree(plan: Plan, d: Path, k: nat, names: set<string>)
    requires plan.Canonical()
    requires plan.Sound() && plan.IsDirectory(d) && d in plan.kids && k < |plan.kids[d]| && NamesFree(plan, d, k, names)
    ensures NamesFree(plan, d, k + 1, names + {Last(plan.kids[d][k]).name})
  {
    hide plan.Sound, plan.IsDirectory;
    var kids := plan.kids[d];
    forall j | k + 1 <= j < |kids|
      ensures kids[j] != [] && Last(kids[j]).name !in names + {Last(kids[k]).name}
    {
      KidOf(plan, d, j);
      KidOf(plan, d, k);
      KidsDiffer(plan, d, j, k);
      LastNamesDiffer(plan, kids[j], kids[k]);
    }
  }

  lemma LastNamesDiffer(plan: Plan, p: Path, q: Path)
    requires plan.Canonical() && p in plan.Items() && q in plan.Items() && p != q && p != [] && q != []
      && Parent(p) == Parent(q)
    ensures Last(p).name != Last(q).name
  {
    hide Canonical83;
    if Last(p).name == Last(q).name { NamesEqual(p, q); }
  }

  lemma NamesEqual(p: Path, q: Path)
    requires p != [] && q != [] && Parent(p) == Parent(q) && Last(p).name == Last(q).name
    ensures Names(p) == Names(q)
  {
    assert Names(p) == Names(Parent(p)) + [Last(p).name] && Names(q) == Names(Parent(q)) + [Last(q).name];
  }

  /** After its children's entries the directory ends. */
  lemma ScanEnds(
    plan: Plan, v: Volume, buf: seq<Byte>, d: Path, dir: Directory, offset: nat, names: set<string>,
    dots: set<string>, t: Tables)
    requires v.Valid() && plan.Sound() && plan.IsDirectory(d) && d in plan.kids && HoldsDirectory(buf, plan, d)
    requires Fits(v, buf, dir) && dir.depth <= MAX_DEPTH && (dir.path != "/" ==> dots == {".", ".."})
    requires offset == KidOffset(d, |plan.kids[d]|)
    ensures offset <= |buf| && offset % ENTRY == 0 && Scan(v, buf, dir, offset, names, dots, t) == Success(t)
  {
  }

  lemma KidOffsets(d: Path, k: nat)
    ensures KidOffset(d, k) == ((if d == [] then 0 else 2) + k) * ENTRY
    ensures KidOffset(d, k + 1) == KidOffset(d, k) + ENTRY
  {
  }

  /** One step over the k-th child, given what its subtree leaves behind. */
  lemma ScanStep(
    plan: Plan, v: Volume, buf: seq<Byte>, d: Path, dir: Directory, k: nat, p: Path, names: set<string>,
    dots: set<string>, t: Tables, at: nat, after: Tables)
    requires plan.Canonical()
    requires plan.Sound() && plan.IsDirectory(d) && d in plan.kids && HoldsDirectory(buf, plan, d)
    requires v.Valid() && Fits(v, buf, dir) && dir.depth <= MAX_DEPTH
    requires k < |plan.kids[d]| && p == plan.kids[d][k] && p in plan.Items() && p != [] && Last(p).name !in names
    requires KidOffset(d, k) + ENTRY <= |buf| && at == Absolute(v, buf, dir, KidOffset(d, k))
    requires Enter(v, buf[KidOffset(d, k)..KidOffset(d, k) + ENTRY], at, dir, EntryFor(plan, p), t) == Success(after)
    ensures Scan(v, buf, dir, KidOffset(d, k), names, dots, t)
         == Scan(v, buf, dir, KidOffset(d, k + 1), names + {Last(p).name}, dots, after)
  {
    hide plan.Canonical, plan.Sound, v.Valid, HoldsDirectory, Scan, ReadEntry, Absolute, Enter, EntryFor, IsDot,
      KidOffset, Fits;
    var offset := KidOffset(d, k);
    KidOffsets(d, k);
    KidReads(plan, buf, d, k, p, offset, dir, names);
    EntryForName(plan, p);
    ScanNamed(v, buf, dir, offset, KidOffset(d, k + 1), names, dots, t, EntryFor(plan, p),
      buf[offset..offset + ENTRY], at, after);
  }

  /** A child that fails ends the scan. */
  lemma ScanStops(
    plan: Plan, v: Volume, buf: seq<Byte>, d: Path, dir: Directory, k: nat, p: Path, names: set<string>,
    dots: set<string>, t: Tables, at: nat)
    requires plan.Canonical()
    requires plan.Sound() && plan.IsDirectory(d) && d in plan.kids && HoldsDirectory(buf, plan, d)
    requires v.Valid() && Fits(v, buf, dir) && dir.depth <= MAX_DEPTH
    requires k < |plan.kids[d]| && p == plan.kids[d][k] && p in plan.Items() && p != [] && Last(p).name !in names
    requires KidOffset(d, k) + ENTRY <= |buf| && at == Absolute(v, buf, dir, KidOffset(d, k))
    requires Enter(v, buf[KidOffset(d, k)..KidOffset(d, k) + ENTRY], at, dir, EntryFor(plan, p), t).Failure?
    ensures KidOffset(d, k) % ENTRY == 0 && Scan(v, buf, dir, KidOffset(d, k), names, dots, t).Failure?
  {
    hide plan.Canonical, plan.Sound, v.Valid, HoldsDirectory, Scan, ReadEntry, Absolute, Enter, EntryFor, IsDot,
      KidOffset, Fits;
    var offset := KidOffset(d, k);
    KidOffsets(d, k);
    KidReads(plan, buf, d, k, p, offset, dir, names);
    EntryForName(plan, p);
    ScanFails(v, buf, dir, offset, offset + ENTRY, names, dots, t, EntryFor(plan, p), buf[offset..offset + ENTRY], at);
  }

  lemma KidInside(plan: Plan, buf: seq<Byte>, d: Path, k: nat)
    requires plan.Sound() && plan.IsDirectory(d) && d in plan.kids && HoldsDirectory(buf, plan, d)
    requires k <= |plan.kids[d]|
    ensures KidOffset(d, k) <= |buf|
    ensures k < |plan.kids[d]| ==> KidOffset(d, k) + ENTRY <= |buf|
  {
  }

  /** Scanning from the k-th child on records exactly the children from there and everything below them. */
  lemma {:induction false} ScanReads(
    plan: Plan, v: Volume, buf: seq<Byte>, d: Path, dir: Directory, k: nat, names: set<string>, dots: set<string>,
    t: Tables, done: set<Path>)
    requires v.Valid() && Fits(v, buf, dir) && dir.depth <= MAX_DEPTH
    requires plan.Sound() && plan.IsDirectory(d) && d in plan.kids && HoldsDirectory(buf, plan, d)
    requires Reading(plan, v) && Views(plan, d, dir) && |d| <= MAX_DEPTH
    requires Reflects(plan, t, done) && k <= |plan.kids[d]| && done !! Rest(plan, d, k)
    requires NamesFree(plan, d, k, names) && (d != [] ==> dots == {".", ".."})
    ensures KidOffset(d, k) <= |buf|
    ensures match Scan(v, buf, dir, KidOffset(d, k), names, dots, t)
            case Failure(_) => !plan.WithinProfile()
            case Success(after) => Reflects(plan, after, done + Rest(plan, d, k))
    decreases 20 - |d|, |plan.kids[d]| - k + 1
  {
    hide plan.Canonical, plan.Sound, v.Valid, HoldsDirectory, Reading, Scan, Reflects, Views, NamesFree, KidOffset,
      Fits, plan.IsDirectory, plan.WithinProfile, ReadEntry, Absolute, Enter, EntryFor, Sub, Text, Rest;
    ReadingVolume(plan, v);
    KidInside(plan, buf, d, k);
    if k == |plan.kids[d]| {
      ViewsFacts(plan, d, dir);
      KidOffsets(d, k);
      ScanEnds(plan, v, buf, d, dir, KidOffset(d, k), names, dots, t);
      RestEnds(plan, d);
      assert done + {} == done;
    } else {
      var p := plan.kids[d][k];
      KidOf(plan, d, k);
      FirstNameFree(plan, d, k, names);
      RestSplits(plan, d, k);
      Disjoint(done, Rest(plan, d, k), Sub(plan, p), Rest(plan, d, k + 1));
      var offset := KidOffset(d, k);
      var at, raw := Absolute(v, buf, dir, offset), buf[offset..offset + ENTRY];
      EnterReads(plan, v, raw, at, d, dir, p, t, done);
      var entered := Enter(v, raw, at, dir, EntryFor(plan, p), t);
      if entered.Failure? {
        ScanStops(plan, v, buf, d, dir, k, p, names, dots, t, at);
      } else {
        ScanStep(plan, v, buf, d, dir, k, p, names, dots, t, at, entered.value);
        NamesStayFree(plan, d, k, names);
        ScanReads(plan, v, buf, d, dir, k + 1, names + {Last(p).name}, dots, entered.value, done + Sub(plan, p));
      }
    }
  }

  lemma RestEnds(plan: Plan, d: Path)
    requires d in plan.kids
    ensures Rest(plan, d, |plan.kids[d]|) == {}
  {
  }

  lemma Disjoint<T>(done: set<T>, all: set<T>, first: set<T>, rest: set<T>)
    requires all == first + rest && first !! rest && done !! all
    ensures done !! first && done + first !! rest && done + all == done + first + rest
  {
  }

  lemma FirstNameFree(plan: Plan, d: Path, k: nat, names: set<string>)
    requires d in plan.kids && k < |plan.kids[d]| && NamesFree(plan, d, k, names)
    ensures plan.kids[d][k] != [] && Last(plan.kids[d][k]).name !in names
  {
  }

  lemma SubHasSelf(plan: Plan, p: Path)
    requires p in plan.Items()
    ensures p in Sub(plan, p)
  {
  }

  lemma EntryForName(plan: Plan, p: Path)
    requires plan.Sound() && p in plan.Items() && p != []
    ensures EntryFor(plan, p).name == Last(p).name && p in plan.start
    ensures EntryFor(plan, p).attr == if p in plan.dirs then ATTR_DIRECTORY else ATTR_FILE
    ensures EntryFor(plan, p).size == if p in plan.dirs then 0 else |plan.files[p]|
    ensures EntryFor(plan, p).first == plan.start[p]
  {
  }

  lemma FileEntered(
    plan: Plan, v: Volume, raw: seq<Byte>, at: nat, d: Path, dir: Directory, p: Path, t: Tables, done: set<Path>)
    requires Reading(plan, v) && plan.Sound() && Views(plan, d, dir) && |d| <= MAX_DEPTH && |raw| == ENTRY
      && dir.depth <= MAX_DEPTH
    requires p in plan.files && p != [] && Parent(p) == d && p !in plan.dirs
    requires Reflects(plan, t, done) && done !! Sub(plan, p)
    requires v.Valid() && Place(v, raw, at, dir, EntryFor(plan, p), t).Success?
    ensures match Enter(v, raw, at, dir, EntryFor(plan, p), t)
            case Failure(_) => false
            case Success(after) => Reflects(plan, after, done + Sub(plan, p))
  {
    hide plan.Canonical, plan.Sound, v.Valid, HoldsDirectory, Printed, Views, Place, Walk, EntryFor, FilesReflect,
      PathsReflect, ClaimsReflect, Bounded, plan.WithinProfile, Gather, Text, Sub;
    SubHasSelf(plan, p);
    EntryForName(plan, p);
    ReadingLinks(plan, v, p);
    ReadingVolume(plan, v);
    PlaceItem(plan, v, raw, at, d, dir, p, t, done);
    var e := EntryFor(plan, p);
    var placed := Place(v, raw, at, dir, e, t).value;
    FilesHaveNothingBelow(plan, p);
    FileContent(plan, v, p);
    var after := Enter(v, raw, at, dir, e, t).value;
    ChildText(d, p);
    ViewsPath(plan, d, dir);
    BoundedGrows(plan, done, p);
    FileAdded(plan, t, placed, after, done, p);
  }

  lemma {:induction false} EnterReads(
    plan: Plan, v: Volume, raw: seq<Byte>, at: nat, d: Path, dir: Directory, p: Path, t: Tables, done: set<Path>)
    requires Reading(plan, v) && plan.Sound() && Views(plan, d, dir) && |d| <= MAX_DEPTH && |raw| == ENTRY
      && dir.depth <= MAX_DEPTH
    requires p in plan.Items() && p != [] && Parent(p) == d
    requires Reflects(plan, t, done) && done !! Sub(plan, p)
    ensures match Enter(v, raw, at, dir, EntryFor(plan, p), t)
            case Failure(_) => !plan.WithinProfile()
            case Success(after) => Reflects(plan, after, done + Sub(plan, p))
    decreases 20 - |d|, 0
  {
    hide plan.Canonical, plan.Sound, v.Valid, HoldsDirectory, Printed, Views, Place, Walk, EntryFor, FilesReflect,
      PathsReflect, ClaimsReflect, Bounded, plan.WithinProfile, Gather, Text, Sub;
    SubHasSelf(plan, p);
    EntryForName(plan, p);
    ReadingLinks(plan, v, p);
    ReadingVolume(plan, v);
    PlaceItem(plan, v, raw, at, d, dir, p, t, done);
    ProfileLimits(plan, p);
    var e := EntryFor(plan, p);
    if Place(v, raw, at, dir, e, t).Success? {
      var placed := Place(v, raw, at, dir, e, t).value;
      var run := placed.entries[|t.entries|].clusters;
      if p in plan.dirs {
        DirectoryBuffer(plan, v, p);
        var sub := SubDirectory(v, dir, e, run);
        SubViews(plan, v, d, dir, p, e, run, sub);
        ViewsFacts(plan, p, sub);
        if |p| > MAX_DEPTH {
          WalkTooDeep(v, Gather(v, run), sub, placed);
        } else {
          BoundedGrows(plan, done, p);
          FilesUnchanged(plan, t, placed, done, p);
          WalkReads(plan, v, Gather(v, run), p, sub, placed, done + {p});
          assert done + {p} + (Sub(plan, p) - {p}) == done + Sub(plan, p);
        }
      } else {
        FileEntered(plan, v, raw, at, d, dir, p, t, done);
      }
    }
  }

  lemma ProfileLimits(plan: Plan, p: Path)
    ensures |plan.Items()| > MAX_PATHS ==> !plan.WithinProfile()
    ensures p in plan.dirs && |p| > MAX_DEPTH ==> !plan.WithinProfile()
  {
  }

  lemma WalkTooDeep(v: Volume, buf: seq<Byte>, dir: Directory, t: Tables)
    requires v.Valid() && Fits(v, buf, dir) && dir.depth > MAX_DEPTH
    ensures Walk(v, buf, dir, t).Failure?
  {
  }

  lemma BoundedGrows(plan: Plan, done: set<Path>, p: Path)
    requires Bounded(plan, done) && |done + {p}| <= MAX_PATHS && (p in plan.dirs ==> |p| <= MAX_DEPTH)
    ensures Bounded(plan, done + {p})
  {
  }

  lemma ReadingVolume(plan: Plan, v: Volume)
    requires Reading(plan, v)
    ensures v.clusterBytes == SECTOR && v.clusterCount == CLUSTER_COUNT && plan.Canonical()
  {
  }

  lemma ViewsPath(plan: Plan, d: Path, dir: Directory)
    requires plan.Sound() && Views(plan, d, dir)
    ensures dir.path == Text(d) + "/"
  {
  }

  lemma SubViews(plan: Plan, v: Volume, d: Path, dir: Directory, p: Path, e: Entry, run: seq<nat>, sub: Directory)
    requires v.Valid() && plan.Sound() && Views(plan, d, dir) && p in plan.dirs && p != [] && Parent(p) == d
      && p in plan.start
    requires e.name == Last(p).name && e.first == plan.start[p]
    requires run != [] && (forall c :: c in run ==> v.InRegion(c)) && sub == SubDirectory(v, dir, e, run)
    ensures Views(plan, p, sub)
  {
    hide plan.Sound, v.Valid, Gather, v.Offset;
    ChildText(d, p);
  }

  lemma DirectoryIsItem(plan: Plan, p: Path)
    requires plan.Sound() && p in plan.dirs
    ensures p in plan.Items() && p !in plan.files && p != []
  {
  }

  lemma FilesUnchanged(plan: Plan, t: Tables, placed: Tables, done: set<Path>, p: Path)
    requires plan.Sound() && Reflects(plan, t, done) && placed.files == t.files && p in plan.dirs
    requires PathsReflect(placed, done + {p}) && ClaimsReflect(plan, placed, done + {p}) && Bounded(plan, done + {p})
    ensures Reflects(plan, placed, done + {p})
  {
    hide Text, plan.Sound, PathsReflect, ClaimsReflect, Bounded;
    DirectoryIsItem(plan, p);
  }

  lemma FileAdded(plan: Plan, t: Tables, placed: Tables, after: Tables, done: set<Path>, p: Path)
    requires plan.Canonical()
    requires plan.Sound() && Reflects(plan, t, done) && p in plan.files && p !in done
    requires placed.files == t.files && PathsReflect(placed, done + {p}) && ClaimsReflect(plan, placed, done + {p})
    requires after == placed.(files := t.files[Text(p) := plan.files[p]]) && Bounded(plan, done + {p})
    ensures Reflects(plan, after, done + {p})
  {
    hide plan.Canonical, plan.Sound, Text, PathsReflect, ClaimsReflect, FilesReflect, Bounded;
    SamePaths(after, placed, done + {p});
    FileRecorded(plan, t, after, done, p);
    SameClaims(plan, after, placed, done + {p});
  }

  lemma FileRecorded(plan: Plan, t: Tables, after: Tables, done: set<Path>, p: Path)
    requires plan.Canonical() && plan.Sound() && FilesReflect(plan, t, done)
    requires done <= plan.Items() && p in plan.files && p !in done && after.files == t.files[Text(p) := plan.files[p]]
    ensures FilesReflect(plan, after, done + {p})
  {
    hide plan.Canonical, plan.Sound, Text;
    forall q | q in done && q in plan.files
      ensures Text(q) in after.files && after.files[Text(q)] == plan.files[q]
    {
      if Text(q) == Text(p) { ItemsTextDiffers(plan, p, q); }
    }
    forall s | s in after.files
      ensures exists q :: q in done + {p} && q in plan.files && Text(q) == s
    {
      if s in t.files {
        var q :| q in done && q in plan.files && Text(q) == s;
        assert q in done + {p};
      } else {
        assert p in done + {p};
      }
    }
  }

  lemma SameClaims(plan: Plan, a: Tables, b: Tables, done: set<Path>)
    requires a.claimed == b.claimed && ClaimsReflect(plan, b, done)
    ensures ClaimsReflect(plan, a, done)
  {
  }

  // ---------------------------------------------------------------- the round trip

  lemma {:induction false} LeaksPass(v: Volume, from: nat, claimed: map<nat, string>)
    requires v.Valid() && 2 <= from <= v.clusterCount + 2
    requires forall c: nat :: v.InRegion(c) && v.Fat(c) != 0 ==> c in claimed
    ensures CheckLeaks(v, from, claimed).Success?
    decreases v.clusterCount + 2 - from
  {
    hide v.Valid, v.Fat;
    if from < v.clusterCount + 2 {
      assert v.InRegion(from);
      LeaksPass(v, from + 1, claimed);
    }
  }

  lemma EverythingClaimed(plan: Plan, v: Volume, t: Tables)
    requires Reading(plan, v) && plan.Sound() && ClaimsReflect(plan, t, plan.Items())
    ensures forall c: nat :: v.InRegion(c) && v.Fat(c) != 0 ==> c in t.claimed
  {
    ReadingSize(plan, v);
    forall c: nat | v.InRegion(c) && v.Fat(c) != 0
      ensures c in t.claimed
    {
      LinkedIsOwned(plan, v, c);
      var p :| plan.Owns(p, c);
      assert p in plan.Items();
    }
  }

  lemma PrintedLinks(img: seq<Byte>, plan: Plan, c: nat)
    requires Printed(img, plan) && 2 <= c < CLUSTER_COUNT + 2 && Link(img, c) != 0
    ensures exists p :: plan.Owns(p, c)
  {
    hide plan.Sound, HoldsDirectory, DirectoryWritten, FileWritten, Link, BootSector, plan.Owns;
  }

  lemma LinkedIsOwned(plan: Plan, v: Volume, c: nat)
    requires Reading(plan, v) && v.InRegion(c) && v.Fat(c) != 0
    ensures exists p :: plan.Owns(p, c)
  {
    hide Printed, v.Valid, U16, plan.Owns;
    ReadingSize(plan, v);
    assert v.Fat(c) == Link(v.data, c);
    PrintedLinks(v.data, plan, c);
  }

  lemma RootIsDirectory(plan: Plan)
    requires plan.Sound()
    ensures plan.IsDirectory([]) && [] in plan.kids
  {
  }

  lemma RootBuffer(plan: Plan, img: seq<Byte>)
    requires Printed(img, plan)
    ensures |img| == TOTAL && plan.Sound() && plan.IsDirectory([])
    ensures HoldsDirectory(img[ROOT_OFFSET..DATA_OFFSET], plan, [])
  {
  }

  lemma RootSub(plan: Plan)
    requires plan.Sound()
    ensures Sub(plan, []) - {[]} == plan.Items()
  {
  }

  lemma RootReads(plan: Plan, v: Volume)
    requires Reading(plan, v) && plan.Sound()
    ensures [] in plan.kids && plan.IsDirectory([]) && |v.Root()| == v.rootEntries * ENTRY
    ensures HoldsDirectory(v.Root(), plan, []) && Views(plan, [], RootDirectory(v))
    ensures Fits(v, v.Root(), RootDirectory(v))
    ensures Sub(plan, []) - {[]} == plan.Items()
  {
    hide Printed, plan.Sound, HoldsDirectory, Sub, v.Valid;
    RootIsDirectory(plan);
    RootBuffer(plan, v.data);
    RootSub(plan);
    assert Text([]) + "/" == "/";
  }

  lemma EmptyReflects(plan: Plan)
    requires plan.Sound()
    ensures Reflects(plan, EMPTY_TABLES, {})
  {
  }

  lemma ReadingOf(img: seq<Byte>, plan: Plan)
    requires Printed(img, plan) && plan.Canonical()
    ensures Open(img) == Success(VolumeOf(img)) && Reading(plan, VolumeOf(img)) && plan.Sound()
  {
    hide plan.Canonical, Open, HoldsDirectory, DirectoryWritten, FileWritten, plan.Sound, U16;
    OpenReads(img);
  }

  /** The files of the tables are the builder's files, under their texts. */
  ghost predicate SameFiles(files: map<string, seq<Byte>>, input: map<Path, seq<Byte>>) {
    && (forall s :: s in files <==> exists f :: f in input && Text(f) == s)
    && (forall f :: f in input ==> Text(f) in files && files[Text(f)] == input[f])
  }

  /**
   The reader accepts a printed image of canonical names exactly when its plan is inside the reader's profile. Then it
   records exactly the planned paths, and its files are the builder's input, byte for byte.
   */
  lemma CanonicalImageReadsBack(img: seq<Byte>, plan: Plan)
    requires Printed(img, plan) && plan.Canonical()
    ensures Load(img).Success? <==> plan.WithinProfile()
    ensures match Load(img)
            case Failure(_) => true
            case Success((v, t)) =>
              && v.data == img && SameFiles(t.files, plan.files)
              && (forall s :: s in t.paths <==> exists p :: p in plan.Items() && Text(p) == s)
  {
    hide plan.Canonical, Open, Walk, Reading, Printed, HoldsDirectory, Views, Fits, Reflects, plan.Sound,
      plan.WithinProfile, Sub, CheckLeaks, plan.Items, SameFiles, Text;
    ReadingOf(img, plan);
    var v := VolumeOf(img);
    ReadingValid(plan, v);
    RootReads(plan, v);
    EmptyReflects(plan);
    WalkReads(plan, v, v.Root(), [], RootDirectory(v), EMPTY_TABLES, {});
    var walked := Walk(v, v.Root(), RootDirectory(v), EMPTY_TABLES);
    if walked.Success? {
      var t := walked.value;
      assert {} + plan.Items() == plan.Items();
      FinalTables(plan, t);
      EverythingClaimed(plan, v, t);
      LeaksPass(v, 2, t.claimed);
    }
  }

  lemma ReadingValid(plan: Plan, v: Volume)
    requires Reading(plan, v)
    ensures v.Valid()
  {
  }

  lemma FinalTables(plan: Plan, t: Tables)
    requires plan.Sound() && Reflects(plan, t, plan.Items())
    ensures ClaimsReflect(plan, t, plan.Items()) && SameFiles(t.files, plan.files) && plan.WithinProfile()
    ensures forall s :: s in t.paths <==> exists p :: p in plan.Items() && Text(p) == s
  {
    hide plan.Sound, Text;
    forall f | f in plan.files ensures f in plan.Items() { assert f in plan.files.Keys; }
  }
}
