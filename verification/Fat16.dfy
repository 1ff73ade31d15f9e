/**
 The bounded FAT16 reader as functions of the image: geometry, cluster chains, short names and
 the recursive directory walk, each check in its place. Fat16Reader.dfy proves the
 stateful reader equal to these functions; Fat16Proofs.dfy proves what they promise.
 */
module Fat16 {
  import opened Wrappers
  import opened Arithmetic
  import opened Bytes

  const MAX_IMAGE := 128 * 1024 * 1024
  const SECTOR := 512
  const ENTRY := 32
  const ATTR_DIRECTORY := 0x10
  const ATTR_FILE := 0x20
  const ATTR_LFN := 0x0F
  const MAX_DEPTH := 8
  const MAX_PATHS := 4096

  /** One constructor for each message the reader raises. */
  datatype InvalidEsp =
    | ImageSize | BootSignature | SectorSize | SectorsPerCluster | FatCount | RootEntries
    | TotalSectors | VolumeSize | HiddenSectors | SectorsPerFat | MetadataOutside | NotFat16
    | FatTooShort | FatCopiesDiffer | MediaEntries | Unreachable(cluster: nat)
    | OutsideDataRegion(cluster: nat) | BeyondImage(cluster: nat)
    | ReservedCluster(cluster: nat) | Cycle(cluster: nat) | CrossLinked(cluster: nat) | BadLink(link: nat)
    | NonAsciiName | NamePadding | NameCharacter | LowercaseName
    | TooDeep | LongName | Attributes | NameCaseField | DuplicateName(path: string)
    | DotEntry | DotCluster | MissingDots(path: string)
    | DuplicatePath(path: string) | TooManyPaths | EmptyFileCluster(path: string)
    | ChainLength(path: string) | DirectorySize(path: string)
    | PathSyntax | DuplicateExpected(path: string)

  type Checked<T> = Result<T, InvalidEsp>

  // ---------------------------------------------------------------- geometry

  datatype Volume = Volume(
    data: seq<Byte>, spc: nat, clusterBytes: nat, rootEntries: nat, fatOffset: nat, fatBytes: nat,
    rootOffset: nat, dataOffset: nat, clusterCount: nat)
  {
    /** What the geometry checks establish. */
    predicate Valid() {
      && spc > 0 && clusterBytes == SECTOR * spc
      && rootOffset == fatOffset + 2 * fatBytes
      && dataOffset == rootOffset + rootEntries * ENTRY
      && dataOffset < |data| <= MAX_IMAGE
      && dataOffset + clusterCount * clusterBytes <= |data|
      && 4085 <= clusterCount < 65525
      && (clusterCount + 2) * 2 <= fatBytes
    }

    predicate InRegion(cluster: nat) {
      2 <= cluster < clusterCount + 2
    }

    function Fat(cluster: nat): (link: nat)
      requires Valid() && cluster < clusterCount + 2
      ensures link < 0x1_0000
    {
      U16(data, fatOffset + cluster * 2)
    }

    /** Where a cluster of the data region starts. */
    function Offset(cluster: nat): nat
      requires InRegion(cluster)
    {
      dataOffset + (cluster - 2) * clusterBytes
    }

    function ClusterOffset(cluster: nat): Checked<nat> {
      if !InRegion(cluster) then Failure(OutsideDataRegion(cluster))
      else if Offset(cluster) + clusterBytes > |data| then Failure(BeyondImage(cluster))
      else Success(Offset(cluster))
    }

    /** Every cluster the region check admits lies inside the image. */
    lemma OffsetInside(cluster: nat)
      requires Valid() && InRegion(cluster)
      ensures Offset(cluster) + clusterBytes <= |data|
      ensures ClusterOffset(cluster) == Success(Offset(cluster))
    {
      MulAtMost(cluster - 2 + 1, clusterCount, clusterBytes);
      Distribute(cluster - 2, 1, clusterBytes);
    }

    function Root(): seq<Byte>
      requires Valid()
    {
      data[rootOffset..dataOffset]
    }
  }

  /** The fields of the boot sector the geometry is computed from. */
  datatype Header = Header(spc: nat, reserved: nat, roots: nat, fatSectors: nat)

  function ReadHeader(data: seq<Byte>): (r: Checked<Header>)
    ensures r.Success? ==>
      && 512 <= |data| <= MAX_IMAGE
      && r.value.spc in {1, 2, 4, 8, 16, 32, 64, 128}
      && 1 <= r.value.reserved < 0x1_0000 && 0 < r.value.fatSectors < 0x1_0000
      && 0 < r.value.roots <= 4096 && r.value.roots % 16 == 0
  {
    var _ :- Need(512 <= |data| <= MAX_IMAGE, ImageSize);
    var _ :- Need(data[510..512] == [0x55, 0xAA], BootSignature);
    var _ :- Need(U16(data, 11) == 512, SectorSize);
    var spc: nat := data[13];
    var _ :- Need(spc in {1, 2, 4, 8, 16, 32, 64, 128}, SectorsPerCluster);
    var reserved, nfats: nat, roots := U16(data, 14), data[16], U16(data, 17);
    var _ :- Need(reserved >= 1 && nfats == 2, FatCount);
    var _ :- Need(0 < roots <= 4096 && roots % 16 == 0, RootEntries);
    var total16, total32 := U16(data, 19), U32(data, 32);
    var _ :- Need((total16 != 0) != (total32 != 0), TotalSectors);
    var total := if total16 != 0 then total16 else total32;
    var _ :- Need(total * 512 == |data|, VolumeSize);
    var _ :- Need(U32(data, 28) == 0, HiddenSectors);
    var fatSectors := U16(data, 22);
    var _ :- Need(fatSectors > 0, SectorsPerFat);
    Success(Header(spc, reserved, roots, fatSectors))
  }

  function Layout(data: seq<Byte>, h: Header): (r: Checked<Volume>)
    requires |data| <= MAX_IMAGE
    requires h.spc in {1, 2, 4, 8, 16, 32, 64, 128} && h.roots % 16 == 0
    ensures r.Success? ==> r.value.Valid() && r.value.data == data
  {
    var fatOffset, fatBytes := h.reserved * 512, h.fatSectors * 512;
    var rootOffset := (h.reserved + 2 * h.fatSectors) * 512;
    var dataOffset := rootOffset + h.roots * 32;
    var _ :- Need(dataOffset < |data|, MetadataOutside);
    var clusterCount := (|data| - dataOffset) / (512 * h.spc);
    Recompose(|data| - dataOffset, 512 * h.spc);
    var _ :- Need(4085 <= clusterCount < 65525, NotFat16);
    var _ :- Need((clusterCount + 2) * 2 <= fatBytes, FatTooShort);
    Success(Volume(data, h.spc, 512 * h.spc, h.roots, fatOffset, fatBytes, rootOffset, dataOffset, clusterCount))
  }

  function Open(data: seq<Byte>): (r: Checked<Volume>)
    ensures r.Success? ==> r.value.Valid() && r.value.data == data
  {
    var h :- ReadHeader(data);
    var v :- Layout(data, h);
    var _ :- Need(data[v.fatOffset..v.fatOffset + v.fatBytes] == data[v.fatOffset + v.fatBytes..v.rootOffset],
                  FatCopiesDiffer);
    var _ :- Need(v.Fat(0) == 0xFF00 + data[21] as int && v.Fat(1) >= 0xFFF8, MediaEntries);
    Success(v)
  }

  // ---------------------------------------------------------------- cluster chains

  /** The clusters no chain has claimed yet: what every chain step uses up. */
  ghost function Unclaimed(v: Volume, claimed: map<nat, string>): set<nat> {
    (set c: nat | c < v.clusterCount + 2 && v.InRegion(c)) - claimed.Keys
  }

  function Chain(v: Volume, current: nat, owner: string, seen: set<nat>, claimed: map<nat, string>)
    : (r: Checked<(seq<nat>, map<nat, string>)>)
    requires v.Valid()
    ensures r.Success? ==> r.value.0 != [] && forall c :: c in r.value.0 ==> v.InRegion(c)
    decreases Unclaimed(v, claimed)
  {
    var _ :- Need(current < 0xFFF0, ReservedCluster(current));
    var _ :- v.ClusterOffset(current);
    var _ :- Need(current !in seen, Cycle(current));
    var _ :- Need(current !in claimed, CrossLinked(current));
    var claimed' := claimed[current := owner];
    var following := v.Fat(current);
    if following >= 0xFFF8 then Success(([current], claimed'))
    else
      var _ :- Need(2 <= following < 0xFFF0, BadLink(following));
      assert current in Unclaimed(v, claimed) && current !in Unclaimed(v, claimed');
      var rest :- Chain(v, following, owner, seen + {current}, claimed');
      Success(([current] + rest.0, rest.1))
  }

  // ---------------------------------------------------------------- short names

  const SPACE: Byte := 32

  function RStrip(bytes: seq<Byte>): (r: seq<Byte>)
    ensures r <= bytes
    ensures r != [] ==> r[|r| - 1] != SPACE
    ensures forall i :: |r| <= i < |bytes| ==> bytes[i] == SPACE
  {
    if bytes != [] && bytes[|bytes| - 1] == SPACE then RStrip(bytes[..|bytes| - 1]) else bytes
  }

  const DOT_NAME: seq<Byte> := [46, 32, 32, 32, 32, 32, 32, 32, 32, 32, 32]
  const DOT_DOT_NAME: seq<Byte> := [46, 46, 32, 32, 32, 32, 32, 32, 32, 32, 32]

  // The characters " * + , . / : ; < = > ? [ \ ] |
  predicate Forbidden(c: Byte) {
    c in {34, 42, 43, 44, 46, 47, 58, 59, 60, 61, 62, 63, 91, 92, 93, 124}
  }

  predicate Lowercase(c: char) { 'a' <= c <= 'z' }

  function Name(raw: seq<Byte>): Checked<string>
    requires |raw| == 11
  {
    if raw == DOT_NAME then Success(".")
    else if raw == DOT_DOT_NAME then Success("..")
    else
      var _ :- Need(forall c :: c in raw ==> 32 <= c < 127, NonAsciiName);
      var base, ext := RStrip(raw[..8]), RStrip(raw[8..]);
      var _ :- Need(base != [] && SPACE !in base + ext, NamePadding);
      var _ :- Need(forall c :: c in base + ext ==> !Forbidden(c), NameCharacter);
      var value := Ascii(base) + if ext != [] then "." + Ascii(ext) else "";
      var _ :- Need(forall c :: c in value ==> !Lowercase(c), LowercaseName);
      Success(value)
  }

  // ---------------------------------------------------------------- directories

  datatype Record = Record(
    path: string, rawName: seq<Byte>, entryOffset: nat, cluster: nat, size: nat,
    isDirectory: bool, clusters: seq<nat>)

  /** What the walk has recorded so far. */
  datatype Tables = Tables(
    claimed: map<nat, string>, files: map<string, seq<Byte>>, entries: seq<Record>, paths: set<string>)

  const EMPTY_TABLES := Tables(map[], map[], [], {})

  /** The arguments one directory walk keeps; `offsets` holds the clusters' places, absent for the root. */
  datatype Directory = Directory(
    path: string, cluster: nat, parent: nat, baseOffset: nat, depth: nat, offsets: Option<seq<nat>>)

  datatype Entry = Entry(attr: Byte, name: string, first: nat, size: nat)

  predicate Fits(v: Volume, buf: seq<Byte>, d: Directory) {
    && |buf| % ENTRY == 0
    && (d.offsets.Some? ==> |buf| == |d.offsets.value| * v.clusterBytes)
  }

  /** The place in the image of the entry at `offset` in the directory's buffer. */
  function Absolute(v: Volume, buf: seq<Byte>, d: Directory, offset: nat): nat
    requires v.Valid() && Fits(v, buf, d) && offset < |buf|
  {
    if d.offsets.None? then d.baseOffset + offset
    else
      QuotientBelow(offset, |d.offsets.value|, v.clusterBytes);
      d.offsets.value[offset / v.clusterBytes] + offset % v.clusterBytes
  }

  /** The checks on one live entry before it is recorded. */
  function ReadEntry(raw: seq<Byte>, d: Directory, names: set<string>): Checked<Entry>
    requires |raw| == ENTRY
  {
    var attr := raw[11];
    var _ :- Need(attr != ATTR_LFN, LongName);
    var _ :- Need(attr in {ATTR_DIRECTORY, ATTR_FILE}, Attributes);
    var _ :- Need(raw[12] == 0 && raw[20..22] == [0, 0], NameCaseField);
    var name :- Name(raw[..11]);
    var _ :- Need(name !in names, DuplicateName(d.path + name));
    Success(Entry(attr, name, U16(raw, 26), U32(raw, 28)))
  }

  predicate IsDot(name: string) {
    name == "." || name == ".."
  }

  function CheckDot(e: Entry, d: Directory): Checked<()> {
    var _ :- Need(d.path != "/" && e.attr == ATTR_DIRECTORY && e.size == 0, DotEntry);
    var _ :- Need(e.first == (if e.name == "." then d.cluster else d.parent), DotCluster);
    Success(())
  }

  /** The data of a chain, cluster after cluster. */
  function Gather(v: Volume, clusters: seq<nat>): (payload: seq<Byte>)
    requires v.Valid() && forall c :: c in clusters ==> v.InRegion(c)
    ensures |payload| == |clusters| * v.clusterBytes
  {
    if clusters == [] then []
    else
      v.OffsetInside(clusters[0]);
      Distribute(1, |clusters| - 1, v.clusterBytes);
      var p := v.Offset(clusters[0]);
      v.data[p..p + v.clusterBytes] + Gather(v, clusters[1..])
  }

  function Positions(v: Volume, clusters: seq<nat>): (positions: seq<nat>)
    requires forall c :: c in clusters ==> v.InRegion(c)
    ensures |positions| == |clusters|
    ensures forall i :: 0 <= i < |clusters| ==> positions[i] == v.Offset(clusters[i])
  {
    seq(|clusters|, i requires 0 <= i < |clusters| => v.Offset(clusters[i]))
  }

  /** Records a named entry and claims its chain. */
  function Place(v: Volume, raw: seq<Byte>, absolute: nat, d: Directory, e: Entry, t: Tables): (r: Checked<Tables>)
    requires v.Valid() && |raw| == ENTRY
    ensures r.Success? ==> |r.value.entries| == |t.entries| + 1
    ensures r.Success? ==> var rec := r.value.entries[|t.entries|];
      && (forall c :: c in rec.clusters ==> v.InRegion(c))
      && (e.attr == ATTR_FILE ==> e.size <= |rec.clusters| * v.clusterBytes)
      && (e.attr != ATTR_FILE ==> rec.clusters != [])
  {
    var path := d.path + e.name;
    var _ :- Need(path !in t.paths, DuplicatePath(path));
    var paths := t.paths + {path};
    var _ :- Need(|paths| <= MAX_PATHS, TooManyPaths);
    var rec := Record(path, raw[..11], absolute, e.first, e.size, e.attr == ATTR_DIRECTORY, []);
    if e.attr == ATTR_FILE && e.size == 0 then
      var _ :- Need(e.first == 0, EmptyFileCluster(path));
      Success(Tables(t.claimed, t.files, t.entries + [rec], paths))
    else
      var chain :- Chain(v, e.first, path, {}, t.claimed);
      var _ :- Need(e.attr == ATTR_FILE ==> |chain.0| == CeilDiv(e.size, v.clusterBytes), ChainLength(path));
      CeilDivCovers(e.size, v.clusterBytes);
      Success(Tables(chain.1, t.files, t.entries + [rec.(clusters := chain.0)], paths))
  }

  function SubDirectory(v: Volume, d: Directory, e: Entry, clusters: seq<nat>): (sub: Directory)
    requires v.Valid() && clusters != [] && forall c :: c in clusters ==> v.InRegion(c)
    ensures Fits(v, Gather(v, clusters), sub) && sub.depth == d.depth + 1
    ensures |sub.path| > 0 && sub.path[|sub.path| - 1] == '/'
  {
    var positions := Positions(v, clusters);
    Associate(|clusters|, 16 * v.spc, ENTRY);
    QuotientIs(|clusters| * v.clusterBytes, ENTRY, |clusters| * (16 * v.spc), 0);
    Directory(d.path + e.name + "/", e.first, d.cluster, positions[0], d.depth + 1, Some(positions))
  }

  lemma NextEntryFits(offset: nat, length: nat)
    requires offset % ENTRY == 0 && length % ENTRY == 0 && offset < length
    ensures offset + ENTRY <= length && (offset + ENTRY) % ENTRY == 0
  {
  }

  function Walk(v: Volume, buf: seq<Byte>, d: Directory, t: Tables): Checked<Tables>
    requires v.Valid() && Fits(v, buf, d)
    decreases 20 - d.depth, |buf| + 1
  {
    var _ :- Need(d.depth <= MAX_DEPTH, TooDeep);
    Scan(v, buf, d, 0, {}, {}, t)
  }

  /** The rest of one directory, from the entry at `offset`. */
  function Scan(v: Volume, buf: seq<Byte>, d: Directory, offset: nat, names: set<string>, dots: set<string>, t: Tables)
    : Checked<Tables>
    requires v.Valid() && Fits(v, buf, d) && offset % ENTRY == 0 && offset <= |buf| && d.depth <= MAX_DEPTH
    decreases 20 - d.depth, |buf| - offset
  {
    if offset == |buf| || buf[offset] == 0 then
      var _ :- Need(d.path != "/" ==> dots == {".", ".."}, MissingDots(d.path));
      Success(t)
    else
      NextEntryFits(offset, |buf|);
      var raw := buf[offset..offset + ENTRY];
      if raw[0] == 0xE5 then Scan(v, buf, d, offset + ENTRY, names, dots, t)
      else
        var e :- ReadEntry(raw, d, names);
        var names' := names + {e.name};
        if IsDot(e.name) then
          var _ :- CheckDot(e, d);
          Scan(v, buf, d, offset + ENTRY, names', dots + {e.name}, t)
        else
          var t' :- Enter(v, raw, Absolute(v, buf, d, offset), d, e, t);
          Scan(v, buf, d, offset + ENTRY, names', dots, t')
  }

  /** One named entry with everything below it. */
  function Enter(v: Volume, raw: seq<Byte>, absolute: nat, d: Directory, e: Entry, t: Tables): Checked<Tables>
    requires v.Valid() && |raw| == ENTRY && d.depth <= MAX_DEPTH
    decreases 20 - d.depth, 0
  {
    var placed :- Place(v, raw, absolute, d, e, t);
    var clusters := placed.entries[|t.entries|].clusters;
    if e.attr != ATTR_FILE then
      var _ :- Need(e.size == 0, DirectorySize(d.path + e.name));
      Walk(v, Gather(v, clusters), SubDirectory(v, d, e, clusters), placed)
    else
      Success(placed.(files := placed.files[d.path + e.name := Gather(v, clusters)[..e.size]]))
  }

  // ---------------------------------------------------------------- whole image

  /** No allocated cluster from `cluster` on is left unclaimed. */
  function CheckLeaks(v: Volume, cluster: nat, claimed: map<nat, string>): Checked<()>
    requires v.Valid() && cluster <= v.clusterCount + 2
    decreases v.clusterCount + 2 - cluster
  {
    if cluster == v.clusterCount + 2 then Success(())
    else
      var _ :- Need(v.Fat(cluster) != 0 ==> cluster in claimed, Unreachable(cluster));
      CheckLeaks(v, cluster + 1, claimed)
  }

  function RootDirectory(v: Volume): Directory {
    Directory("/", 0, 0, v.rootOffset, 0, None)
  }

  /** What the reader records of a volume whose geometry is sound. */
  function Contents(v: Volume): Checked<Tables>
    requires v.Valid()
  {
    assert |v.Root()| == v.rootEntries * ENTRY;
    var t :- Walk(v, v.Root(), RootDirectory(v), EMPTY_TABLES);
    var _ :- CheckLeaks(v, 2, t.claimed);
    Success(t)
  }

  /** The whole reader: accepts with the recorded tables, or fails with the first check that does not hold. */
  function Load(data: seq<Byte>): Checked<(Volume, Tables)> {
    var v :- Open(data);
    var t :- Contents(v);
    Success((v, t))
  }
}
