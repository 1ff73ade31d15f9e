/**
 The image the builder prints, described: short names, directory entries, the plan of which
 clusters each path gets, and what every region of the finished image holds.
 */
module EspImage {
  import opened Wrappers
  import opened Arithmetic
  import opened Bytes
  import opened Fat16

  const CLUSTER_COUNT := 4085
  const RESERVED := 1
  const NFATS := 2
  const ROOT_ENTRIES := 512
  const MEDIA := 0xF8
  const END_OF_CHAIN := 0xFFFF

  function FatSectorsFor(clusters: nat): nat {
    ((clusters + 2) * 2 + SECTOR - 1) / SECTOR
  }

  const FAT_SECTORS := FatSectorsFor(CLUSTER_COUNT)
  const FAT_BYTES := FAT_SECTORS * SECTOR
  const FAT_OFFSET := RESERVED * SECTOR
  const ROOT_OFFSET := (RESERVED + NFATS * FAT_SECTORS) * SECTOR
  const ROOT_BYTES := ROOT_ENTRIES * ENTRY
  const DATA_OFFSET := ROOT_OFFSET + ROOT_BYTES
  const TOTAL := DATA_OFFSET + CLUSTER_COUNT * SECTOR

  datatype BuildError = BadName(name: string) | DirectoryFull | TooSmall

  // ---------------------------------------------------------------- paths

  /** One name of a volume path: of a folder on the way, or of the file at the end. */
  datatype Part = Folder(name: string) | File(name: string)

  /**
   A volume path, split; the root directory has no parts. A file and a folder of the same names are different
   paths, as the builder keeps them in different tables; their texts are the same.
   */
  type Path = seq<Part>

  function Parent(p: Path): Path
    requires p != []
  {
    p[..|p| - 1]
  }

  function Last(p: Path): Part
    requires p != []
  {
    p[|p| - 1]
  }

  function Names(p: Path): (names: seq<string>)
    ensures |names| == |p| && forall i :: 0 <= i < |p| ==> names[i] == p[i].name
  {
    seq(|p|, i requires 0 <= i < |p| => p[i].name)
  }

  function Text(p: Path): string {
    if p == [] then "" else Text(Parent(p)) + "/" + Last(p).name
  }

  // ---------------------------------------------------------------- short names

  /** The position of the last dot, or -1. */
  function LastDot(name: string): (i: int)
    ensures -1 <= i < |name|
    ensures i >= 0 ==> name[i] == '.'
    ensures forall k :: i < k < |name| ==> name[k] != '.'
  {
    if name == "" then -1
    else if name[|name| - 1] == '.' then |name| - 1
    else LastDot(name[..|name| - 1])
  }

  predicate IsAscii(s: string) {
    forall i :: 0 <= i < |s| ==> s[i] < 128 as char
  }

  /** The letters outside ASCII whose capitals are all ASCII. */
  const ASCII_CAPITALS: map<char, string> := map[
    '\U{DF}' := "SS", '\U{131}' := "I", '\U{17F}' := "S", '\U{FB00}' := "FF", '\U{FB01}' := "FI", '\U{FB02}' := "FL",
    '\U{FB03}' := "FFI", '\U{FB04}' := "FFL", '\U{FB05}' := "ST", '\U{FB06}' := "ST"]

  /** The capitals of one character, as far as they are ASCII; any other stands for itself and does not encode. */
  function Capital(c: char): string {
    if Lowercase(c) then [c - 'a' + 'A'] else if c in ASCII_CAPITALS then ASCII_CAPITALS[c] else [c]
  }

  function Capitals(s: string): string {
    if s == "" then "" else Capital(s[0]) + Capitals(s[1..])
  }

  function Encode(s: string): (bytes: seq<Byte>)
    requires IsAscii(s)
    ensures |bytes| == |s|
  {
    seq(|s|, i requires 0 <= i < |s| => s[i] as int)
  }

  function Pad(bytes: seq<Byte>, width: nat): (r: seq<Byte>)
    requires |bytes| <= width
    ensures |r| == width
  {
    bytes + seq(width - |bytes|, _ => SPACE)
  }

  function Name83(name: string): (r: Result<seq<Byte>, BuildError>)
    ensures r.Success? ==> |r.value| == 11
  {
    if name == "." then Success(DOT_NAME)
    else if name == ".." then Success(DOT_DOT_NAME)
    else
      var dot := LastDot(name);
      var base := Capitals(if dot >= 0 then name[..dot] else name);
      var ext := Capitals(if dot >= 0 then name[dot + 1..] else "");
      var _ :- Need(IsAscii(base) && IsAscii(ext) && 1 <= |base| <= 8 && |ext| <= 3, BadName(name));
      Success(Pad(Encode(base), 8) + Pad(Encode(ext), 3))
  }

  predicate NameChar(c: char) {
    33 as char <= c < 127 as char && !Lowercase(c) && !Forbidden(c as int)
  }

  /** An upper-case 8.3 name in the characters the reader admits. */
  ghost predicate Canonical83(name: string) {
    exists base: string, ext: string :: Spells(name, base, ext)
  }

  ghost predicate Spells(name: string, base: string, ext: string) {
    && 1 <= |base| <= 8 && |ext| <= 3
    && (forall c :: c in base ==> NameChar(c)) && (forall c :: c in ext ==> NameChar(c))
    && name == if ext == "" then base else base + "." + ext
  }

  // ---------------------------------------------------------------- directory entries

  function Zeros(n: nat): (r: seq<Byte>)
    ensures |r| == n
  {
    seq(n, _ => 0)
  }

  function DirEntry(raw: seq<Byte>, attr: Byte, cluster: nat, size: nat): (entry: seq<Byte>)
    requires |raw| == 11 && cluster < 0x1_0000 && size < 0x1_0000_0000
    ensures |entry| == ENTRY
  {
    raw + [attr] + Zeros(14) + Le16(cluster) + Le32(size)
  }

  // ---------------------------------------------------------------- the plan

  /** What the builder decides before it writes: clusters for every path, and the order of each directory. */
  datatype Plan = Plan(dirs: set<Path>, files: map<Path, seq<Byte>>, start: map<Path, nat>, kids: map<Path, seq<Path>>)
  {
    ghost function Items(): set<Path> { dirs + files.Keys }

    /** How many clusters a path takes. */
    ghost function Count(p: Path): nat
      requires p in Items()
    {
      if p in dirs then 1 else CeilDiv(|files[p]|, SECTOR)
    }

    ghost predicate Owns(p: Path, c: nat) {
      p in Items() && p in start && start[p] <= c < start[p] + Count(p)
    }

    ghost predicate IsDirectory(d: Path) {
      d == [] || d in dirs
    }

    /** The cluster the reader knows a directory by. */
    ghost function ClusterOf(d: Path): nat
      requires IsDirectory(d) && (d != [] ==> d in start)
    {
      if d == [] then 0 else start[d]
    }

    /** The allocator gave every path its own clusters. */
    ghost predicate Allocated() {
      && start.Keys == Items()
      && (forall p :: p in Items() && Count(p) == 0 ==> start[p] == 0)
      && (forall p :: p in Items() && Count(p) > 0 ==> 2 <= start[p] && start[p] + Count(p) <= CLUSTER_COUNT + 2)
      && (forall p, q, c :: Owns(p, c) && Owns(q, c) ==> p == q)
    }

    /** Paths form a tree, and each directory lists its children once each. */
    ghost predicate Tree() {
      && dirs !! files.Keys
      && (forall p :: p in Items() ==> p != [] && IsDirectory(Parent(p)))
      && (forall d :: IsDirectory(d) ==> d in kids)
      && (forall d, k :: d in kids && 0 <= k < |kids[d]| ==> kids[d][k] in Items() && Parent(kids[d][k]) == d)
      && (forall d, j, k :: d in kids && 0 <= j < k < |kids[d]| ==> kids[d][j] != kids[d][k])
      && (forall p :: p in Items() && Parent(p) in kids ==> p in kids[Parent(p)])
    }

    /** Every name is one the reader takes as it stands, and no two paths have the same names. */
    ghost predicate Canonical() {
      && (forall p :: p in Items() ==> p != [] && Canonical83(Last(p).name))
      && (forall p, q :: p in Items() && q in Items() && Names(p) == Names(q) ==> p == q)
    }

    /** The name of every child of the directory prints. */
    ghost predicate NamesPrint(d: Path)
      requires d in kids
    {
      forall k :: 0 <= k < |kids[d]| ==> kids[d][k] != [] && Name83(Last(kids[d][k]).name).Success?
    }

    /** The limits of the reader's profile that the builder itself does not check. */
    ghost predicate WithinProfile() {
      && |Items()| <= MAX_PATHS
      && forall d :: d in dirs ==> |d| <= MAX_DEPTH
    }

    ghost predicate Sound() {
      Allocated() && Tree()
    }

    ghost function EntryOf(p: Path): seq<Byte>
      requires Sound() && p in Items() && Name83(Last(p).name).Success?
    {
      StartFits(p);
      if p in dirs then DirEntry(Name83(Last(p).name).value, ATTR_DIRECTORY, start[p], 0)
      else
        DirEntry(Name83(Last(p).name).value, ATTR_FILE, start[p], |files[p]|)
    }

    lemma StartFits(p: Path)
      requires Sound() && p in Items()
      ensures p in start && start[p] < 0x1_0000
      ensures p in files ==> |files[p]| < 0x1_0000_0000
    {
    }
  }

  // ---------------------------------------------------------------- the finished image

  predicate BootSector(img: seq<Byte>) {
    && |img| == TOTAL
    && U16(img, 11) == SECTOR && img[13] == 1 && U16(img, 14) == RESERVED && img[16] == NFATS
    && U16(img, 17) == ROOT_ENTRIES && U16(img, 19) == TOTAL / SECTOR && img[21] == MEDIA
    && U16(img, 22) == FAT_SECTORS && U32(img, 28) == 0 && U32(img, 32) == 0
    && img[510] == 0x55 && img[511] == 0xAA
  }

  function Link(img: seq<Byte>, c: nat): nat
    requires |img| == TOTAL && c < CLUSTER_COUNT + 2
  {
    U16(img, FAT_OFFSET + c * 2)
  }

  /** The allocation table links each path's clusters in a row and marks no other cluster. */
  ghost predicate Linked(img: seq<Byte>, plan: Plan)
    requires |img| == TOTAL && plan.Allocated()
  {
    && img[FAT_OFFSET..FAT_OFFSET + FAT_BYTES] == img[FAT_OFFSET + FAT_BYTES..ROOT_OFFSET]
    && Link(img, 0) == 0xFF00 + MEDIA && Link(img, 1) == END_OF_CHAIN
    && (forall p: Path, c: nat :: plan.Owns(p, c) ==>
          Link(img, c) == if c + 1 == plan.start[p] + plan.Count(p) then END_OF_CHAIN else c + 1)
    && (forall c: nat :: 2 <= c < CLUSTER_COUNT + 2 && Link(img, c) != 0 ==> exists p :: plan.Owns(p, c))
  }

  function ClusterAt(c: nat): nat
    requires c >= 2
  {
    DATA_OFFSET + (c - 2) * SECTOR
  }

  /** Where the entry of the k-th child is in a directory's buffer: after the dot entries, if there are any. */
  function KidOffset(d: Path, k: nat): (offset: nat)
    ensures offset % ENTRY == 0
  {
    ((if d == [] then 0 else 2) + k) * ENTRY
  }

  /** The buffer holds the dot entries unless it is the root, entries for the first `n` children, and zeros. */
  ghost predicate HoldsKids(buf: seq<Byte>, plan: Plan, d: Path, n: nat)
    requires plan.Sound() && plan.IsDirectory(d) && n <= |plan.kids[d]|
  {
    var kids := plan.kids[d];
    && KidOffset(d, n) <= |buf|
    && (d != [] ==>
          && plan.ClusterOf(d) < 0x1_0000 && plan.IsDirectory(Parent(d)) && plan.ClusterOf(Parent(d)) < 0x1_0000
          && buf[..ENTRY] == DirEntry(DOT_NAME, ATTR_DIRECTORY, plan.ClusterOf(d), 0)
          && buf[ENTRY..2 * ENTRY] == DirEntry(DOT_DOT_NAME, ATTR_DIRECTORY, plan.ClusterOf(Parent(d)), 0))
    && (forall k :: 0 <= k < n ==>
          && Name83(Last(kids[k]).name).Success?
          && buf[KidOffset(d, k)..KidOffset(d, k) + ENTRY] == plan.EntryOf(kids[k]))
    && (forall i :: KidOffset(d, n) <= i < |buf| ==> buf[i] == 0)
  }

  ghost predicate HoldsDirectory(buf: seq<Byte>, plan: Plan, d: Path)
    requires plan.Sound() && plan.IsDirectory(d)
  {
    HoldsKids(buf, plan, d, |plan.kids[d]|)
  }

  ghost predicate DirectoryWritten(img: seq<Byte>, plan: Plan, d: Path)
    requires |img| == TOTAL && plan.Sound() && d in plan.dirs
  {
    var at := ClusterAt(plan.start[d]);
    at + SECTOR <= |img| && HoldsDirectory(img[at..at + SECTOR], plan, d)
  }

  ghost predicate FileWritten(img: seq<Byte>, plan: Plan, f: Path)
    requires |img| == TOTAL && plan.Sound() && f in plan.files && plan.files[f] != []
    requires plan.start[f] >= 2
  {
    var at := ClusterAt(plan.start[f]);
    at + |plan.files[f]| <= |img| && img[at..at + |plan.files[f]|] == plan.files[f]
  }

  /** Everything the builder promises about a finished image. */
  ghost predicate Printed(img: seq<Byte>, plan: Plan) {
    && BootSector(img) && plan.Sound() && Linked(img, plan)
    && HoldsDirectory(img[ROOT_OFFSET..DATA_OFFSET], plan, [])
    && (forall d :: d in plan.dirs ==> DirectoryWritten(img, plan, d))
    && (forall f :: f in plan.files && plan.files[f] != [] ==> plan.start[f] >= 2 && FileWritten(img, plan, f))
  }
}
