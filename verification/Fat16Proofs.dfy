/**
 What an accepted image is: clusters partitioned among the recorded entries, every record and
 every file byte at its place in the image, all paths distinct. And what the reader never reports.
 */
module Fat16Proofs {
  import opened Wrappers
  import opened Bytes
  import opened Arithmetic
  import opened Fat16

  // ---------------------------------------------------------------- chains

  /** Each cluster links to the next and the last one to an end mark. */
  ghost predicate FollowsLinks(v: Volume, clusters: seq<nat>)
    requires v.Valid()
  {
    && (forall i :: 0 <= i < |clusters| ==> v.InRegion(clusters[i]))
    && (forall i :: 0 <= i < |clusters| - 1 ==> v.Fat(clusters[i]) == clusters[i + 1])
    && (clusters != [] ==> v.Fat(clusters[|clusters| - 1]) >= 0xFFF8)
  }

  /** A followed chain is new clusters only, each claimed for the owner; nothing else changes hands. */
  lemma {:induction false} ChainClaims(
    v: Volume, current: nat, owner: string, seen: set<nat>, claimed: map<nat, string>)
    requires v.Valid()
    ensures match Chain(v, current, owner, seen, claimed)
            case Failure(e) => !e.BeyondImage? && !e.DuplicatePath?
            case Success((clusters, after)) =>
              && clusters[0] == current && Distinct(clusters) && FollowsLinks(v, clusters)
              && (forall c :: c in clusters ==> c !in claimed)
              && (forall c :: c in after <==> c in claimed || c in clusters)
              && (forall c :: c in claimed ==> after[c] == claimed[c])
              && (forall c :: c in clusters ==> after[c] == owner)
    decreases Unclaimed(v, claimed)
  {
    if v.InRegion(current) {
      v.OffsetInside(current);
      var claimed' := claimed[current := owner];
      var following := v.Fat(current);
      if Chain(v, current, owner, seen, claimed).Success? && following < 0xFFF8 {
        assert current in Unclaimed(v, claimed) && current !in Unclaimed(v, claimed');
        ChainClaims(v, following, owner, seen + {current}, claimed');
        var rest := Chain(v, following, owner, seen + {current}, claimed').value.0;
        assert Chain(v, current, owner, seen, claimed).value.0 == [current] + rest;
      } else if current < 0xFFF0 && current !in seen && current !in claimed && 2 <= following < 0xFFF0 {
        assert current in Unclaimed(v, claimed) && current !in Unclaimed(v, claimed');
        ChainClaims(v, following, owner, seen + {current}, claimed');
      }
    }
  }

  // ---------------------------------------------------------------- where bytes come from

  /** The place in the image of byte `i` of a chain's data: by matching cluster and remainder. */
  ghost function Locate(v: Volume, clusters: seq<nat>, i: nat): nat
    requires v.Valid() && (forall c :: c in clusters ==> v.InRegion(c)) && i < |clusters| * v.clusterBytes
  {
    QuotientBelow(i, |clusters|, v.clusterBytes);
    assert clusters[i / v.clusterBytes] in clusters;
    v.Offset(clusters[i / v.clusterBytes]) + i % v.clusterBytes
  }

  /** The content is stored in the chain, byte for byte. */
  ghost predicate StoredAt(v: Volume, clusters: seq<nat>, content: seq<Byte>)
    requires v.Valid()
  {
    && (forall c :: c in clusters ==> v.InRegion(c))
    && |content| <= |clusters| * v.clusterBytes
    && forall i :: 0 <= i < |content| ==> ByteAt(v, clusters, i, content[i])
  }

  ghost predicate ByteAt(v: Volume, clusters: seq<nat>, i: nat, b: Byte)
    requires v.Valid() && (forall c :: c in clusters ==> v.InRegion(c)) && i < |clusters| * v.clusterBytes
  {
    var at := Locate(v, clusters, i);
    at < |v.data| && b == v.data[at]
  }

  lemma LocateFirst(v: Volume, clusters: seq<nat>, i: nat)
    requires v.Valid() && clusters != [] && (forall c :: c in clusters ==> v.InRegion(c))
    requires i < v.clusterBytes && i < |clusters| * v.clusterBytes
    ensures Locate(v, clusters, i) == v.Offset(clusters[0]) + i
  {
    hide v.Valid;
    QuotientIs(i, v.clusterBytes, 0, i);
  }

  lemma LocateRest(v: Volume, clusters: seq<nat>, i: nat)
    requires v.Valid() && clusters != [] && (forall c :: c in clusters ==> v.InRegion(c))
    requires v.clusterBytes <= i < |clusters| * v.clusterBytes
    ensures i - v.clusterBytes < |clusters[1..]| * v.clusterBytes
    ensures Locate(v, clusters, i) == Locate(v, clusters[1..], i - v.clusterBytes)
  {
    hide v.Valid, v.Offset;
    assert v.clusterBytes > 0;
    Distribute(1, |clusters| - 1, v.clusterBytes);
    QuotientBelow(i, |clusters|, v.clusterBytes);
    QuotientBelow(i - v.clusterBytes, |clusters[1..]|, v.clusterBytes);
    QuotientStep(i, v.clusterBytes);
  }

  lemma {:induction false} GatherByte(v: Volume, clusters: seq<nat>, i: nat)
    requires v.Valid() && (forall c :: c in clusters ==> v.InRegion(c)) && i < |Gather(v, clusters)|
    ensures ByteAt(v, clusters, i, Gather(v, clusters)[i])
  {
    hide v.Valid, Locate;
    v.OffsetInside(clusters[0]);
    if i < v.clusterBytes {
      LocateFirst(v, clusters, i);
    } else {
      LocateRest(v, clusters, i);
      assert Gather(v, clusters)[i] == Gather(v, clusters[1..])[i - v.clusterBytes];
      GatherByte(v, clusters[1..], i - v.clusterBytes);
    }
  }

  lemma GatherStored(v: Volume, clusters: seq<nat>)
    requires v.Valid() && forall c :: c in clusters ==> v.InRegion(c)
    ensures StoredAt(v, clusters, Gather(v, clusters))
  {
    hide Gather, ByteAt;
    forall i | 0 <= i < |Gather(v, clusters)|
      ensures ByteAt(v, clusters, i, Gather(v, clusters)[i])
    {
      GatherByte(v, clusters, i);
    }
  }

  /** A 32-byte entry never straddles two clusters. */
  lemma EntryInsideCluster(v: Volume, offset: nat, k: nat)
    requires v.Valid() && offset % ENTRY == 0 && k < ENTRY
    ensures offset % v.clusterBytes + k < v.clusterBytes
    ensures (offset + k) / v.clusterBytes == offset / v.clusterBytes
    ensures (offset + k) % v.clusterBytes == offset % v.clusterBytes + k
  {
    AlignedBlock(offset, ENTRY, 16 * v.spc, v.clusterBytes, k);
  }

  /** The directory's buffer holds the image's bytes, entry by entry. */
  ghost predicate Mirrors(v: Volume, buf: seq<Byte>, d: Directory)
    requires v.Valid() && Fits(v, buf, d)
  {
    forall o: nat | o < |buf| && o % ENTRY == 0 :: MirrorsAt(v, buf, d, o)
  }

  ghost predicate MirrorsAt(v: Volume, buf: seq<Byte>, d: Directory, o: nat)
    requires v.Valid() && Fits(v, buf, d) && o < |buf| && o % ENTRY == 0
  {
    var at := Absolute(v, buf, d, o);
    at + ENTRY <= |v.data| && buf[o..o + ENTRY] == v.data[at..at + ENTRY]
  }

  lemma RootMirrors(v: Volume)
    requires v.Valid()
    ensures Fits(v, v.Root(), RootDirectory(v)) && Mirrors(v, v.Root(), RootDirectory(v))
  {
    var buf, d := v.Root(), RootDirectory(v);
    assert |buf| == v.rootEntries * ENTRY;
    forall o: nat | o < |buf| && o % ENTRY == 0
      ensures MirrorsAt(v, buf, d, o)
    {
    }
  }

  lemma LocateInEntry(v: Volume, clusters: seq<nat>, o: nat, k: nat)
    requires v.Valid() && (forall c :: c in clusters ==> v.InRegion(c))
    requires o % ENTRY == 0 && k < ENTRY && o + k < |clusters| * v.clusterBytes
    ensures Locate(v, clusters, o + k) == Locate(v, clusters, o) + k
  {
    hide v.Valid, v.Offset;
    EntryInsideCluster(v, o, k);
    QuotientBelow(o, |clusters|, v.clusterBytes);
    QuotientBelow(o + k, |clusters|, v.clusterBytes);
  }

  /** The entry at `o` of a chain's data is stored in one piece. */
  lemma GatherEntry(v: Volume, clusters: seq<nat>, o: nat)
    requires v.Valid() && (forall c :: c in clusters ==> v.InRegion(c))
    requires o % ENTRY == 0 && o + ENTRY <= |Gather(v, clusters)|
    ensures var at := Locate(v, clusters, o);
      at + ENTRY <= |v.data| && Gather(v, clusters)[o..o + ENTRY] == v.data[at..at + ENTRY]
  {
    hide Gather, v.Valid, Locate;
    var at := Locate(v, clusters, o);
    var entry := Gather(v, clusters)[o..o + ENTRY];
    LocateInEntry(v, clusters, o, ENTRY - 1);
    GatherByte(v, clusters, o + (ENTRY - 1));
    forall k | 0 <= k < ENTRY
      ensures entry[k] == v.data[at + k]
    {
      LocateInEntry(v, clusters, o, k);
      GatherByte(v, clusters, o + k);
    }
  }

  lemma AbsoluteIsLocate(v: Volume, d: Directory, e: Entry, clusters: seq<nat>, o: nat)
    requires v.Valid() && clusters != [] && (forall c :: c in clusters ==> v.InRegion(c))
    requires o < |Gather(v, clusters)|
    ensures Absolute(v, Gather(v, clusters), SubDirectory(v, d, e, clusters), o) == Locate(v, clusters, o)
  {
    hide Gather, v.Valid, v.Offset;
    QuotientBelow(o, |clusters|, v.clusterBytes);
  }

  lemma SubDirectoryMirrors(v: Volume, d: Directory, e: Entry, clusters: seq<nat>)
    requires v.Valid() && clusters != [] && forall c :: c in clusters ==> v.InRegion(c)
    ensures Mirrors(v, Gather(v, clusters), SubDirectory(v, d, e, clusters))
  {
    hide Gather, v.Valid, v.Offset, Absolute, Locate, SubDirectory;
    var buf, sub := Gather(v, clusters), SubDirectory(v, d, e, clusters);
    forall o: nat | o < |buf| && o % ENTRY == 0
      ensures MirrorsAt(v, buf, sub, o)
    {
      AbsoluteIsLocate(v, d, e, clusters, o);
      GatherEntry(v, clusters, o);
    }
  }

  // ---------------------------------------------------------------- the invariant of the walk

  ghost predicate EndsWith(s: string, tail: string) {
    |s| >= |tail| && s[|s| - |tail|..] == tail
  }

  ghost predicate InTree(d: Directory) {
    EndsWith(d.path, "/")
  }

  /** The record describes the 32 bytes of the image at its `entryOffset`. */
  ghost predicate DescribesEntry(v: Volume, r: Record) {
    && r.entryOffset + ENTRY <= |v.data|
    && var raw := v.data[r.entryOffset..r.entryOffset + ENTRY];
    && r.rawName == raw[..11]
    && r.isDirectory == (raw[11] == ATTR_DIRECTORY) && raw[11] in {ATTR_DIRECTORY, ATTR_FILE}
    && r.cluster == U16(raw, 26) && r.size == U32(raw, 28)
    && Name(raw[..11]).Success? && EndsWith(r.path, "/" + Name(raw[..11]).value)
  }

  /** The record's clusters are the whole FAT chain of its first cluster, as many as its size needs. */
  ghost predicate OwnsChain(v: Volume, r: Record)
    requires v.Valid()
  {
    && FollowsLinks(v, r.clusters) && Distinct(r.clusters)
    && (r.clusters != [] ==> r.clusters[0] == r.cluster)
    && (r.isDirectory ==> r.clusters != [] && r.size == 0)
    && (!r.isDirectory ==> |r.clusters| == CeilDiv(r.size, v.clusterBytes))
    && (r.clusters == [] ==> r.cluster == 0)
  }

  ghost predicate HoldsFile(v: Volume, t: Tables, r: Record)
    requires v.Valid()
  {
    r.path in t.files && |t.files[r.path]| == r.size && StoredAt(v, r.clusters, t.files[r.path])
  }

  ghost predicate RecordOk(v: Volume, t: Tables, r: Record)
    requires v.Valid()
  {
    && DescribesEntry(v, r) && OwnsChain(v, r)
    && r.path in t.paths
    && (forall c :: c in r.clusters ==> c in t.claimed && t.claimed[c] == r.path)
    && (!r.isDirectory ==> HoldsFile(v, t, r))
    && (r.isDirectory ==> r.path !in t.files)
  }

  ghost predicate RecordsOk(v: Volume, t: Tables)
    requires v.Valid()
  {
    forall i :: 0 <= i < |t.entries| ==> RecordOk(v, t, t.entries[i])
  }

  ghost predicate PathsDistinct(entries: seq<Record>) {
    forall i, j :: 0 <= i < j < |entries| ==> entries[i].path != entries[j].path
  }

  ghost predicate ClaimsRecorded(t: Tables) {
    forall c :: c in t.claimed ==> exists i :: 0 <= i < |t.entries| && c in t.entries[i].clusters
  }

  ghost predicate PathsRecorded(t: Tables) {
    && (forall p :: p in t.paths ==> exists i :: 0 <= i < |t.entries| && t.entries[i].path == p)
    && |t.entries| == |t.paths| <= MAX_PATHS
    && t.files.Keys <= t.paths
  }

  /** Everything recorded is right, and nothing is claimed, named or stored without a record. */
  ghost predicate Sound(v: Volume, t: Tables)
    requires v.Valid()
  {
    RecordsOk(v, t) && PathsDistinct(t.entries) && ClaimsRecorded(t) && PathsRecorded(t)
  }

  /** Recording only ever adds. */
  ghost predicate Extends(t: Tables, after: Tables) {
    && t.entries <= after.entries && t.paths <= after.paths
    && t.claimed.Keys <= after.claimed.Keys && (forall c :: c in t.claimed ==> after.claimed[c] == t.claimed[c])
    && t.files.Keys <= after.files.Keys && (forall p :: p in t.files ==> after.files[p] == t.files[p])
  }

  lemma RecordStays(v: Volume, t: Tables, after: Tables, r: Record)
    requires v.Valid() && RecordOk(v, t, r) && t.paths <= after.paths
    requires forall c :: c in t.claimed ==> c in after.claimed && after.claimed[c] == t.claimed[c]
    requires forall p :: p in t.files ==> p in after.files && after.files[p] == t.files[p]
    requires r.path in after.files ==> r.path in t.files
    ensures RecordOk(v, after, r)
  {
  }

  /** `after` is `t` with one record more. */
  ghost predicate Adds(t: Tables, after: Tables, r: Record) {
    && r.path !in t.paths && after.entries == t.entries + [r] && after.paths == t.paths + {r.path}
    && (forall c :: c in t.claimed ==> c in after.claimed && after.claimed[c] == t.claimed[c])
    && (forall c :: c in after.claimed <==> c in t.claimed || c in r.clusters)
    && (forall p :: p in t.files ==> p in after.files && after.files[p] == t.files[p])
    && after.files.Keys == t.files.Keys + if r.isDirectory then {} else {r.path}
  }

  lemma RecordHasPath(v: Volume, t: Tables, r: Record)
    requires v.Valid() && RecordOk(v, t, r)
    ensures r.path in t.paths
  {
  }

  lemma AddKeepsRecordsOk(v: Volume, t: Tables, after: Tables, r: Record)
    requires v.Valid() && RecordsOk(v, t) && Adds(t, after, r) && RecordOk(v, after, r)
    ensures RecordsOk(v, after)
    ensures forall i :: 0 <= i < |t.entries| ==> t.entries[i].path in t.paths
  {
    hide v.Valid, DescribesEntry, OwnsChain, HoldsFile, RecordOk;
    forall i | 0 <= i < |t.entries|
      ensures RecordOk(v, after, t.entries[i]) && t.entries[i].path in t.paths
    {
      RecordHasPath(v, t, t.entries[i]);
      RecordStays(v, t, after, t.entries[i]);
    }
    forall i | 0 <= i < |after.entries|
      ensures RecordOk(v, after, after.entries[i])
    {
      if i < |t.entries| { assert after.entries[i] == t.entries[i]; } else { assert after.entries[i] == r; }
    }
  }

  lemma AddKeepsClaimsRecorded(t: Tables, after: Tables, r: Record)
    requires ClaimsRecorded(t) && Adds(t, after, r)
    ensures ClaimsRecorded(after)
  {
    forall c | c in after.claimed
      ensures exists i :: 0 <= i < |after.entries| && c in after.entries[i].clusters
    {
      if c in t.claimed {
        var i :| 0 <= i < |t.entries| && c in t.entries[i].clusters;
        assert c in after.entries[i].clusters;
      } else {
        assert c in after.entries[|t.entries|].clusters;
      }
    }
  }

  lemma AddKeepsPathsRecorded(t: Tables, after: Tables, r: Record)
    requires PathsRecorded(t) && Adds(t, after, r) && |after.paths| <= MAX_PATHS
    ensures PathsRecorded(after)
  {
    forall p | p in after.paths
      ensures exists i :: 0 <= i < |after.entries| && after.entries[i].path == p
    {
      if p in t.paths {
        var i :| 0 <= i < |t.entries| && t.entries[i].path == p;
        assert after.entries[i].path == p;
      } else {
        assert after.entries[|t.entries|].path == p;
      }
    }
  }

  /** One more record, fit to be recorded, keeps the tables sound. */
  lemma AddKeepsSound(v: Volume, t: Tables, after: Tables, r: Record)
    requires v.Valid() && Sound(v, t) && Adds(t, after, r) && |after.paths| <= MAX_PATHS && RecordOk(v, after, r)
    ensures Sound(v, after) && Extends(t, after)
  {
    hide v.Valid, RecordOk, RecordsOk, ClaimsRecorded, PathsRecorded, PathsDistinct, Adds, Extends;
    AddExtends(t, after, r);
    AddKeepsRecordsOk(v, t, after, r);
    AddKeepsClaimsRecorded(t, after, r);
    AddKeepsPathsRecorded(t, after, r);
    AddKeepsPathsDistinct(t, after, r);
  }

  lemma AddExtends(t: Tables, after: Tables, r: Record)
    requires Adds(t, after, r)
    ensures Extends(t, after)
  {
  }

  lemma AddKeepsPathsDistinct(t: Tables, after: Tables, r: Record)
    requires PathsDistinct(t.entries) && Adds(t, after, r)
    requires forall i :: 0 <= i < |t.entries| ==> t.entries[i].path in t.paths
    ensures PathsDistinct(after.entries)
  {
  }

  lemma PlaceOutcome(v: Volume, raw: seq<Byte>, absolute: nat, d: Directory, e: Entry, t: Tables)
    requires v.Valid() && |raw| == ENTRY
    ensures match Place(v, raw, absolute, d, e, t)
            case Failure(x) => x.DuplicatePath? ==> d.path + e.name in t.paths
            case Success(t') =>
              var r := t'.entries[|t.entries|];
              && t'.entries == t.entries + [r] && t'.files == t.files
              && r.path == d.path + e.name && r.path !in t.paths
              && t'.paths == t.paths + {r.path} && |t'.paths| <= MAX_PATHS
              && r == Record(r.path, raw[..11], absolute, e.first, e.size, e.attr == ATTR_DIRECTORY, r.clusters)
              && FollowsLinks(v, r.clusters) && Distinct(r.clusters)
              && (r.clusters != [] ==> r.clusters[0] == r.cluster)
              && (e.attr == ATTR_FILE ==> |r.clusters| == CeilDiv(e.size, v.clusterBytes))
              && (r.clusters == [] ==> r.cluster == 0)
              && (forall c :: c in t.claimed ==> c in t'.claimed && t'.claimed[c] == t.claimed[c])
              && (forall c :: c in t'.claimed <==> c in t.claimed || c in r.clusters)
              && (forall c :: c in r.clusters ==> t'.claimed[c] == r.path && c !in t.claimed)
    ensures Place(v, raw, absolute, d, e, t).Failure? ==> !Place(v, raw, absolute, d, e, t).error.BeyondImage?
  {
    ChainClaims(v, e.first, d.path + e.name, {}, t.claimed);
    CeilDivCovers(e.size, v.clusterBytes);
  }

  lemma ReadEntryMeans(raw: seq<Byte>, d: Directory, names: set<string>)
    requires |raw| == ENTRY
    ensures match ReadEntry(raw, d, names)
            case Failure(x) => !x.DuplicatePath? && !x.BeyondImage?
            case Success(e) =>
              && e.attr == raw[11] && e.attr in {ATTR_DIRECTORY, ATTR_FILE}
              && Name(raw[..11]) == Success(e.name) && e.name !in names
              && e.first == U16(raw, 26) && e.size == U32(raw, 28)
  {
  }

  lemma NameErrors(raw: seq<Byte>)
    requires |raw| == 11
    ensures Name(raw).Failure? ==> !Name(raw).error.DuplicatePath? && !Name(raw).error.BeyondImage?
    ensures Name(raw).Success? ==> '/' !in Name(raw).value && Name(raw).value != ""
  {
    hide RStrip, Ascii, Forbidden;
    if Name(raw).Success? && raw != DOT_NAME && raw != DOT_DOT_NAME {
      NoSlash(RStrip(raw[..8]), RStrip(raw[8..]));
    }
  }

  lemma NoSlash(base: seq<Byte>, ext: seq<Byte>)
    requires forall c :: c in base + ext ==> !Forbidden(c)
    ensures '/' !in Ascii(base) && '/' !in Ascii(ext)
  {
    forall i | 0 <= i < |base| ensures base[i] != 47 { assert (base + ext)[i] == base[i] && base[i] in base + ext; }
    forall i | 0 <= i < |ext|
      ensures ext[i] != 47
    {
      assert (base + ext)[|base| + i] == ext[i] && ext[i] in base + ext;
    }
  }

  lemma {:induction false} WalkKeepsSound(v: Volume, buf: seq<Byte>, d: Directory, t: Tables)
    requires v.Valid() && Fits(v, buf, d) && Mirrors(v, buf, d) && InTree(d) && Sound(v, t)
    ensures Walk(v, buf, d, t).Success? ==>
      Sound(v, Walk(v, buf, d, t).value) && Extends(t, Walk(v, buf, d, t).value)
    decreases 20 - d.depth, |buf| + 1
  {
    if d.depth <= MAX_DEPTH {
      ScanKeepsSound(v, buf, d, 0, {}, {}, t);
    }
  }

  lemma {:induction false} ScanKeepsSound(
    v: Volume, buf: seq<Byte>, d: Directory, offset: nat, names: set<string>, dots: set<string>, t: Tables)
    requires v.Valid() && Fits(v, buf, d) && Mirrors(v, buf, d) && InTree(d) && Sound(v, t)
    requires offset % ENTRY == 0 && offset <= |buf| && d.depth <= MAX_DEPTH
    ensures var r := Scan(v, buf, d, offset, names, dots, t);
      r.Success? ==> Sound(v, r.value) && Extends(t, r.value)
    decreases 20 - d.depth, |buf| - offset
  {
    hide v.Valid, Name, Place, Absolute, ReadEntry, CheckDot, Enter, Sound, Extends;
    ExtendsSelf(t);
    if offset < |buf| && buf[offset] != 0 {
      var next, raw := offset + ENTRY, buf[offset..offset + ENTRY];
      if raw[0] == 0xE5 {
        ScanKeepsSound(v, buf, d, next, names, dots, t);
      } else if ReadEntry(raw, d, names).Success? {
        var e := ReadEntry(raw, d, names).value;
        if IsDot(e.name) {
          ScanKeepsSound(v, buf, d, next, names + {e.name}, dots + {e.name}, t);
        } else {
          assert MirrorsAt(v, buf, d, offset);
          var at := Absolute(v, buf, d, offset);
          EnterKeepsSound(v, raw, at, d, names, e, t);
          var entered := Enter(v, raw, at, d, e, t);
          if entered.Success? {
            ScanKeepsSound(v, buf, d, next, names + {e.name}, dots, entered.value);
            var rest := Scan(v, buf, d, next, names + {e.name}, dots, entered.value);
            if rest.Success? { ExtendsTransitive(t, entered.value, rest.value); }
          }
        }
      }
    }
  }

  lemma {:induction false} EnterKeepsSound(
    v: Volume, raw: seq<Byte>, at: nat, d: Directory, names: set<string>, e: Entry, t: Tables)
    requires v.Valid() && |raw| == ENTRY && d.depth <= MAX_DEPTH && InTree(d) && Sound(v, t)
    requires at + ENTRY <= |v.data| && raw == v.data[at..at + ENTRY]
    requires ReadEntry(raw, d, names) == Success(e)
    ensures var r := Enter(v, raw, at, d, e, t);
      r.Success? ==> Sound(v, r.value) && Extends(t, r.value)
    decreases 20 - d.depth, 0
  {
    hide v.Valid, Place, ReadEntry, Walk, Gather, Sound, Extends, Adds, RecordOk, SubDirectory;
    var placed := Place(v, raw, at, d, e, t);
    if placed.Success? && Enter(v, raw, at, d, e, t).Success? {
      var after := Enter(v, raw, at, d, e, t).value;
      var r := placed.value.entries[|t.entries|];
      PlaceOutcome(v, raw, at, d, e, t);
      ReadEntryMeans(raw, d, names);
      PlacedIsSound(v, raw, at, d, names, e, t, placed.value, r);
      if e.attr != ATTR_FILE {
        var buf, sub := Gather(v, r.clusters), SubDirectory(v, d, e, r.clusters);
        SubDirectoryMirrors(v, d, e, r.clusters);
        WalkKeepsSound(v, buf, sub, placed.value);
        ExtendsTransitive(t, placed.value, after);
      }
    }
  }

  lemma ExtendsSelf(t: Tables)
    ensures Extends(t, t)
  {
  }

  lemma ExtendsTransitive(a: Tables, b: Tables, c: Tables)
    requires Extends(a, b) && Extends(b, c)
    ensures Extends(a, c)
  {
  }

  lemma PlacedDescribes(v: Volume, raw: seq<Byte>, at: nat, d: Directory, names: set<string>, e: Entry, r: Record)
    requires |raw| == ENTRY && at + ENTRY <= |v.data| && raw == v.data[at..at + ENTRY]
    requires ReadEntry(raw, d, names) == Success(e) && InTree(d)
    requires r == Record(d.path + e.name, raw[..11], at, e.first, e.size, e.attr == ATTR_DIRECTORY, r.clusters)
    ensures DescribesEntry(v, r)
  {
    hide Name, ReadEntry, U16, U32;
    ReadEntryMeans(raw, d, names);
    assert v.data[r.entryOffset..r.entryOffset + ENTRY] == raw;
    var tail := "/" + e.name;
    assert r.path[|r.path| - |tail|..] == tail;
  }

  lemma PlacedOwnsChain(v: Volume, raw: seq<Byte>, at: nat, d: Directory, e: Entry, t: Tables)
    requires v.Valid() && |raw| == ENTRY && e.attr in {ATTR_DIRECTORY, ATTR_FILE}
    requires Place(v, raw, at, d, e, t).Success?
    requires e.attr != ATTR_FILE ==> e.size == 0
    ensures OwnsChain(v, Place(v, raw, at, d, e, t).value.entries[|t.entries|])
  {
    hide v.Valid, Place, Distinct, FollowsLinks, CeilDiv;
    PlaceOutcome(v, raw, at, d, e, t);
  }

  /** Placing a directory, or placing a file and storing its content, keeps the tables sound. */
  lemma PlacedIsSound(
    v: Volume, raw: seq<Byte>, at: nat, d: Directory, names: set<string>, e: Entry, t: Tables, placed: Tables,
    r: Record)
    requires v.Valid() && |raw| == ENTRY && InTree(d) && Sound(v, t)
    requires at + ENTRY <= |v.data| && raw == v.data[at..at + ENTRY]
    requires ReadEntry(raw, d, names) == Success(e)
    requires Place(v, raw, at, d, e, t) == Success(placed) && placed.entries == t.entries + [r]
    requires e.attr != ATTR_FILE ==> e.size == 0
    requires (forall c :: c in r.clusters ==> v.InRegion(c)) && |Gather(v, r.clusters)| >= r.size
    ensures Sound(v, Stored(v, placed, r)) && Extends(t, Stored(v, placed, r))
  {
    hide v.Valid, Name, Place, ReadEntry, Sound, Extends, Gather, InTree, Adds, RecordOk;
    ReadEntryMeans(raw, d, names);
    PathsOfFiles(v, t);
    PlacedAdds(v, raw, at, d, e, t);
    PlacedRecordOk(v, raw, at, d, names, e, t);
    AddKeepsSound(v, t, Stored(v, placed, r), r);
  }

  /** The tables after an entry without a subtree: the record placed and, for a file, its content stored. */
  ghost function Stored(v: Volume, placed: Tables, r: Record): Tables
    requires v.Valid() && (forall c :: c in r.clusters ==> v.InRegion(c)) && |Gather(v, r.clusters)| >= r.size
  {
    if r.isDirectory then placed else placed.(files := placed.files[r.path := Gather(v, r.clusters)[..r.size]])
  }

  lemma PlacedAdds(v: Volume, raw: seq<Byte>, at: nat, d: Directory, e: Entry, t: Tables)
    requires v.Valid() && |raw| == ENTRY && e.attr in {ATTR_DIRECTORY, ATTR_FILE} && t.files.Keys <= t.paths
    requires Place(v, raw, at, d, e, t).Success? && (e.attr != ATTR_FILE ==> e.size == 0)
    ensures var placed := Place(v, raw, at, d, e, t).value;
      var r := placed.entries[|t.entries|];
      Adds(t, Stored(v, placed, r), r) && |placed.paths| <= MAX_PATHS
  {
    hide v.Valid, Place, Distinct, Gather, FollowsLinks;
    PlaceOutcome(v, raw, at, d, e, t);
  }

  lemma PlacedRecordOk(v: Volume, raw: seq<Byte>, at: nat, d: Directory, names: set<string>, e: Entry, t: Tables)
    requires v.Valid() && |raw| == ENTRY && InTree(d) && t.files.Keys <= t.paths
    requires at + ENTRY <= |v.data| && raw == v.data[at..at + ENTRY]
    requires ReadEntry(raw, d, names) == Success(e)
    requires Place(v, raw, at, d, e, t).Success? && (e.attr != ATTR_FILE ==> e.size == 0)
    ensures var placed := Place(v, raw, at, d, e, t).value;
      var r := placed.entries[|t.entries|];
      RecordOk(v, Stored(v, placed, r), r)
  {
    hide v.Valid, Place, ReadEntry, DescribesEntry, OwnsChain, Distinct, Gather, InTree, HoldsFile, Name, U16, U32,
      FollowsLinks;
    ReadEntryMeans(raw, d, names);
    PlaceOutcome(v, raw, at, d, e, t);
    var placed := Place(v, raw, at, d, e, t).value;
    var r := placed.entries[|t.entries|];
    PlacedDescribes(v, raw, at, d, names, e, r);
    PlacedOwnsChain(v, raw, at, d, e, t);
    if e.attr == ATTR_FILE {
      PlacedHoldsFile(v, Stored(v, placed, r), r);
    }
  }

  lemma PlacedHoldsFile(v: Volume, t: Tables, r: Record)
    requires v.Valid() && (forall c :: c in r.clusters ==> v.InRegion(c))
    requires |r.clusters| == CeilDiv(r.size, v.clusterBytes) && r.path in t.files
    requires |Gather(v, r.clusters)| >= r.size && t.files[r.path] == Gather(v, r.clusters)[..r.size]
    ensures HoldsFile(v, t, r)
  {
    hide Gather, ByteAt;
    GatherStored(v, r.clusters);
  }

  lemma PathsOfFiles(v: Volume, t: Tables)
    requires v.Valid() && Sound(v, t)
    ensures t.files.Keys <= t.paths
  {
  }

  // ---------------------------------------------------------------- theorems about accepted images

  lemma LoadIsSound(data: seq<Byte>)
    ensures match Load(data)
            case Failure(_) => true
            case Success((v, t)) => v.Valid() && v.data == data && Sound(v, t)
  {
    hide Walk, Open;
    if Load(data).Success? {
      var v := Load(data).value.0;
      RootMirrors(v);
      assert Sound(v, EMPTY_TABLES);
      WalkKeepsSound(v, v.Root(), RootDirectory(v), EMPTY_TABLES);
    }
  }

  lemma {:induction false} NoLeaks(v: Volume, from: nat, claimed: map<nat, string>, c: nat)
    requires v.Valid() && from <= c < v.clusterCount + 2 && CheckLeaks(v, from, claimed).Success?
    ensures v.Fat(c) != 0 ==> c in claimed
    decreases c - from
  {
    if from < c {
      NoLeaks(v, from + 1, claimed, c);
    }
  }

  /** The clusters in use are exactly the claimed ones, split among the records without overlap. */
  ghost predicate Partitioned(v: Volume, t: Tables)
    requires v.Valid()
  {
    && (forall c :: v.InRegion(c) ==> (v.Fat(c) != 0 <==> c in t.claimed))
    && (forall c :: c in t.claimed ==> v.InRegion(c))
    && (forall c :: c in t.claimed <==> exists i :: 0 <= i < |t.entries| && c in t.entries[i].clusters)
    && (forall i, j, c :: (0 <= i < |t.entries| && 0 <= j < |t.entries|
          && c in t.entries[i].clusters && c in t.entries[j].clusters) ==> i == j)
    && (forall i :: 0 <= i < |t.entries| ==> OwnsChain(v, t.entries[i]))
  }

  lemma AcceptedImageIsPartitioned(data: seq<Byte>)
    ensures match Load(data)
            case Failure(_) => true
            case Success((v, t)) => v.Valid() && v.data == data && Partitioned(v, t)
  {
    hide Walk, Open, DescribesEntry, OwnsChain, HoldsFile;
    LoadIsSound(data);
    if Load(data).Success? {
      var (v, t) := Load(data).value;
      assert CheckLeaks(v, 2, t.claimed).Success?;
      forall c | v.InRegion(c)
        ensures v.Fat(c) != 0 <==> c in t.claimed
      {
        NoLeaks(v, 2, t.claimed, c);
        if c in t.claimed {
          ClaimedIsLinked(v, t, c);
        }
      }
      forall c | c in t.claimed ensures v.InRegion(c) { ClaimedIsLinked(v, t, c); }
      forall i, c | 0 <= i < |t.entries| && c in t.entries[i].clusters
        ensures c in t.claimed && t.claimed[c] == t.entries[i].path
      {
        assert RecordOk(v, t, t.entries[i]);
      }
      forall i | 0 <= i < |t.entries| ensures OwnsChain(v, t.entries[i]) { assert RecordOk(v, t, t.entries[i]); }
    }
  }

  lemma ChainIsLinked(v: Volume, clusters: seq<nat>, c: nat)
    requires v.Valid() && FollowsLinks(v, clusters) && c in clusters
    ensures v.InRegion(c) && v.Fat(c) != 0
  {
    hide v.Valid, v.Fat;
    var k :| 0 <= k < |clusters| && clusters[k] == c;
    if k < |clusters| - 1 {
      assert v.Fat(clusters[k]) == clusters[k + 1] && v.InRegion(clusters[k + 1]);
    }
  }

  lemma ClaimedIsLinked(v: Volume, t: Tables, c: nat)
    requires v.Valid() && Sound(v, t) && c in t.claimed
    ensures v.InRegion(c) && v.Fat(c) != 0
  {
    hide v.Valid, DescribesEntry, HoldsFile, FollowsLinks, Distinct, PathsDistinct, PathsRecorded;
    var i :| 0 <= i < |t.entries| && c in t.entries[i].clusters;
    assert RecordOk(v, t, t.entries[i]);
    ChainIsLinked(v, t.entries[i].clusters, c);
  }

  /** Every record sits at its place in the image, and a path is a file exactly when some record says so. */
  lemma AcceptedImagePlacesEveryByte(data: seq<Byte>)
    ensures match Load(data)
            case Failure(_) => true
            case Success((v, t)) =>
              && v.Valid() && v.data == data
              && (forall i :: 0 <= i < |t.entries| ==>
                    && DescribesEntry(v, t.entries[i])
                    && (!t.entries[i].isDirectory ==> HoldsFile(v, t, t.entries[i])))
              && (forall p :: p in t.files <==>
                    exists i :: 0 <= i < |t.entries| && t.entries[i].path == p && !t.entries[i].isDirectory)
  {
    hide Load;
    LoadIsSound(data);
    if Load(data).Success? {
      var (v, t) := Load(data).value;
      forall i | 0 <= i < |t.entries| ensures RecordOk(v, t, t.entries[i]) { }
      forall p | p in t.files
        ensures exists i :: 0 <= i < |t.entries| && t.entries[i].path == p && !t.entries[i].isDirectory
      {
        var i :| 0 <= i < |t.entries| && t.entries[i].path == p;
        assert RecordOk(v, t, t.entries[i]);
      }
    }
  }

  /** Full paths are distinct over the whole tree, and counted. */
  lemma AcceptedPathsAreDistinct(data: seq<Byte>)
    ensures match Load(data)
            case Failure(_) => true
            case Success((v, t)) =>
              && (forall i, j :: 0 <= i < j < |t.entries| ==> t.entries[i].path != t.entries[j].path)
              && (forall p :: p in t.paths <==> exists i :: 0 <= i < |t.entries| && t.entries[i].path == p)
              && |t.entries| == |t.paths| <= MAX_PATHS
  {
    hide Load;
    LoadIsSound(data);
    if Load(data).Success? {
      var (v, t) := Load(data).value;
      forall i | 0 <= i < |t.entries| ensures t.entries[i].path in t.paths { assert RecordOk(v, t, t.entries[i]); }
    }
  }

  // ---------------------------------------------------------------- checks that never fire

  /** The first component of a relative path. */
  ghost function First(s: string): string {
    if s == "" || s[0] == '/' then "" else [s[0]] + First(s[1..])
  }

  lemma {:induction false} FirstOfName(name: string, rest: string)
    requires '/' !in name
    requires rest == "" || rest[0] == '/'
    ensures First(name + rest) == name
  {
    if name == "" {
      assert name + rest == rest;
    } else {
      assert (name + rest)[1..] == name[1..] + rest;
      FirstOfName(name[1..], rest);
    }
  }

  /** Every recorded path below this directory goes through one of the names already seen in it. */
  ghost predicate Through(paths: set<string>, path: string, names: set<string>) {
    forall p :: p in paths && path <= p ==> First(p[|path|..]) in names
  }

  ghost predicate OnlyBelow(before: set<string>, after: set<string>, path: string) {
    forall p :: p in after ==> p in before || path <= p
  }

  /** The global duplicate-path check and the second bounds check of a cluster offset are not among the outcomes. */
  ghost predicate NoDeadCheck<T>(r: Checked<T>) {
    r.Failure? ==> !r.error.DuplicatePath? && !r.error.BeyondImage?
  }

  lemma {:induction false} WalkHasNoDeadCheck(v: Volume, buf: seq<Byte>, d: Directory, t: Tables)
    requires v.Valid() && Fits(v, buf, d) && Through(t.paths, d.path, {})
    ensures NoDeadCheck(Walk(v, buf, d, t))
    ensures Walk(v, buf, d, t).Success? ==> OnlyBelow(t.paths, Walk(v, buf, d, t).value.paths, d.path)
    decreases 20 - d.depth, |buf| + 1
  {
    if d.depth <= MAX_DEPTH {
      ScanHasNoDeadCheck(v, buf, d, 0, {}, {}, t);
    }
  }

  lemma {:induction false} ScanHasNoDeadCheck(
    v: Volume, buf: seq<Byte>, d: Directory, offset: nat, names: set<string>, dots: set<string>, t: Tables)
    requires v.Valid() && Fits(v, buf, d) && offset % ENTRY == 0 && offset <= |buf| && d.depth <= MAX_DEPTH
    requires Through(t.paths, d.path, names)
    ensures var r := Scan(v, buf, d, offset, names, dots, t);
      NoDeadCheck(r) && (r.Success? ==> OnlyBelow(t.paths, r.value.paths, d.path))
    decreases 20 - d.depth, |buf| - offset
  {
    hide Name, Place, Absolute, ReadEntry, Enter;
    if offset < |buf| && buf[offset] != 0 {
      var next, raw := offset + ENTRY, buf[offset..offset + ENTRY];
      ReadEntryMeans(raw, d, names);
      if raw[0] == 0xE5 {
        ScanHasNoDeadCheck(v, buf, d, next, names, dots, t);
      } else if ReadEntry(raw, d, names).Success? {
        var e := ReadEntry(raw, d, names).value;
        if IsDot(e.name) {
          ScanHasNoDeadCheck(v, buf, d, next, names + {e.name}, dots + {e.name}, t);
        } else {
          var at := Absolute(v, buf, d, offset);
          NameErrors(raw[..11]);
          EnterHasNoDeadCheck(v, raw, at, d, e, names, t);
          var entered := Enter(v, raw, at, d, e, t);
          if entered.Success? {
            ScanHasNoDeadCheck(v, buf, d, next, names + {e.name}, dots, entered.value);
          }
        }
      }
    }
  }

  lemma {:induction false} EnterHasNoDeadCheck(
    v: Volume, raw: seq<Byte>, at: nat, d: Directory, e: Entry, names: set<string>, t: Tables)
    requires v.Valid() && |raw| == ENTRY && d.depth <= MAX_DEPTH
    requires Through(t.paths, d.path, names) && e.name !in names && '/' !in e.name
    ensures var r := Enter(v, raw, at, d, e, t);
      && NoDeadCheck(r)
      && (r.Success? ==> OnlyBelow(t.paths, r.value.paths, d.path) && Through(r.value.paths, d.path, names + {e.name}))
    decreases 20 - d.depth, 0
  {
    hide Place, Walk, Gather;
    var path := d.path + e.name;
    var below := path + "/";
    assert path[|d.path|..] == e.name && e.name + "" == e.name;
    FirstOfName(e.name, "");
    PlaceOutcome(v, raw, at, d, e, t);
    forall p | below <= p
      ensures d.path <= p && First(p[|d.path|..]) == e.name
    {
      var rest := p[|path|..];
      assert p == d.path + (e.name + rest);
      assert p[|d.path|..] == e.name + rest && rest[0] == '/';
      FirstOfName(e.name, rest);
    }
    var placed := Place(v, raw, at, d, e, t);
    if placed.Success? && e.attr != ATTR_FILE && e.size == 0 {
      var clusters := placed.value.entries[|t.entries|].clusters;
      assert Through(placed.value.paths, below, {});
      WalkHasNoDeadCheck(v, Gather(v, clusters), SubDirectory(v, d, e, clusters), placed.value);
    }
  }

  lemma {:induction false} LeakCheckErrors(v: Volume, from: nat, claimed: map<nat, string>)
    requires v.Valid() && from <= v.clusterCount + 2
    ensures NoDeadCheck(CheckLeaks(v, from, claimed))
    decreases v.clusterCount + 2 - from
  {
    if from < v.clusterCount + 2 {
      LeakCheckErrors(v, from + 1, claimed);
    }
  }

  /**
   On every byte string the reader either accepts or reports one of its other checks: a full path is
   never met twice, and no cluster that passed the region check extends beyond the image.
   */
  lemma DeadChecksNeverFire(data: seq<Byte>)
    ensures NoDeadCheck(Load(data))
  {
    hide Walk, Open, CheckLeaks;
    OpenErrors(data);
    if Open(data).Success? {
      var v := Open(data).value;
      assert |v.Root()| == v.rootEntries * ENTRY;
      WalkHasNoDeadCheck(v, v.Root(), RootDirectory(v), EMPTY_TABLES);
      var walked := Walk(v, v.Root(), RootDirectory(v), EMPTY_TABLES);
      if walked.Success? {
        LeakCheckErrors(v, 2, walked.value.claimed);
      }
    }
  }

  lemma OpenErrors(data: seq<Byte>)
    ensures NoDeadCheck(Open(data))
  {
  }

}
