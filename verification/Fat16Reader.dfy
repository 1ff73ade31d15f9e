/**
 The stateful FAT16 reader: fields updated while the directories are walked, loops over chains,
 entries and clusters. Every method is proved equal to the function of the image it computes.
 */
module Fat16Reader {
  import opened Wrappers
  import opened Arithmetic
  import opened Bytes
  import opened Fat16

  /** A chain computed so far, followed by the rest of it. */
  function After(clusters: seq<nat>, rest: Checked<(seq<nat>, map<nat, string>)>)
    : Checked<(seq<nat>, map<nat, string>)>
  {
    match rest
    case Success(r) => Success((clusters + r.0, r.1))
    case Failure(e) => Failure(e)
  }

  lemma {:induction false} GatherAppend(v: Volume, clusters: seq<nat>, last: nat)
    requires v.Valid() && v.InRegion(last) && forall c :: c in clusters ==> v.InRegion(c)
    ensures v.Offset(last) + v.clusterBytes <= |v.data|
    ensures Gather(v, clusters + [last])
         == Gather(v, clusters) + v.data[v.Offset(last)..v.Offset(last) + v.clusterBytes]
  {
    v.OffsetInside(last);
    if clusters == [] {
      assert [] + [last] == [last];
      assert Gather(v, [last][1..]) == [];
    } else {
      assert (clusters + [last])[1..] == clusters[1..] + [last];
      GatherAppend(v, clusters[1..], last);
    }
  }

  class Reader {
    const data: seq<Byte>
    var volume: Volume
    var claimed: map<nat, string>
    var files: map<string, seq<Byte>>
    var entries: seq<Record>
    var paths: set<string>

    constructor (data: seq<Byte>)
      ensures this.data == data
    {
      this.data := data;
      volume := Volume([], 1, 512, 0, 0, 0, 0, 0, 0);
      claimed, files, entries, paths := map[], map[], [], {};
    }

    ghost function State(): Tables
      reads this
    {
      Tables(claimed, files, entries, paths)
    }

    /** The method's outcome and new state are those of the function. */
    ghost predicate Agrees(spec: Checked<Tables>, r: Checked<()>)
      reads this
    {
      match spec
      case Success(t) => r == Success(()) && State() == t
      case Failure(e) => r == Failure(e)
    }

    method Init() returns (r: Checked<()>)
      modifies this
      ensures match Load(data)
              case Success((v, t)) => r == Success(()) && volume == v && State() == t
              case Failure(e) => r == Failure(e)
    {
      volume :- Open(data);
      r := Mount();
    }

    /** The part of the constructor after the geometry checks. */
    method Mount() returns (r: Checked<()>)
      requires volume.Valid()
      modifies `claimed, `files, `entries, `paths
      ensures Agrees(Contents(volume), r)
    {
      hide Walk;
      claimed, files, entries, paths := map[], map[], [], {};
      var root := volume.Root();
      assert |root| == volume.rootEntries * ENTRY;
      var _ :- WalkDirectory(root, RootDirectory(volume));
      var cluster := 2;
      while cluster < volume.clusterCount + 2
        invariant 2 <= cluster <= volume.clusterCount + 2
        invariant CheckLeaks(volume, cluster, claimed) == CheckLeaks(volume, 2, claimed)
      {
        if volume.Fat(cluster) != 0 && cluster !in claimed {
          return Failure(Unreachable(cluster));
        }
        cluster := cluster + 1;
      }
      r := Success(());
    }

    method FollowChain(start: nat, owner: string) returns (r: Checked<seq<nat>>)
      requires volume.Valid()
      modifies `claimed
      ensures match Chain(volume, start, owner, {}, old(claimed))
              case Success((clusters, after)) => r == Success(clusters) && claimed == after
              case Failure(e) => r == Failure(e)
    {
      var clusters: seq<nat>, seen: set<nat>, current := [], {}, start;
      assert forall rest: seq<nat> :: [] + rest == rest;
      while true
        invariant After(clusters, Chain(volume, current, owner, seen, claimed))
               == Chain(volume, start, owner, {}, old(claimed))
        decreases Unclaimed(volume, claimed)
      {
        if current >= 0xFFF0 { return Failure(ReservedCluster(current)); }
        var _ :- volume.ClusterOffset(current);
        if current in seen { return Failure(Cycle(current)); }
        if current in claimed { return Failure(CrossLinked(current)); }
        assert current in Unclaimed(volume, claimed);
        seen := seen + {current};
        claimed := claimed[current := owner];
        assert current !in Unclaimed(volume, claimed);
        var following := volume.Fat(current);
        ghost var before := clusters;
        clusters := clusters + [current];
        if following >= 0xFFF8 { return Success(clusters); }
        if !(2 <= following < 0xFFF0) { return Failure(BadLink(following)); }
        assert forall rest: seq<nat> :: before + ([current] + rest) == clusters + rest;
        current := following;
      }
    }

    /** The places of a chain's clusters, and the bytes stored there. */
    method ReadClusters(clusters: seq<nat>) returns (positions: seq<nat>, payload: seq<Byte>)
      requires volume.Valid() && forall c :: c in clusters ==> volume.InRegion(c)
      ensures positions == Positions(volume, clusters) && payload == Gather(volume, clusters)
    {
      positions, payload := [], [];
      for i := 0 to |clusters|
        invariant positions == Positions(volume, clusters[..i])
        invariant payload == Gather(volume, clusters[..i])
      {
        volume.OffsetInside(clusters[i]);
        var p := volume.ClusterOffset(clusters[i]).Extract();
        positions := positions + [p];
        GatherAppend(volume, clusters[..i], clusters[i]);
        assert clusters[..i + 1] == clusters[..i] + [clusters[i]];
        payload := payload + volume.data[p..p + volume.clusterBytes];
      }
      assert clusters[..|clusters|] == clusters;
    }

    method WalkDirectory(buf: seq<Byte>, d: Directory) returns (r: Checked<()>)
      requires volume.Valid() && Fits(volume, buf, d)
      modifies `claimed, `files, `entries, `paths
      ensures Agrees(Walk(volume, buf, d, old(State())), r)
      decreases 20 - d.depth
    {
      hide Enter, ReadEntry, CheckDot, Absolute;
      if d.depth > MAX_DEPTH { return Failure(TooDeep); }
      var names: set<string>, dots: set<string>, offset := {}, {}, 0;
      while offset < |buf|
        invariant offset % ENTRY == 0 && offset <= |buf|
        invariant Scan(volume, buf, d, offset, names, dots, State()) == Scan(volume, buf, d, 0, {}, {}, old(State()))
      {
        NextEntryFits(offset, |buf|);
        var raw := buf[offset..offset + ENTRY];
        if raw[0] == 0 { break; }
        if raw[0] == 0xE5 {
          offset := offset + ENTRY;
          continue;
        }
        var e :- ReadEntry(raw, d, names);
        names := names + {e.name};
        if IsDot(e.name) {
          var _ :- CheckDot(e, d);
          dots := dots + {e.name};
          offset := offset + ENTRY;
          continue;
        }
        var _ :- AddEntry(raw, Absolute(volume, buf, d, offset), d, e);
        offset := offset + ENTRY;
      }
      if d.path != "/" && dots != {".", ".."} { return Failure(MissingDots(d.path)); }
      r := Success(());
    }

    /** The part of the loop body that records one named entry and descends into a directory. */
    method AddEntry(raw: seq<Byte>, absolute: nat, d: Directory, e: Entry) returns (r: Checked<()>)
      requires volume.Valid() && |raw| == ENTRY && d.depth <= MAX_DEPTH
      modifies `claimed, `files, `entries, `paths
      ensures Agrees(Enter(volume, raw, absolute, d, e, old(State())), r)
      decreases 20 - d.depth, 0
    {
      hide Walk, Chain, Gather;
      var path := d.path + e.name;
      if path in paths { return Failure(DuplicatePath(path)); }
      paths := paths + {path};
      if |paths| > MAX_PATHS { return Failure(TooManyPaths); }
      var index := |entries|;
      var rec := Record(path, raw[..11], absolute, e.first, e.size, e.attr == ATTR_DIRECTORY, []);
      entries := entries + [rec];
      var chains: seq<nat>;
      if e.attr == ATTR_FILE && e.size == 0 {
        if e.first != 0 { return Failure(EmptyFileCluster(path)); }
        chains := [];
      } else {
        chains :- FollowChain(e.first, path);
      }
      CeilDivCovers(e.size, volume.clusterBytes);
      if e.attr == ATTR_FILE && |chains| != CeilDiv(e.size, volume.clusterBytes) {
        return Failure(ChainLength(path));
      }
      var positions, payload := ReadClusters(chains);
      entries := entries[index := rec.(clusters := chains)];
      assert entries == old(entries) + [rec.(clusters := chains)];
      assert Place(volume, raw, absolute, d, e, old(State())) == Success(State());
      if e.attr != ATTR_FILE {
        if e.size != 0 { return Failure(DirectorySize(path)); }
        var sub := SubDirectory(volume, d, e, chains);
        r := WalkDirectory(payload, sub);
      } else {
        files := files[path := payload[..e.size]];
        r := Success(());
      }
    }
  }
}
