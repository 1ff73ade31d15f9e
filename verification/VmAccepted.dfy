/**
 What an accepted positive transcript shows about the machine. Every statement is about lines of the
 transcript itself, wherever they stand among the noise and whichever cycle they belong to.
 */
module VmAccepted {
  import opened Transcript
  import opened TranscriptVm
  import opened VmParser
  import opened VmLanguage

  /** The cycle lines of an accepted transcript are two good runs. */
  lemma AcceptedRuns(lines: seq<Line>) returns (r1: seq<Fields>, r2: seq<Fields>)
    requires AllClassified(lines) && PositiveChecks(lines)
    ensures TwoRuns(Hits(lines, IsCycle), r1, r2) && GoodRuns(r1, r2)
  {
    hide Hits, Reads, Placed, Laid, PositiveChecks, LaidLists, LinesOf, IsRelevant, GoodRuns, TwoRuns, AllClassified;
    PositiveChecksAreTheLanguage(lines);
    var boot, retries, vm, s1, s2, finish :| Reads(Filter(lines, IsRelevant), boot, retries, vm, s1, s2, finish);
    r1, r2 := s1, s2;
    var n, a := Hits(lines, IsRelevant), TIMER + retries;
    LinesOfHits(lines, IsRelevant);
    HitsAre(lines, IsRelevant);
    ReadsGood(Filter(lines, IsRelevant), boot, retries, vm, r1, r2, finish);
    ReadsPlaced(n, boot, retries, vm, r1, r2, finish);
    PlacedIsLaid(n, a, retries, vm, r1, r2);
    LaidCollected(lines, n, a);
    LaidEvidence(lines, n, a);
    PlacedTwoRuns(n, a, retries, vm, r1, r2);
  }

  /** A cycle line and its place among the twenty-six. */
  ghost predicate At(lines: seq<Line>, i: nat, place: nat, r1: seq<Fields>, r2: seq<Fields>) {
    && i < |lines| && place < |Hits(lines, IsCycle)| == 26 && |r1| == |r2| == 13
    && Hits(lines, IsCycle)[place] == Hit(i + 1, lines[i])
    && lines[i] == if place < 13 then VmCycle(1, STAGES[place], r1[place])
      else VmCycle(2, STAGES[place - 13], r2[place - 13])
  }

  lemma PlaceOf(lines: seq<Line>, i: nat, r1: seq<Fields>, r2: seq<Fields>) returns (place: nat)
    requires TwoRuns(Hits(lines, IsCycle), r1, r2) && i < |lines| && lines[i].VmCycle?
    ensures At(lines, i, place, r1, r2)
  {
    hide Hits;
    HitsAre(lines, IsCycle);
    assert Hit(i + 1, lines[i]) in Hits(lines, IsCycle);
    place :| 0 <= place < |Hits(lines, IsCycle)| && Hits(lines, IsCycle)[place] == Hit(i + 1, lines[i]);
  }

  /** Which pattern the fields of each stage match. */
  lemma FieldsByStage(r: seq<Fields>, k: nat)
    requires GoodRun(r) && k < 13
    ensures r[k].ControlFields? <==> k == 0
    ensures r[k].DestroyFields? <==> k == 12
    ensures r[k].FaultFields? <==> 6 <= k <= 9 || k == 11
    ensures r[0].pmm == r[12].pmm
    ensures DecValue(r[0].pmm.total) == DecValue(r[0].pmm.free) + DecValue(r[0].pmm.used)
  {
    hide PdptOk, ConstructOk, WalkOk, FaultOk, IsLeaf, Addr, DecValue, FrameOk;
  }

  lemma StageNames(k: nat)
    requires k < 13
    ensures STAGES[k] == Control <==> k == 0
    ensures STAGES[k] == Construct <==> k == 2
    ensures STAGES[k] == Walk <==> k == 3
    ensures STAGES[k] == Restore <==> k == 10
    ensures STAGES[k] == Absent <==> k == 11
  {
  }

  lemma SameMachines(r1: seq<Fields>, r2: seq<Fields>)
    requires GoodRuns(r1, r2)
    ensures GoodRun(r1) && GoodRun(r2) && |r1| == |r2| == 13
    ensures r1[0].ControlFields? && r2[0].ControlFields? && r1[0].pmm == r2[0].pmm && r1[0].cr3 == r2[0].cr3
    ensures r1[10] == r2[10] == SwitchFields(r1[0].cr3, r1[0].cr3)
  {
  }

  /** The line read as one of a run: its cycle, its place in the cycle and its fields. */
  lemma InRun(lines: seq<Line>, i: nat, place: nat, r1: seq<Fields>, r2: seq<Fields>) returns (r: seq<Fields>, k: nat)
    requires At(lines, i, place, r1, r2)
    ensures lines[i].VmCycle? && lines[i].cycle == (if place < 13 then 1 else 2)
    ensures r == (if place < 13 then r1 else r2) && k == (if place < 13 then place else place - 13)
    ensures |r| == 13 && k < 13 && lines[i].stage == STAGES[k] && lines[i].fields == r[k]
  {
    hide Hits;
    r, k := if place < 13 then r1 else r2, if place < 13 then place else place - 13;
  }

  predicate CarriesPmm(line: Line) {
    line.VmCycle? && (line.fields.ControlFields? || line.fields.DestroyFields?)
  }

  lemma PmmOfRuns(lines: seq<Line>, i: nat, place: nat, r1: seq<Fields>, r2: seq<Fields>)
    requires At(lines, i, place, r1, r2) && GoodRuns(r1, r2) && CarriesPmm(lines[i])
    ensures r1[0].ControlFields? && lines[i].fields.pmm == r1[0].pmm
    ensures DecValue(r1[0].pmm.total) == DecValue(r1[0].pmm.free) + DecValue(r1[0].pmm.used)
  {
    hide Hits, GoodRun, At, DecValue, GoodRuns;
    SameMachines(r1, r2);
    var r, k := InRun(lines, i, place, r1, r2);
    FieldsByStage(r, k);
    FieldsByStage(r1, 0);
  }

  /** Every page count of the run is the same and adds up: building, using and destroying the space leaks no page. */
  lemma MemoryIsReturned(lines: seq<Line>, i: nat, j: nat)
    requires AllClassified(lines) && PositiveChecks(lines)
    requires i < |lines| && j < |lines| && CarriesPmm(lines[i]) && CarriesPmm(lines[j])
    ensures lines[i].fields.pmm == lines[j].fields.pmm
    ensures DecValue(lines[i].fields.pmm.total) == DecValue(lines[i].fields.pmm.free)
      + DecValue(lines[i].fields.pmm.used)
  {
    hide Hits, TwoRuns, GoodRuns, PositiveChecks, DecValue, At;
    var r1, r2 := AcceptedRuns(lines);
    var p := PlaceOf(lines, i, r1, r2);
    var q := PlaceOf(lines, j, r1, r2);
    PmmOfRuns(lines, i, p, r1, r2);
    PmmOfRuns(lines, j, q, r1, r2);
  }

  lemma RootsOfRuns(lines: seq<Line>, i: nat, place: nat, r1: seq<Fields>, r2: seq<Fields>)
    requires At(lines, i, place, r1, r2) && GoodRuns(r1, r2)
    ensures r1[0].ControlFields?
    ensures lines[i].stage == Control ==> lines[i].fields.ControlFields? && lines[i].fields.cr3 == r1[0].cr3
    ensures lines[i].stage == Restore ==> lines[i].fields == SwitchFields(r1[0].cr3, r1[0].cr3)
  {
    hide Hits, GoodRun, At, DecValue, GoodRuns;
    SameMachines(r1, r2);
    var r, k := InRun(lines, i, place, r1, r2);
    StageNames(k);
  }

  /** Whichever cycles they are from, a restore line shows the whole control register of a control line. */
  lemma RootIsRestored(lines: seq<Line>, i: nat, j: nat)
    requires AllClassified(lines) && PositiveChecks(lines)
    requires i < |lines| && j < |lines| && lines[i].VmCycle? && lines[j].VmCycle?
    requires lines[i].stage == Control && lines[j].stage == Restore
    ensures lines[i].fields.ControlFields?
    ensures lines[j].fields == SwitchFields(lines[i].fields.cr3, lines[i].fields.cr3)
  {
    hide Hits, TwoRuns, GoodRuns, PositiveChecks, At;
    var r1, r2 := AcceptedRuns(lines);
    var p := PlaceOf(lines, i, r1, r2);
    var q := PlaceOf(lines, j, r1, r2);
    RootsOfRuns(lines, i, p, r1, r2);
    RootsOfRuns(lines, j, q, r1, r2);
  }

  ghost predicate Private(root: bv64, original: bv64, walk: Fields) {
    && walk.WalkFields? && FrameOk(root) && root != original
    && FrameOk(walk.rx) && FrameOk(walk.rx1) && FrameOk(walk.ro) && FrameOk(walk.rw)
    && |{root, walk.rx, walk.rx1, walk.ro, walk.rw}| == 5
  }

  lemma FiveDistinct(root: bv64, original: bv64, walk: Fields)
    requires FrameOk(root) && root != original && walk.WalkFields? && WalkOk(walk) && !IsLeaf(walk, root)
    ensures Private(root, original, walk)
  {
  }

  lemma SetupOfRuns(lines: seq<Line>, i: nat, place: nat, r1: seq<Fields>, r2: seq<Fields>)
    requires At(lines, i, place, r1, r2) && GoodRuns(r1, r2)
    ensures var r := if lines[i].cycle == 1 then r1 else r2;
      && lines[i].cycle in {1, 2} && GoodRun(r) && r[0].cr3 == r1[0].cr3
      && (lines[i].stage == Construct ==> lines[i].fields == r[2])
      && (lines[i].stage == Walk ==> lines[i].fields == r[3])
  {
    hide Hits, GoodRun, At, DecValue, GoodRuns;
    SameMachines(r1, r2);
    var r, k := InRun(lines, i, place, r1, r2);
    StageNames(k);
  }

  /**
   In each cycle the private root and the four leaves are five different frames, and the private root is not
   the original one.
   */
  lemma PrivateTablesAreApart(lines: seq<Line>, control: nat, construct: nat, walk: nat)
    requires AllClassified(lines) && PositiveChecks(lines)
    requires control < |lines| && lines[control].VmCycle? && lines[control].stage == Control
    requires construct < |lines| && lines[construct].VmCycle? && lines[construct].stage == Construct
    requires walk < |lines| && lines[walk].VmCycle? && lines[walk].stage == Walk
    requires lines[construct].cycle == lines[walk].cycle
    ensures lines[control].fields.ControlFields? && lines[construct].fields.ConstructFields?
    ensures Private(lines[construct].fields.root, Addr(lines[control].fields.cr3), lines[walk].fields)
  {
    hide Hits, TwoRuns, GoodRuns, PositiveChecks, At, Private, FrameOk, WalkOk, IsLeaf, ControlOk, PdptOk, FaultOk,
      Addr, Kept;
    var r1, r2 := AcceptedRuns(lines);
    var o := PlaceOf(lines, control, r1, r2);
    var p := PlaceOf(lines, construct, r1, r2);
    var q := PlaceOf(lines, walk, r1, r2);
    RootsOfRuns(lines, control, o, r1, r2);
    SetupOfRuns(lines, construct, p, r1, r2);
    SetupOfRuns(lines, walk, q, r1, r2);
    var r := if lines[construct].cycle == 1 then r1 else r2;
    FiveDistinct(r[2].root, Addr(r[0].cr3), r[3]);
  }

  // ---------------------------------------------------------------- generations

  /** The number of a fault among the five of its cycle, by its place in the cycle. */
  function Rank(k: nat): int { if k == 11 then 4 else k - 6 }

  /** The number of a fault among the ten, by its place among the cycle lines. */
  function FaultRank(place: nat): int { if place < 13 then Rank(place) else 5 + Rank(place - 13) }

  lemma FaultsShaped(r: seq<Fields>)
    requires GoodRun(r)
    ensures |r| == 13 && r[6].FaultFields? && r[7].FaultFields? && r[8].FaultFields? && r[9].FaultFields?
      && r[11].FaultFields?
    ensures |RunGenerations(r)| == 5
    ensures forall k :: 0 <= k < 13 && r[k].FaultFields? ==> 0 <= Rank(k) < 5 && RunGenerations(r)[Rank(k)] == r[k].gen
  {
    hide PdptOk, ConstructOk, WalkOk, FaultOk, IsLeaf, Addr, DecValue, FrameOk, ControlOk;
    forall k | 0 <= k < 13 && r[k].FaultFields?
      ensures 0 <= Rank(k) < 5 && RunGenerations(r)[Rank(k)] == r[k].gen
    {
      FieldsByStage(r, k);
    }
  }

  lemma FiveGenerations(r: seq<Fields>)
    requires GoodRun(r)
    ensures |RunGenerations(r)| == 5
  {
  }

  lemma FaultOf(r: seq<Fields>, k: nat)
    requires GoodRun(r) && |r| == 13 && k < 13 && r[k].FaultFields?
    ensures k in {6, 7, 8, 9, 11} && |RunGenerations(r)| == 5 && 0 <= Rank(k) < 5
      && RunGenerations(r)[Rank(k)] == r[k].gen
  {
    hide GoodRun, RunGenerations;
    FieldsByStage(r, k);
    FaultsShaped(r);
  }

  lemma FaultAt(lines: seq<Line>, i: nat, place: nat, r1: seq<Fields>, r2: seq<Fields>)
    requires At(lines, i, place, r1, r2) && GoodRuns(r1, r2) && lines[i].fields.FaultFields?
    ensures GoodRun(r1) && GoodRun(r2)
    ensures var all := RunGenerations(r1) + RunGenerations(r2);
      |all| == 10 && 0 <= FaultRank(place) < 10 && lines[i].fields.gen == all[FaultRank(place)]
    ensures place in {6, 7, 8, 9, 11, 19, 20, 21, 22, 24}
  {
    hide Hits, GoodRun, At, DecValue, GoodRuns, RunGenerations;
    SameMachines(r1, r2);
    var r, k := InRun(lines, i, place, r1, r2);
    FaultOf(r, k);
    FiveGenerations(r1);
    FiveGenerations(r2);
  }

  lemma {:induction false} IncreasingApart(g: seq<nat>, i: nat, j: nat)
    requires Increasing(g) && i <= j < |g|
    ensures g[i] + (j - i) <= g[j]
    decreases j
  {
    if i < j { IncreasingApart(g, i, j - 1); }
  }

  lemma FirstGeneration(r: seq<Fields>)
    requires GoodRun(r)
    ensures RunGenerations(r)[0] >= 1
  {
  }

  lemma IncreasingRuns(r1: seq<Fields>, r2: seq<Fields>)
    requires GoodRuns(r1, r2)
    ensures GoodRun(r1) && GoodRun(r2) && Increasing(RunGenerations(r1) + RunGenerations(r2))
  {
  }

  /** Later fault lines carry larger generations, across both cycles: each fault is a new one. */
  lemma GenerationsRise(lines: seq<Line>, i: nat, j: nat)
    requires AllClassified(lines) && PositiveChecks(lines) && i < j < |lines|
    requires lines[i].VmCycle? && lines[i].fields.FaultFields? && lines[j].VmCycle? && lines[j].fields.FaultFields?
    ensures lines[i].fields.gen < lines[j].fields.gen
  {
    hide Hits, TwoRuns, GoodRuns, GoodRun, PositiveChecks, Increasing, RunGenerations, Classified;
    var r1, r2 := AcceptedRuns(lines);
    var p := PlaceOf(lines, i, r1, r2);
    var q := PlaceOf(lines, j, r1, r2);
    HitsAre(lines, IsCycle);
    FaultAt(lines, i, p, r1, r2);
    FaultAt(lines, j, q, r1, r2);
    IncreasingRuns(r1, r2);
    IncreasingApart(RunGenerations(r1) + RunGenerations(r2), FaultRank(p), FaultRank(q));
  }

  /** The last fault of the run has generation at least ten. */
  lemma LastGeneration(lines: seq<Line>, i: nat)
    requires AllClassified(lines) && PositiveChecks(lines)
    requires i < |lines| && lines[i].VmCycle? && lines[i].cycle == 2 && lines[i].stage == Absent
    ensures lines[i].fields.FaultFields? && lines[i].fields.gen >= 10
  {
    hide Hits, TwoRuns, GoodRuns, GoodRun, PositiveChecks, Increasing, At, DecValue, RunGenerations;
    var r1, r2 := AcceptedRuns(lines);
    var p := PlaceOf(lines, i, r1, r2);
    IncreasingRuns(r1, r2);
    var r, k := InRun(lines, i, p, r1, r2);
    StageNames(k);
    FieldsByStage(r, k);
    FirstGeneration(r1);
    FaultsShaped(r1);
    FaultAt(lines, i, p, r1, r2);
    IncreasingApart(RunGenerations(r1) + RunGenerations(r2), 0, 9);
  }
}
