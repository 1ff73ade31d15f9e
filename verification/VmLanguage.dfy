/**
 The transcripts the strict verifier accepts, said without line numbers or counters: up to noise, one
 fixed sequence of lines with related fields. Both directions are proved for every transcript.
 */
module VmLanguage {
  import opened Transcript
  import opened TranscriptVm
  import opened VmParser

  predicate IsRelevant(line: Line) { !line.Noise? }

  // ---------------------------------------------------------------- runs of one cycle

  /**
   Control, template, construct and walk fit together: the private root is a frame that is neither the
   original nor a leaf.
   */
  ghost predicate GoodSetup(control: Fields, template: Fields, construct: Fields, walk: Fields) {
    && control.ControlFields? && ControlOk(control)
    && template.TemplateFields? && template.root == Addr(control.cr3) && PdptOk(template.pdpt, control)
    && construct.ConstructFields? && ConstructOk(construct) && construct.root != Addr(control.cr3)
    && walk.WalkFields? && WalkOk(walk) && !IsLeaf(walk, construct.root)
  }

  /** The fields of the thirteen stages of a full cycle, in order, fit together. */
  ghost predicate GoodRun(r: seq<Fields>) {
    && |r| == 13 && GoodSetup(r[0], r[1], r[2], r[3])
    && r[4] == SwitchFields(r[2].root, r[2].root) && r[5] == ContentFields
    && r[6].FaultFields? && FaultOk(FaultRo, r[6]) && r[7].FaultFields? && FaultOk(FaultNx, r[7])
    && r[8].FaultFields? && FaultOk(FaultGuard, r[8]) && r[9].FaultFields? && FaultOk(FaultTop, r[9])
    && r[10] == SwitchFields(r[0].cr3, r[0].cr3)
    && r[11].FaultFields? && FaultOk(Absent, r[11])
    && r[12] == DestroyFields(r[0].pmm)
  }

  /** Both cycles see the same memory, the same control register and the same borrowed table. */
  ghost predicate SameMachine(r1: seq<Fields>, r2: seq<Fields>)
    requires GoodRun(r1) && GoodRun(r2)
  {
    && r1[0].pmm == r2[0].pmm && r1[0].cr3 == r2[0].cr3
    && r1[1].root == r2[1].root && Kept(r1[1].pdpt) == Kept(r2[1].pdpt)
  }

  function RunGenerations(r: seq<Fields>): seq<nat>
    requires |r| == 13 && r[6].FaultFields? && r[7].FaultFields? && r[8].FaultFields? && r[9].FaultFields?
      && r[11].FaultFields?
  {
    [r[6].gen, r[7].gen, r[8].gen, r[9].gen, r[11].gen]
  }

  /** A cycle's recorded fields, read as a run. */
  ghost predicate Records(m: map<Stage, Fields>, r: seq<Fields>) {
    |r| == 13 && forall k :: 0 <= k < 13 ==> STAGES[k] in m && m[STAGES[k]] == r[k]
  }

  lemma RecordAt(m: map<Stage, Fields>, r: seq<Fields>, k: nat, stage: Stage)
    requires Records(m, r) && k < 13 && stage == STAGES[k]
    ensures |r| == 13 && stage in m && Parsed(m, stage) == m[stage] == r[k]
  {
  }

  lemma FirstFields(m: map<Stage, Fields>, r: seq<Fields>)
    requires Records(m, r)
    ensures |r| == 13 && Control in m && Template in m && Construct in m
    ensures Parsed(m, Control) == r[0] && Parsed(m, Template) == r[1] && Parsed(m, Construct) == r[2]
  {
    hide Parsed, Records;
    RecordAt(m, r, 0, Control);
    RecordAt(m, r, 1, Template);
    RecordAt(m, r, 2, Construct);
  }

  lemma SetupFields(m: map<Stage, Fields>, r: seq<Fields>)
    requires Records(m, r)
    ensures |r| == 13
    ensures Parsed(m, Control) == r[0] && Parsed(m, Template) == r[1] && Parsed(m, Construct) == r[2]
      && Parsed(m, Walk) == r[3]
    ensures Parsed(m, Switch) == r[4] && Parsed(m, Content) == r[5]
    ensures Control in m && Template in m && Construct in m && Walk in m && Switch in m
  {
    hide Parsed, Records;
    FirstFields(m, r);
    RecordAt(m, r, 3, Walk);
    RecordAt(m, r, 4, Switch);
    RecordAt(m, r, 5, Content);
  }

  lemma LaterFields(m: map<Stage, Fields>, r: seq<Fields>)
    requires Records(m, r)
    ensures |r| == 13
    ensures Parsed(m, FaultRo) == r[6] && Parsed(m, FaultNx) == r[7] && Parsed(m, FaultGuard) == r[8]
      && Parsed(m, FaultTop) == r[9]
    ensures Parsed(m, Restore) == r[10] && Parsed(m, Absent) == r[11] && Parsed(m, Destroy) == r[12]
  {
  }

  ghost predicate RunShaped(r: seq<Fields>) {
    && |r| == 13 && r[0].ControlFields? && r[1].TemplateFields? && r[2].ConstructFields? && r[3].WalkFields?
    && r[4].SwitchFields? && r[5].ContentFields? && r[6].FaultFields? && r[7].FaultFields? && r[8].FaultFields?
    && r[9].FaultFields? && r[10].SwitchFields? && r[11].FaultFields? && r[12].DestroyFields?
  }

  lemma SetupShape(r: seq<Fields>)
    requires |r| == 13
    ensures (forall k :: 0 <= k < 6 ==> Matches(STAGES[k], r[k])) <==>
      && r[0].ControlFields? && r[1].TemplateFields? && r[2].ConstructFields? && r[3].WalkFields?
      && r[4].SwitchFields? && r[5].ContentFields?
  {
    if forall k :: 0 <= k < 6 ==> Matches(STAGES[k], r[k]) {
      assert Matches(STAGES[0], r[0]) && Matches(STAGES[1], r[1]) && Matches(STAGES[2], r[2]);
      assert Matches(STAGES[3], r[3]) && Matches(STAGES[4], r[4]) && Matches(STAGES[5], r[5]);
    }
  }

  lemma LaterShape(r: seq<Fields>)
    requires |r| == 13
    ensures (forall k :: 6 <= k < 13 ==> Matches(STAGES[k], r[k])) <==>
      && r[6].FaultFields? && r[7].FaultFields? && r[8].FaultFields? && r[9].FaultFields? && r[10].SwitchFields?
      && r[11].FaultFields? && r[12].DestroyFields?
  {
    if forall k :: 6 <= k < 13 ==> Matches(STAGES[k], r[k]) {
      assert Matches(STAGES[6], r[6]) && Matches(STAGES[7], r[7]) && Matches(STAGES[8], r[8]);
      assert Matches(STAGES[9], r[9]) && Matches(STAGES[10], r[10]);
      assert Matches(STAGES[11], r[11]) && Matches(STAGES[12], r[12]);
    }
  }

  /** A run has its shape exactly if every stage has its pattern. */
  lemma ShapeByStage(r: seq<Fields>)
    requires |r| == 13
    ensures RunShaped(r) <==> forall k :: 0 <= k < 13 ==> Matches(STAGES[k], r[k])
  {
    hide Matches;
    SetupShape(r);
    LaterShape(r);
  }

  lemma ShapedIsRunShaped(m: map<Stage, Fields>, r: seq<Fields>)
    requires Records(m, r)
    ensures Shaped(true, m) <==> RunShaped(r)
  {
    hide Matches, RunShaped;
    SetupFields(m, r);
    ShapeByStage(r);
  }

  lemma FaultsOfRun(m: map<Stage, Fields>, r: seq<Fields>)
    requires Records(m, r) && RunShaped(r)
    ensures FaultsOk(m) <==>
      FaultOk(FaultRo, r[6]) && FaultOk(FaultNx, r[7]) && FaultOk(FaultGuard, r[8]) && FaultOk(FaultTop, r[9])
        && FaultOk(Absent, r[11])
    ensures GenerationsOf(m, |FAULTS|) == RunGenerations(r)
  {
    hide FaultOk, Records, FaultsOk, GenerationsOf, Parsed;
    FaultRecorded(m, r);
    LaterFields(m, r);
    FiveFaults(m);
    GenerationsOfRun(m);
  }

  lemma GenerationsOfRun(m: map<Stage, Fields>)
    requires FaultRo in m && FaultNx in m && FaultGuard in m && FaultTop in m && Absent in m
    requires m[FaultRo].FaultFields? && m[FaultNx].FaultFields? && m[FaultGuard].FaultFields?
      && m[FaultTop].FaultFields?
    requires m[Absent].FaultFields?
    ensures GenerationsOf(m, 5) == [m[FaultRo].gen, m[FaultNx].gen, m[FaultGuard].gen, m[FaultTop].gen, m[Absent].gen]
  {
    hide GenerationsOf;
    GenerationsStep(m, 0, FaultRo);
    GenerationsStep(m, 1, FaultNx);
    GenerationsStep(m, 2, FaultGuard);
    GenerationsStep(m, 3, FaultTop);
    GenerationsStep(m, 4, Absent);
  }

  lemma FiveFaults(m: map<Stage, Fields>)
    ensures FaultsOk(m) <==>
      && (Parsed(m, FaultRo).FaultFields? ==> FaultOk(FaultRo, m[FaultRo]))
      && (Parsed(m, FaultNx).FaultFields? ==> FaultOk(FaultNx, m[FaultNx]))
      && (Parsed(m, FaultGuard).FaultFields? ==> FaultOk(FaultGuard, m[FaultGuard]))
      && (Parsed(m, FaultTop).FaultFields? ==> FaultOk(FaultTop, m[FaultTop]))
      && (Parsed(m, Absent).FaultFields? ==> FaultOk(Absent, m[Absent]))
  {
    hide FaultOk;
    assert FAULTS[0] == FaultRo && FAULTS[1] == FaultNx && FAULTS[2] == FaultGuard && FAULTS[3] == FaultTop
      && FAULTS[4] == Absent;
  }

  lemma FaultRecorded(m: map<Stage, Fields>, r: seq<Fields>)
    requires Records(m, r)
    ensures |r| == 13 && {FaultRo, FaultNx, FaultGuard, FaultTop, Absent} <= m.Keys
    ensures m[FaultRo] == r[6] && m[FaultNx] == r[7] && m[FaultGuard] == r[8] && m[FaultTop] == r[9]
      && m[Absent] == r[11]
  {
    hide Parsed, Records;
    RecordAt(m, r, 6, FaultRo);
    RecordAt(m, r, 7, FaultNx);
    RecordAt(m, r, 8, FaultGuard);
    RecordAt(m, r, 9, FaultTop);
    RecordAt(m, r, 11, Absent);
  }

  lemma GenerationsStep(m: map<Stage, Fields>, n: nat, stage: Stage)
    requires n < |FAULTS| && FAULTS[n] == stage && stage in m && m[stage].FaultFields?
    ensures GenerationsOf(m, 0) == []
    ensures GenerationsOf(m, n + 1) == GenerationsOf(m, n) + [m[stage].gen]
  {
  }

  ghost predicate SavedAgrees(cycle: nat, r: seq<Fields>, saved: Baseline)
    requires RunShaped(r)
  {
    cycle != 1 ==>
      && (saved.control.ControlFields? ==> r[0].pmm == saved.control.pmm && r[0].cr3 == saved.control.cr3)
      && (saved.template.TemplateFields? ==>
        r[1].root == saved.template.root && Kept(r[1].pdpt) == Kept(saved.template.pdpt))
  }

  /** The scattered checks of a full cycle hold exactly when its fields are a good run that agrees with the baseline. */
  lemma FullCycleIsGoodRun(cycle: nat, m: map<Stage, Fields>, saved: Baseline, r: seq<Fields>)
    requires Records(m, r)
    ensures CycleOk(true, cycle, m, saved) <==> GoodRun(r) && SavedAgrees(cycle, r, saved)
  {
    hide Shaped, FaultsOk, ControlOk, PdptOk, ConstructOk, WalkOk, FaultOk, IsLeaf, Parsed, Addr, Kept, Records;
    SetupFields(m, r);
    LaterFields(m, r);
    ShapedIsRunShaped(m, r);
    if RunShaped(r) {
      FaultsOfRun(m, r);
    }
  }

  // ---------------------------------------------------------------- the positive language

  ghost predicate BootPart(boot: seq<Line>, retries: nat) {
    ReadsN6(boot, retries) && !boot[TIMER + retries - 1].tail.Tabbed?
  }

  ghost predicate VmPart(vm: seq<Line>, r1: seq<Fields>, r2: seq<Fields>) {
    && |vm| == 30 && |r1| == |r2| == 13
    && vm[0] == VmStart(Positive)
    && vm[1] == VmFixture(1, FIXTURE_LEN, SHA1) && vm[15] == VmFixture(2, FIXTURE_LEN, SHA2)
    && (forall k :: 0 <= k < 13 ==> vm[2 + k] == VmCycle(1, STAGES[k], r1[k]))
    && (forall k :: 0 <= k < 13 ==> vm[16 + k] == VmCycle(2, STAGES[k], r2[k]))
    && vm[29] == VmComplete
  }

  ghost predicate FinishPart(finish: seq<Line>) {
    && |finish| == 3
    && finish[0].Marker? && finish[0].index == TIMER && !finish[0].tail.Tabbed?
    && finish[1] == Marker(DONE, Bare) && finish[2] == Exit(ExitOk)
  }

  ghost predicate GoodRuns(r1: seq<Fields>, r2: seq<Fields>) {
    GoodRun(r1) && GoodRun(r2) && SameMachine(r1, r2) && Increasing(RunGenerations(r1) + RunGenerations(r2))
  }

  ghost predicate Reads(
    events: seq<Line>, boot: seq<Line>, retries: nat, vm: seq<Line>, r1: seq<Fields>, r2: seq<Fields>,
    finish: seq<Line>) {
    events == boot + vm + finish && BootPart(boot, retries) && VmPart(vm, r1, r2) && FinishPart(finish)
      && GoodRuns(r1, r2)
  }

  /**
   Up to noise: sixteen boot markers (the last not tabbed), start, fixture and thirteen stages of
   each cycle with good fields, complete, then timer (not tabbed), bare done and a correct exit.
   */
  ghost predicate PositiveLanguage(lines: seq<Line>) {
    exists boot, retries, vm, r1, r2, finish :: Reads(Filter(lines, IsRelevant), boot, retries, vm, r1, r2, finish)
  }

  // ---------------------------------------------------------------- from positions back to lists

  function LinesOf(hits: seq<Hit>): (lines: seq<Line>)
    ensures |lines| == |hits| && forall k :: 0 <= k < |hits| ==> lines[k] == hits[k].line
  {
    seq(|hits|, k requires 0 <= k < |hits| => hits[k].line)
  }

  lemma {:induction false} LinesOfHits(lines: seq<Line>, p: Line -> bool)
    ensures LinesOf(Hits(lines, p)) == Filter(lines, p)
  {
    if lines != [] {
      LinesOfHits(lines[..|lines| - 1], p);
    }
  }

  /** A list of lines of a narrower kind is the sorted part of the wider list that is of that kind. */
  lemma SubHits(lines: seq<Line>, wide: Line -> bool, p: Line -> bool, sub: seq<Hit>)
    requires forall line :: p(line) ==> wide(line)
    requires Sorted(sub) && forall k :: 0 <= k < |sub| ==> sub[k] in Hits(lines, wide) && p(sub[k].line)
    requires forall i :: 0 <= i < |Hits(lines, wide)| ==> p(Hits(lines, wide)[i].line) ==> Hits(lines, wide)[i] in sub
    ensures Hits(lines, p) == sub
  {
    hide Hits;
    HitsAre(lines, wide);
    HitsAre(lines, p);
    var all := Hits(lines, wide);
    forall h ensures h in Hits(lines, p) <==> h in sub {
      if h in Hits(lines, p) { assert h in all; }
    }
    SortedUnique(Hits(lines, p), sub);
  }

  /** The kinds of the relevant lines by position: `a` boot markers, the thirty probe lines, the finish. */
  ghost predicate Laid(n: seq<Hit>, a: nat) {
    && a >= TIMER && |n| == a + 33 && Sorted(n)
    && (forall i :: 0 <= i < a ==>
      n[i].line.Marker? && n[i].line.index < TIMER && (n[i].line.index == N6_LAST <==> i == a - 1))
    && !n[a - 1].line.tail.Tabbed?
    && n[a].line.VmStart? && n[a + 1].line.VmFixture? && n[a + 15].line.VmFixture? && n[a + 29].line.VmComplete?
    && (forall i :: a + 2 <= i < a + 15 ==> n[i].line.VmCycle?)
    && (forall i :: a + 16 <= i < a + 29 ==> n[i].line.VmCycle?)
    && IsTimer(n[a + 30].line) && IsDone(n[a + 31].line) && n[a + 32].line.Exit?
  }

  ghost predicate LaidLists(lines: seq<Line>, n: seq<Hit>, a: nat)
    requires Laid(n, a)
  {
    && Hits(lines, IsBase) == n[..a] + n[a + 30..]
    && Collected(lines) == Lists([n[a]], [n[a + 1], n[a + 15]], n[a + 2..a + 15] + n[a + 16..a + 29], [n[a + 29]], [],
                                 [n[a + 32]], [n[a - 1]], [n[a + 30]], [n[a + 31]], n[a..a + 30])
  }

  lemma Pick(lines: seq<Line>, n: seq<Hit>, p: Line -> bool, sub: seq<Hit>)
    requires n == Hits(lines, IsRelevant) && (forall line :: p(line) ==> IsRelevant(line))
    requires Sorted(sub) && forall k :: 0 <= k < |sub| ==> sub[k] in n && p(sub[k].line)
    requires forall i :: 0 <= i < |n| && p(n[i].line) ==> n[i] in sub
    ensures Hits(lines, p) == sub
  {
    hide Hits;
    SubHits(lines, IsRelevant, p, sub);
  }

  lemma PickOne(lines: seq<Line>, n: seq<Hit>, p: Line -> bool, i: nat)
    requires n == Hits(lines, IsRelevant) && (forall line :: p(line) ==> IsRelevant(line)) && i < |n| && p(n[i].line)
    requires forall j :: 0 <= j < |n| && j != i ==> !p(n[j].line)
    ensures Hits(lines, p) == [n[i]]
  {
    hide Hits;
    Pick(lines, n, p, [n[i]]);
  }

  lemma LaidSingles(lines: seq<Line>, n: seq<Hit>, a: nat)
    requires n == Hits(lines, IsRelevant) && Laid(n, a)
    ensures Hits(lines, IsStart) == [n[a]] && Hits(lines, IsComplete) == [n[a + 29]] && Hits(lines, IsFail) == []
    ensures Hits(lines, IsExit) == [n[a + 32]]
  {
    hide Hits;
    PickOne(lines, n, IsStart, a);
    PickOne(lines, n, IsComplete, a + 29);
    Pick(lines, n, IsFail, []);
    PickOne(lines, n, IsExit, a + 32);
  }

  lemma LaidMarkers(lines: seq<Line>, n: seq<Hit>, a: nat)
    requires n == Hits(lines, IsRelevant) && Laid(n, a)
    ensures Hits(lines, IsN6Last) == [n[a - 1]] && Hits(lines, IsTimer) == [n[a + 30]]
      && Hits(lines, IsDone) == [n[a + 31]]
  {
    hide Hits;
    PickOne(lines, n, IsN6Last, a - 1);
    PickOne(lines, n, IsTimer, a + 30);
    PickOne(lines, n, IsDone, a + 31);
  }

  lemma LaidFixtures(lines: seq<Line>, n: seq<Hit>, a: nat)
    requires n == Hits(lines, IsRelevant) && Laid(n, a)
    ensures Hits(lines, IsFixture) == [n[a + 1], n[a + 15]]
  {
    hide Hits;
    Pick(lines, n, IsFixture, [n[a + 1], n[a + 15]]);
  }

  lemma SliceHas(n: seq<Hit>, lo: nat, hi: nat, i: nat)
    requires lo <= i < hi <= |n|
    ensures n[i] in n[lo..hi]
  {
  }

  lemma LaidCycles(lines: seq<Line>, n: seq<Hit>, a: nat)
    requires n == Hits(lines, IsRelevant) && Laid(n, a)
    ensures Hits(lines, IsCycle) == n[a + 2..a + 15] + n[a + 16..a + 29]
  {
    hide Hits;
    var sub := n[a + 2..a + 15] + n[a + 16..a + 29];
    forall i | 0 <= i < |n| && IsCycle(n[i].line) ensures n[i] in sub {
      if i < a + 15 { SliceHas(n, a + 2, a + 15, i); } else { SliceHas(n, a + 16, a + 29, i); }
    }
    Pick(lines, n, IsCycle, sub);
  }

  lemma LaidVm(lines: seq<Line>, n: seq<Hit>, a: nat)
    requires n == Hits(lines, IsRelevant) && Laid(n, a)
    ensures Hits(lines, IsVm) == n[a..a + 30]
  {
    hide Hits;
    forall i | 0 <= i < |n| && IsVm(n[i].line) ensures n[i] in n[a..a + 30] { SliceHas(n, a, a + 30, i); }
    Pick(lines, n, IsVm, n[a..a + 30]);
  }

  lemma LaidBase(lines: seq<Line>, n: seq<Hit>, a: nat)
    requires n == Hits(lines, IsRelevant) && Laid(n, a)
    ensures Hits(lines, IsBase) == n[..a] + n[a + 30..]
  {
    hide Hits;
    var sub := n[..a] + n[a + 30..];
    forall k | 0 <= k < |sub| ensures sub[k] == n[if k < a then k else k + 30] && IsBase(sub[k].line) { }
    forall i | 0 <= i < |n| && IsBase(n[i].line) ensures n[i] in sub {
      assert i < a || i >= a + 30;
      assert sub[if i < a then i else i - 30] == n[i];
    }
    Pick(lines, n, IsBase, sub);
  }

  lemma LaidCollected(lines: seq<Line>, n: seq<Hit>, a: nat)
    requires n == Hits(lines, IsRelevant) && Laid(n, a)
    ensures LaidLists(lines, n, a)
  {
    hide Hits;
    LaidSingles(lines, n, a);
    LaidMarkers(lines, n, a);
    LaidFixtures(lines, n, a);
    LaidCycles(lines, n, a);
    LaidVm(lines, n, a);
    LaidBase(lines, n, a);
  }

  // ---------------------------------------------------------------- cycles as runs

  /** Twenty-six cycle lines: the stages of cycle 1 in order, then those of cycle 2. */
  ghost predicate TwoRuns(cycles: seq<Hit>, r1: seq<Fields>, r2: seq<Fields>) {
    && |cycles| == 26 && |r1| == |r2| == 13
    && (forall k :: 0 <= k < 13 ==> cycles[k].line == VmCycle(1, STAGES[k], r1[k]))
    && (forall k :: 13 <= k < 26 ==> cycles[k].line == VmCycle(2, STAGES[k - 13], r2[k - 13]))
  }

  lemma StagesDiffer(j: nat, k: nat)
    requires j < k < 13
    ensures STAGES[j] != STAGES[k]
  {
  }

  lemma TwoRunsDiffer(cycles: seq<Hit>, r1: seq<Fields>, r2: seq<Fields>)
    requires TwoRuns(cycles, r1, r2)
    ensures AreCycles(cycles) && NoDuplicates(cycles)
  {
    forall k | 0 <= k < 26 ensures cycles[k].line.VmCycle? && cycles[k].line.cycle == if k < 13 then 1 else 2 { }
    forall j, k | 0 <= j < k < 26
      ensures !SameStage(cycles[j].line, cycles[k].line)
    {
      if k < 13 { StagesDiffer(j, k); }
      if 13 <= j { StagesDiffer(j - 13, k - 13); }
    }
  }

  lemma {:induction false} ByCycleAt(cycles: seq<Hit>, j: nat)
    requires AreCycles(cycles) && NoDuplicates(cycles) && j < |cycles|
    ensures var line := cycles[j].line;
      line.stage in ByCycle(cycles, line.cycle) && ByCycle(cycles, line.cycle)[line.stage] == line.fields
  {
    var n := |cycles| - 1;
    if j < n {
      assert forall k :: 0 <= k < n ==> cycles[..n][k] == cycles[k];
      ByCycleAt(cycles[..n], j);
      assert !SameStage(cycles[j].line, cycles[n].line);
    }
  }

  lemma StagesAppend(cycles: seq<Hit>, n: nat, cycle: nat)
    requires AreCycles(cycles) && n < |cycles|
    ensures StagesOf(cycles[..n + 1], cycle)
      == StagesOf(cycles[..n], cycle) + if cycles[n].line.cycle == cycle then [cycles[n].line.stage] else []
  {
    assert cycles[..n + 1][..n] == cycles[..n];
  }

  /** The stages of one cycle among the first lines, read off by position. */
  lemma {:induction false} StagesOfRuns(cycles: seq<Hit>, r1: seq<Fields>, r2: seq<Fields>, n: nat)
    requires TwoRuns(cycles, r1, r2) && n <= 26
    ensures AreCycles(cycles[..n])
    ensures StagesOf(cycles[..n], 1) == STAGES[..if n < 13 then n else 13]
    ensures StagesOf(cycles[..n], 2) == STAGES[..if n < 13 then 0 else n - 13]
  {
    hide StagesOf, NoDuplicates, Classified;
    TwoRunsDiffer(cycles, r1, r2);
    if n == 0 {
      NoStages(cycles);
    } else {
      var m := n - 1;
      StagesOfRuns(cycles, r1, r2, m);
      StagesAppend(cycles, m, 1);
      StagesAppend(cycles, m, 2);
      assert m < 13 ==> cycles[m].line == VmCycle(1, STAGES[m], r1[m]) && STAGES[..m + 1] == STAGES[..m] + [STAGES[m]];
      assert m >= 13 ==>
        cycles[m].line == VmCycle(2, STAGES[m - 13], r2[m - 13])
        && STAGES[..m - 12] == STAGES[..m - 13] + [STAGES[m - 13]];
    }
  }

  lemma NoStages(cycles: seq<Hit>)
    ensures StagesOf(cycles[..0], 1) == StagesOf(cycles[..0], 2) == []
  {
  }

  lemma RunsAreRecorded(cycles: seq<Hit>, r1: seq<Fields>, r2: seq<Fields>)
    requires TwoRuns(cycles, r1, r2) && AreCycles(cycles)
    ensures Records(ByCycle(cycles, 1), r1) && Records(ByCycle(cycles, 2), r2)
  {
    hide ByCycle;
    TwoRunsDiffer(cycles, r1, r2);
    forall k | 0 <= k < 13
      ensures STAGES[k] in ByCycle(cycles, 1) && ByCycle(cycles, 1)[STAGES[k]] == r1[k]
      ensures STAGES[k] in ByCycle(cycles, 2) && ByCycle(cycles, 2)[STAGES[k]] == r2[k]
    {
      ByCycleAt(cycles, k);
      ByCycleAt(cycles, 13 + k);
      assert cycles[13 + k].line == VmCycle(2, STAGES[k], r2[k]);
    }
  }

  lemma GenerationsOfRecords(m: map<Stage, Fields>, r: seq<Fields>)
    requires Records(m, r) && GoodRun(r)
    ensures GenerationsOf(m, |FAULTS|) == RunGenerations(r)
  {
    hide ControlOk, PdptOk, ConstructOk, WalkOk, FaultOk, IsLeaf, Addr, Records, GenerationsOf;
    FaultsOfRun(m, r);
  }

  lemma BaselineOfRun(m: map<Stage, Fields>, r: seq<Fields>)
    requires Records(m, r) && GoodRun(r)
    ensures NextBaseline(1, m, NO_BASELINE) == Baseline(r[0], r[1])
  {
    hide ControlOk, PdptOk, ConstructOk, WalkOk, FaultOk, IsLeaf, Addr, Records;
    SetupFields(m, r);
  }

  /** On two runs the semantic checks of full mode hold exactly when the runs are good, alike and in time order. */
  lemma CyclesAreRuns(cycles: seq<Hit>, r1: seq<Fields>, r2: seq<Fields>)
    requires TwoRuns(cycles, r1, r2)
    ensures AreCycles(cycles) && NoDuplicates(cycles)
    ensures CyclesOk(true, cycles) <==> GoodRuns(r1, r2)
  {
    hide ByCycle, StagesOf, TwoRuns, NoDuplicates, CycleOk, NextBaseline, GenerationsOf, Records, AreCycles,
      RunGenerations, Increasing;
    TwoRunsDiffer(cycles, r1, r2);
    StagesOfRuns(cycles, r1, r2, 26);
    TwentySix(cycles, r1, r2);
    RunsAreRecorded(cycles, r1, r2);
    var m1, m2 := ByCycle(cycles, 1), ByCycle(cycles, 2);
    FirstCycle(m1, r1);
    if GoodRun(r1) {
      BaselineOfRun(m1, r1);
      GenerationsOfRecords(m1, r1);
      LaterCycle(m2, r1, r2);
      if GoodRun(r2) { GenerationsOfRecords(m2, r2); }
    }
  }

  lemma TwentySix(cycles: seq<Hit>, r1: seq<Fields>, r2: seq<Fields>)
    requires TwoRuns(cycles, r1, r2)
    ensures cycles[..26] == cycles && STAGES[..13] == STAGES
  {
  }

  lemma FirstCycle(m: map<Stage, Fields>, r: seq<Fields>)
    requires Records(m, r)
    ensures CycleOk(true, 1, m, NO_BASELINE) <==> GoodRun(r)
  {
    hide CycleOk, Records, ControlOk, PdptOk, ConstructOk, WalkOk, FaultOk, IsLeaf, Addr;
    FullCycleIsGoodRun(1, m, NO_BASELINE, r);
  }

  lemma LaterCycle(m: map<Stage, Fields>, r1: seq<Fields>, r2: seq<Fields>)
    requires Records(m, r2) && GoodRun(r1)
    ensures CycleOk(true, 2, m, Baseline(r1[0], r1[1])) <==> GoodRun(r2) && SameMachine(r1, r2)
  {
    hide CycleOk, Records, ControlOk, PdptOk, ConstructOk, WalkOk, FaultOk, IsLeaf, Addr, Kept;
    FullCycleIsGoodRun(2, m, Baseline(r1[0], r1[1]), r2);
  }

  // ---------------------------------------------------------------- a transcript of the language passes

  /** Position by position, the relevant lines of a transcript of the language. */
  ghost predicate Placed(n: seq<Hit>, a: nat, retries: nat, vm: seq<Line>, r1: seq<Fields>, r2: seq<Fields>) {
    && a == TIMER + retries && |n| == a + 33
    && (forall i :: 0 <= i < a ==> n[i].line.Marker? && n[i].line.index == BootMarker(retries, i))
    && !n[a - 1].line.tail.Tabbed?
    && VmPart(vm, r1, r2) && (forall i :: 0 <= i < 30 ==> n[a + i].line == vm[i])
    && IsTimer(n[a + 30].line) && n[a + 31].line == Marker(DONE, Bare) && n[a + 32].line == Exit(ExitOk)
  }

  lemma ReadsPlaced(
    n: seq<Hit>, boot: seq<Line>, retries: nat, vm: seq<Line>, r1: seq<Fields>, r2: seq<Fields>, finish: seq<Line>)
    requires Reads(LinesOf(n), boot, retries, vm, r1, r2, finish)
    ensures Placed(n, TIMER + retries, retries, vm, r1, r2)
  {
    hide GoodRuns, VmPart, LinesOf;
    assert |vm| == 30 by { VmLength(vm, r1, r2); }
    var all, a := LinesOf(n), TIMER + retries;
    assert |boot| == a && |finish| == 3;
    assert forall i :: 0 <= i < a ==> all[i] == boot[i];
    assert forall i :: 0 <= i < 30 ==> all[a + i] == vm[i];
    assert all[a + 30] == finish[0] && all[a + 31] == finish[1] && all[a + 32] == finish[2];
  }

  lemma VmLength(vm: seq<Line>, r1: seq<Fields>, r2: seq<Fields>)
    requires VmPart(vm, r1, r2)
    ensures |vm| == 30
  {
  }

  lemma VmKinds(vm: seq<Line>, r1: seq<Fields>, r2: seq<Fields>)
    requires VmPart(vm, r1, r2)
    ensures |vm| == 30 && |r1| == |r2| == 13
    ensures vm[0] == VmStart(Positive) && vm[1].VmFixture? && vm[15].VmFixture? && vm[29] == VmComplete
    ensures forall i :: 2 <= i < 15 ==> vm[i].VmCycle? && vm[i] == VmCycle(1, STAGES[i - 2], r1[i - 2])
    ensures forall i :: 16 <= i < 29 ==> vm[i].VmCycle? && vm[i] == VmCycle(2, STAGES[i - 16], r2[i - 16])
  {
    forall i | 2 <= i < 15 ensures vm[i] == VmCycle(1, STAGES[i - 2], r1[i - 2]) { assert vm[2 + (i - 2)] == vm[i]; }
    forall i | 16 <= i < 29
      ensures vm[i] == VmCycle(2, STAGES[i - 16], r2[i - 16])
    {
      assert vm[16 + (i - 16)] == vm[i];
    }
  }

  lemma PlacedIsLaid(n: seq<Hit>, a: nat, retries: nat, vm: seq<Line>, r1: seq<Fields>, r2: seq<Fields>)
    requires Sorted(n) && Placed(n, a, retries, vm, r1, r2)
    ensures Laid(n, a)
  {
    hide VmPart;
    VmKinds(vm, r1, r2);
    assert n[a + 0].line == vm[0] && n[a + 1].line == vm[1] && n[a + 15].line == vm[15] && n[a + 29].line == vm[29];
    forall i | a + 2 <= i < a + 15 ensures n[i].line.VmCycle? { assert n[a + (i - a)].line == vm[i - a]; }
    forall i | a + 16 <= i < a + 29 ensures n[i].line.VmCycle? { assert n[a + (i - a)].line == vm[i - a]; }
  }

  lemma PlacedBoots(
    lines: seq<Line>, n: seq<Hit>, a: nat, retries: nat, vm: seq<Line>, r1: seq<Fields>, r2: seq<Fields>)
    requires Placed(n, a, retries, vm, r1, r2) && a <= a + 30 <= |n| && Hits(lines, IsBase) == n[..a] + n[a + 30..]
    requires forall i :: 0 <= i < |lines| ==> !lines[i].FailureLine?
    ensures BootLanguage(lines)
  {
    hide VmPart, Hits, Placed, BootMarker, ReadsBootAndExit;
    LinesOfHits(lines, IsBase);
    PlacedBase(n, a, retries, vm, r1, r2);
    EventsBoot(n[..a] + n[a + 30..], retries);
  }

  lemma PlacedBase(n: seq<Hit>, a: nat, retries: nat, vm: seq<Line>, r1: seq<Fields>, r2: seq<Fields>)
    requires Placed(n, a, retries, vm, r1, r2)
    ensures var base := n[..a] + n[a + 30..];
      && |base| == MARKERS + retries + 1
      && (forall k :: 0 <= k < MARKERS + retries ==>
        base[k].line.Marker? && base[k].line.index == BootMarker(retries, k))
      && base[MARKERS + retries].line == Exit(ExitOk)
  {
  }

  lemma EventsBoot(base: seq<Hit>, retries: nat)
    requires |base| == MARKERS + retries + 1 && base[MARKERS + retries].line == Exit(ExitOk)
    requires forall k :: 0 <= k < MARKERS + retries ==>
      base[k].line.Marker? && base[k].line.index == BootMarker(retries, k)
    ensures ReadsBootAndExit(LinesOf(base), retries)
  {
  }

  /** No line of a transcript laid out this way is an error by itself. */
  lemma PlacedHasNoBadLine(
    lines: seq<Line>, n: seq<Hit>, a: nat, retries: nat, vm: seq<Line>, r1: seq<Fields>, r2: seq<Fields>)
    requires n == Hits(lines, IsRelevant) && Placed(n, a, retries, vm, r1, r2)
    ensures NoBadLine(lines)
  {
    hide Hits, Placed, IsBad, IsRelevant;
    HitsAre(lines, IsRelevant);
    forall i | 0 <= i < |lines|
      ensures !IsBad(lines[i])
    {
      BadIsRelevant(lines[i]);
      if IsRelevant(lines[i]) {
        assert Hit(i + 1, lines[i]) in n;
        var k :| 0 <= k < |n| && n[k] == Hit(i + 1, lines[i]);
        PlacedLineIsFine(n, a, retries, vm, r1, r2, k);
      }
    }
  }

  lemma BadIsRelevant(line: Line)
    ensures IsBad(line) ==> IsRelevant(line)
  {
  }

  lemma PlacedLineIsFine(n: seq<Hit>, a: nat, retries: nat, vm: seq<Line>, r1: seq<Fields>, r2: seq<Fields>, k: nat)
    requires Placed(n, a, retries, vm, r1, r2) && k < |n|
    ensures !IsBad(n[k].line)
  {
    hide VmPart, BootMarker;
    VmKinds(vm, r1, r2);
    KnownStages();
    if a <= k < a + 30 { assert n[a + (k - a)].line == vm[k - a]; }
  }

  lemma KnownStages()
    ensures forall k :: 0 <= k < 13 ==> !STAGES[k].Unknown?
  {
  }

  lemma PlacedTwoRuns(n: seq<Hit>, a: nat, retries: nat, vm: seq<Line>, r1: seq<Fields>, r2: seq<Fields>)
    requires Placed(n, a, retries, vm, r1, r2)
    ensures TwoRuns(n[a + 2..a + 15] + n[a + 16..a + 29], r1, r2)
  {
    hide VmPart;
    VmKinds(vm, r1, r2);
    RunLengths(vm, r1, r2);
    var cycles := n[a + 2..a + 15] + n[a + 16..a + 29];
    forall k | 0 <= k < 13 ensures cycles[k].line == VmCycle(1, STAGES[k], r1[k]) {
      assert cycles[k] == n[a + (2 + k)] && n[a + (2 + k)].line == vm[2 + k];
    }
    forall k | 13 <= k < 26 ensures cycles[k].line == VmCycle(2, STAGES[k - 13], r2[k - 13]) {
      assert cycles[k] == n[a + (3 + k)] && n[a + (3 + k)].line == vm[3 + k];
    }
  }

  lemma RunLengths(vm: seq<Line>, r1: seq<Fields>, r2: seq<Fields>)
    requires VmPart(vm, r1, r2)
    ensures |r1| == |r2| == 13
  {
  }

  /** The evidence between start and complete, merged, has the wanted kinds. */
  lemma PlacedEvidence(n: seq<Hit>, a: nat, retries: nat, vm: seq<Line>, r1: seq<Fields>, r2: seq<Fields>)
    requires Sorted(n) && Placed(n, a, retries, vm, r1, r2)
    ensures Evidence([n[a + 1], n[a + 15]], n[a + 2..a + 15] + n[a + 16..a + 29], CycleKinds(1) + CycleKinds(2))
  {
    hide VmPart, CycleKinds;
    VmKinds(vm, r1, r2);
    VmFixtures(vm, r1, r2);
    var merged, fixtures, cycles := n[a + 1..a + 29], [n[a + 1], n[a + 15]], n[a + 2..a + 15] + n[a + 16..a + 29];
    forall k | 0 <= k < 28
      ensures merged[k].line == vm[1 + k] && (merged[k].line.VmFixture? || merged[k].line.VmCycle?)
    {
      assert merged[k] == n[a + (1 + k)];
    }
    MergedElements(n, a);
    forall k | 0 <= k < 28
      ensures Kinds(merged)[k] == (CycleKinds(1) + CycleKinds(2))[k]
    {
      if 1 <= k < 14 { assert CycleKinds(1)[(k - 1) + 1] == StageKind(1, STAGES[k - 1]); }
      if 15 <= k < 28 { assert CycleKinds(2)[(k - 15) + 1] == StageKind(2, STAGES[k - 15]); }
    }
    assert Kinds(merged) == CycleKinds(1) + CycleKinds(2);
  }

  lemma VmFixtures(vm: seq<Line>, r1: seq<Fields>, r2: seq<Fields>)
    requires VmPart(vm, r1, r2)
    ensures vm[1] == VmFixture(1, FIXTURE_LEN, SHA1) && vm[15] == VmFixture(2, FIXTURE_LEN, SHA2)
  {
  }

  lemma MergedElements(n: seq<Hit>, a: nat)
    requires a + 29 <= |n| && Sorted(n)
    ensures Sorted(n[a + 1..a + 29])
    ensures SameElements(n[a + 1..a + 29], [n[a + 1], n[a + 15]] + (n[a + 2..a + 15] + n[a + 16..a + 29]))
  {
  }

  lemma PlacedOrder(n: seq<Hit>, a: nat)
    requires Laid(n, a)
    ensures NoVmAfterTerminal(n[a..a + 30], [n[a + 29]], [n[a + 32]])
    ensures Milestones([n[a]], [n[a + 29]], [n[a - 1]], [n[a + 30]], [n[a + 31]], [n[a + 32]])
    ensures AllBetween([n[a + 1], n[a + 15]], n[a].number, n[a + 29].number)
    ensures AllBetween(n[a + 2..a + 15] + n[a + 16..a + 29], n[a].number, n[a + 29].number)
  {
  }

  lemma PlacedSemantics(n: seq<Hit>, a: nat, retries: nat, vm: seq<Line>, r1: seq<Fields>, r2: seq<Fields>)
    requires Placed(n, a, retries, vm, r1, r2)
    ensures var fixtures, cycles := [n[a + 1], n[a + 15]], n[a + 2..a + 15] + n[a + 16..a + 29];
      AreFixtures(fixtures) && AreCycles(cycles) && (SemanticsOk(true, fixtures, cycles) <==> GoodRuns(r1, r2))
  {
    hide VmPart, GoodRuns, CyclesOk, NoDuplicates, AreCycles, TwoRuns;
    VmFixtures(vm, r1, r2);
    VmLength(vm, r1, r2);
    assert n[a + 1].line == vm[1] && n[a + 15].line == vm[15];
    PlacedTwoRuns(n, a, retries, vm, r1, r2);
    CyclesAreRuns(n[a + 2..a + 15] + n[a + 16..a + 29], r1, r2);
  }

  lemma LanguagePasses(lines: seq<Line>)
    requires AllClassified(lines) && PositiveLanguage(lines)
    ensures PositiveChecks(lines)
  {
    hide Hits, Reads, Placed, Laid, Collected, NoBadLine, BootLanguage, NoVmAfterTerminal, Evidence, Milestones,
      SemanticsOk, LinesOf, CycleKinds, IsRelevant, AllBetween, GoodRuns, AreFixtures, AreCycles, From, AllClassified;
    var boot, retries, vm, r1, r2, finish :| Reads(Filter(lines, IsRelevant), boot, retries, vm, r1, r2, finish);
    var n, a := Hits(lines, IsRelevant), TIMER + retries;
    LinesOfHits(lines, IsRelevant);
    HitsAre(lines, IsRelevant);
    ReadsGood(Filter(lines, IsRelevant), boot, retries, vm, r1, r2, finish);
    ReadsPlaced(n, boot, retries, vm, r1, r2, finish);
    PlacedIsLaid(n, a, retries, vm, r1, r2);
    LaidCollected(lines, n, a);
    PlacedHasNoBadLine(lines, n, a, retries, vm, r1, r2);
    NoFailures(lines);
    LaidLength(n, a);
    PlacedBoots(lines, n, a, retries, vm, r1, r2);
    PlacedOrder(n, a);
    PlacedEvidence(n, a, retries, vm, r1, r2);
    PlacedSemantics(n, a, retries, vm, r1, r2);
    PlacedEnds(n, a, retries, vm, r1, r2);
    ListsAreKinds(lines);
  }

  lemma ReadsGood(
    events: seq<Line>, boot: seq<Line>, retries: nat, vm: seq<Line>, r1: seq<Fields>, r2: seq<Fields>,
    finish: seq<Line>)
    requires Reads(events, boot, retries, vm, r1, r2, finish)
    ensures GoodRuns(r1, r2)
  {
  }

  lemma LaidLength(n: seq<Hit>, a: nat)
    requires Laid(n, a)
    ensures |n| == a + 33 && a >= TIMER && Sorted(n)
  {
  }

  lemma NoFailures(lines: seq<Line>)
    requires NoBadLine(lines)
    ensures forall i :: 0 <= i < |lines| ==> !lines[i].FailureLine?
  {
  }

  lemma PlacedEnds(n: seq<Hit>, a: nat, retries: nat, vm: seq<Line>, r1: seq<Fields>, r2: seq<Fields>)
    requires Placed(n, a, retries, vm, r1, r2)
    ensures n[a].line == VmStart(Positive) && n[a + 32].line == Exit(ExitOk)
  {
  }

  // ---------------------------------------------------------------- a passing transcript is of the language

  /** The numbered base lines of an accepted bootstrap transcript. */
  ghost predicate Booted(base: seq<Hit>, retries: nat) {
    && |base| == MARKERS + retries + 1 && Sorted(base)
    && (forall k :: 0 <= k < MARKERS + retries ==> base[k].line.Marker? && base[k].line.index == BootMarker(retries, k))
    && base[MARKERS + retries].line == Exit(ExitOk)
  }

  lemma BootedLines(lines: seq<Line>) returns (retries: nat)
    requires BootLanguage(lines)
    ensures Booted(Hits(lines, IsBase), retries)
  {
    hide Hits, BootMarker;
    retries :| ReadsBootAndExit(Filter(lines, IsBase), retries);
    LinesOfHits(lines, IsBase);
    HitsAre(lines, IsBase);
    var base, events := Hits(lines, IsBase), Filter(lines, IsBase);
    assert forall k :: 0 <= k < MARKERS + retries ==> base[k].line == events[k] == events[..MARKERS + retries][k];
  }

  /** A marker that only occurs once is found where the boot reads it. */
  lemma FoundInBoot(lines: seq<Line>, retries: nat, h: Hit, index: nat)
    requires Booted(Hits(lines, IsBase), retries) && EBS_OK <= index < MARKERS
    requires 1 <= h.number <= |lines| && h.line == lines[h.number - 1] && h.line.Marker? && h.line.index == index
    ensures h == Hits(lines, IsBase)[index + retries]
  {
    hide Hits;
    HitsAre(lines, IsBase);
    assert h in Hits(lines, IsBase);
  }

  /** The milestones of the order check are the last boot marker and the three finishing lines. */
  lemma MilestonesInBoot(lines: seq<Line>, retries: nat, a: nat)
    requires Booted(Hits(lines, IsBase), retries) && a == TIMER + retries
    requires Milestones(Hits(lines, IsStart), Hits(lines, IsComplete), Hits(lines, IsN6Last), Hits(lines, IsTimer),
      Hits(lines, IsDone), Hits(lines, IsExit))
    ensures var base := Hits(lines, IsBase);
      && |base| == a + 3 && IsN6Last(base[a - 1].line) && IsTimer(base[a].line) && IsDone(base[a + 1].line)
      && base[a - 1].number < Hits(lines, IsStart)[0].number && Hits(lines, IsComplete)[0].number < base[a].number
  {
    hide Hits;
    var n6, timer, done := Hits(lines, IsN6Last), Hits(lines, IsTimer), Hits(lines, IsDone);
    HitsAre(lines, IsN6Last);
    HitsAre(lines, IsTimer);
    HitsAre(lines, IsDone);
    assert n6[|n6| - 1] in n6 && timer[0] in timer && done[0] in done;
    FoundInBoot(lines, retries, n6[|n6| - 1], N6_LAST);
    FoundInBoot(lines, retries, timer[0], TIMER);
    FoundInBoot(lines, retries, done[0], DONE);
  }

  /** Every probe line lies between start and complete. */
  lemma VmInside(lines: seq<Line>)
    requires AllClassified(lines) && PositiveChecks(lines)
    ensures var l := Collected(lines);
      && |l.starts| == 1 && |l.completes| == 1
      && (forall k :: 0 <= k < |l.vm| ==>
           l.vm[k] in l.starts || l.vm[k] in l.completes || l.vm[k] in l.fixtures + l.cycles)
      && forall k :: 0 <= k < |l.vm| ==> l.starts[0].number <= l.vm[k].number <= l.completes[0].number
  {
    hide Hits, BootLanguage, SemanticsOk, Evidence, NoVmAfterTerminal, Milestones, Classified;
    var l := Collected(lines);
    HitsAre(lines, IsStart);
    HitsAre(lines, IsFixture);
    HitsAre(lines, IsCycle);
    HitsAre(lines, IsComplete);
    HitsAre(lines, IsFail);
    HitsAre(lines, IsVm);
    MilestonesExist(l.starts, l.completes, l.n6, l.timer, l.done, l.exits);
    StartThenComplete(l);
    forall k | 0 <= k < |l.vm|
      ensures l.vm[k] in l.starts || l.vm[k] in l.completes || l.vm[k] in l.fixtures + l.cycles
      ensures l.starts[0].number <= l.vm[k].number <= l.completes[0].number
    {
      var h := l.vm[k];
      assert h in l.vm && !IsBad(lines[h.number - 1]);
      assert h.line.VmFail? ==> h in l.fails;
      if h.line.VmStart? { assert h in l.starts; }
      if h.line.VmComplete? { assert h in l.completes; }
      if h.line.VmFixture? { assert h in l.fixtures; }
      if h.line.VmCycle? { assert h in l.cycles; }
    }
  }

  lemma StartThenComplete(l: Lists)
    requires Milestones(l.starts, l.completes, l.n6, l.timer, l.done, l.exits)
    ensures l.starts != [] && l.completes != [] && l.starts[0].number < l.completes[0].number
  {
  }

  lemma SortedConcat(x: seq<Hit>, y: seq<Hit>)
    requires Sorted(x) && Sorted(y)
    requires forall i, j :: 0 <= i < |x| && 0 <= j < |y| ==> x[i].number < y[j].number
    ensures Sorted(x + y)
  {
  }

  /** The relevant lines are the boot markers, the probe lines and the finish, in this order. */
  lemma ThreeParts(lines: seq<Line>, a: nat)
    requires NoBadLine(lines) && a <= |Hits(lines, IsBase)|
    requires forall i, j :: 0 <= i < a && 0 <= j < |Hits(lines, IsVm)| ==>
      Hits(lines, IsBase)[i].number < Hits(lines, IsVm)[j].number
    requires forall i, j :: a <= i < |Hits(lines, IsBase)| && 0 <= j < |Hits(lines, IsVm)| ==>
      Hits(lines, IsVm)[j].number < Hits(lines, IsBase)[i].number
    ensures Hits(lines, IsRelevant) == Hits(lines, IsBase)[..a] + Hits(lines, IsVm) + Hits(lines, IsBase)[a..]
  {
    hide Hits;
    HitsAre(lines, IsBase);
    HitsAre(lines, IsVm);
    HitsAre(lines, IsRelevant);
    var base, vm, n := Hits(lines, IsBase), Hits(lines, IsVm), Hits(lines, IsRelevant);
    SortedConcat(base[..a], vm);
    SortedConcat(base[..a] + vm, base[a..]);
    assert base == base[..a] + base[a..];
    forall h
      ensures h in n <==> h in base[..a] + vm + base[a..]
    {
      assert h in base <==> h in base[..a] || h in base[a..];
      if h in n { assert !IsBad(lines[h.number - 1]); }
    }
    SortedUnique(n, base[..a] + vm + base[a..]);
  }

  /** The probe lines are start, the merged evidence and complete. */
  lemma VmIsMerged(lines: seq<Line>, merged: seq<Hit>)
    requires AllClassified(lines) && PositiveChecks(lines)
    requires Sorted(merged) && SameElements(merged, Hits(lines, IsFixture) + Hits(lines, IsCycle))
    ensures |Hits(lines, IsStart)| == |Hits(lines, IsComplete)| == 1
    ensures Hits(lines, IsVm) == Hits(lines, IsStart) + merged + Hits(lines, IsComplete)
  {
    hide Hits, BootLanguage, SemanticsOk, Evidence, NoVmAfterTerminal, Milestones, Classified;
    var l := Collected(lines);
    VmInside(lines);
    HitsAre(lines, IsStart);
    HitsAre(lines, IsFixture);
    HitsAre(lines, IsCycle);
    HitsAre(lines, IsComplete);
    HitsAre(lines, IsVm);
    MilestonesExist(l.starts, l.completes, l.n6, l.timer, l.done, l.exits);
    StartThenComplete(l);
    MergedWindow(l.fixtures, l.cycles, merged, l.starts[0].number, l.completes[0].number);
    SortedConcat(l.starts, merged);
    SortedConcat(l.starts + merged, l.completes);
    var parts := l.starts + merged + l.completes;
    forall h
      ensures h in l.vm <==> h in parts
    {
      assert h in parts <==> h in l.starts || h in merged || h in l.completes;
      assert h in merged <==> h in l.fixtures || h in l.cycles;
      if h in l.vm {
        var k :| 0 <= k < |l.vm| && l.vm[k] == h;
      }
    }
    SortedUnique(l.vm, parts);
  }

  lemma MergedWindow(fixtures: seq<Hit>, cycles: seq<Hit>, merged: seq<Hit>, low: nat, high: nat)
    requires AllBetween(fixtures, low, high) && AllBetween(cycles, low, high) && SameElements(merged, fixtures + cycles)
    ensures AllBetween(merged, low, high)
  {
    forall k | 0 <= k < |merged| ensures low < merged[k].number < high { assert merged[k] in fixtures + cycles; }
  }

  ghost predicate StagesOfCycle(lines: seq<Line>, cycle: nat) {
    |lines| == 13 && forall k :: 0 <= k < 13 ==>
      lines[k].VmCycle? && lines[k].cycle == cycle && lines[k].stage == STAGES[k]
  }

  function FieldsIn(lines: seq<Line>): (r: seq<Fields>)
    requires forall k :: 0 <= k < |lines| ==> lines[k].VmCycle?
    ensures |r| == |lines| && forall k :: 0 <= k < |r| ==> r[k] == lines[k].fields
  {
    seq(|lines|, k requires 0 <= k < |lines| => lines[k].fields)
  }

  /** Evidence of the wanted kinds, between a start and a complete line, is a probe block. */
  lemma BlockIsVmPart(vm: seq<Hit>, merged: seq<Hit>, start: Hit, complete: Hit)
    returns (r1: seq<Fields>, r2: seq<Fields>)
    requires vm == [start] + merged + [complete] && start.line == VmStart(Positive) && complete.line.VmComplete?
    requires AreEvidence(merged) && Kinds(merged) == CycleKinds(1) + CycleKinds(2)
    requires forall k :: 0 <= k < |merged| && merged[k].line.VmFixture? ==> FixtureOk(merged[k].line)
    ensures VmPart(LinesOf(vm), r1, r2)
  {
    hide CycleKinds, Kinds;
    var lines := LinesOf(vm);
    KindsByPlace(merged);
    var first, second := LinesOf(merged)[1..14], LinesOf(merged)[15..28];
    r1, r2 := FieldsIn(first), FieldsIn(second);
    assert forall i :: 0 <= i < 28 ==> vm[1 + i] == merged[i];
    assert lines[1] == merged[0].line && lines[15] == merged[14].line;
    forall k | 0 <= k < 13
      ensures lines[2 + k] == VmCycle(1, STAGES[k], r1[k]) && lines[16 + k] == VmCycle(2, STAGES[k], r2[k])
    {
      assert lines[2 + k] == LinesOf(merged)[1 + k] == first[k];
      assert lines[16 + k] == LinesOf(merged)[15 + k] == second[k];
    }
  }

  lemma KindsByPlace(merged: seq<Hit>)
    requires AreEvidence(merged) && Kinds(merged) == CycleKinds(1) + CycleKinds(2)
    ensures |merged| == 28
    ensures merged[0].line.VmFixture? && merged[0].line.cycle == 1 && merged[14].line.VmFixture?
      && merged[14].line.cycle == 2
    ensures StagesOfCycle(LinesOf(merged)[1..14], 1) && StagesOfCycle(LinesOf(merged)[15..28], 2)
  {
  }

  lemma PartsPlaced(base: seq<Hit>, vm: seq<Hit>, retries: nat, r1: seq<Fields>, r2: seq<Fields>)
    requires Booted(base, retries) && VmPart(LinesOf(vm), r1, r2)
    requires IsN6Last(base[TIMER + retries - 1].line) && IsTimer(base[TIMER + retries].line)
      && IsDone(base[TIMER + retries + 1].line)
    ensures var a := TIMER + retries;
      Placed(base[..a] + vm + base[a..], a, retries, LinesOf(vm), r1, r2)
  {
    hide VmPart, BootMarker;
    VmLength(LinesOf(vm), r1, r2);
    var a := TIMER + retries;
    var n := base[..a] + vm + base[a..];
    assert forall i :: 0 <= i < a ==> n[i] == base[i];
    assert forall i :: 0 <= i < 30 ==> n[a + i] == vm[i];
    assert n[a + 30] == base[a] && n[a + 31] == base[a + 1] && n[a + 32] == base[a + 2];
    assert base[a - 1] == n[a - 1];
  }

  lemma PlacedReads(base: seq<Hit>, vm: seq<Hit>, retries: nat, r1: seq<Fields>, r2: seq<Fields>)
    requires Booted(base, retries) && VmPart(LinesOf(vm), r1, r2) && GoodRuns(r1, r2)
    requires IsN6Last(base[TIMER + retries - 1].line) && IsTimer(base[TIMER + retries].line)
      && IsDone(base[TIMER + retries + 1].line)
    ensures var a := TIMER + retries;
      Reads(LinesOf(base[..a] + vm + base[a..]), LinesOf(base[..a]), retries, LinesOf(vm), r1, r2, LinesOf(base[a..]))
  {
    hide VmPart, BootMarker, GoodRuns;
    var a := TIMER + retries;
    var boot, finish := LinesOf(base[..a]), LinesOf(base[a..]);
    assert LinesOf(base[..a] + vm + base[a..]) == boot + LinesOf(vm) + finish;
    assert forall k :: 0 <= k < a ==> boot[k] == base[k].line;
    assert finish[0] == base[a].line && finish[1] == base[a + 1].line && finish[2] == base[a + 2].line;
    BareDone(finish[1]);
  }

  lemma BareDone(line: Line)
    requires IsDone(line)
    ensures line == Marker(DONE, Bare)
  {
  }

  lemma PassingIsLanguage(lines: seq<Line>)
    requires AllClassified(lines) && PositiveChecks(lines)
    ensures PositiveLanguage(lines)
  {
    hide Hits, NoBadLine, SemanticsOk, Kinds, CycleKinds, NoVmAfterTerminal, Milestones, AllBetween, LinesOf, Booted,
      VmPart, GoodRuns, Placed, Reads, AreFixtures, AreCycles, IsN6Last, IsTimer, IsDone, AllClassified, FixtureOk,
      BootLanguage, From, Laid, LaidLists;
    var l := Collected(lines);
    ListsAreKinds(lines);
    var retries := BootedLines(lines);
    var a := TIMER + retries;
    var base := Hits(lines, IsBase);
    MilestonesInBoot(lines, retries, a);
    VmInside(lines);
    SplitByNumber(lines, retries, a);
    ThreeParts(lines, a);
    var merged :| Sorted(merged) && SameElements(merged, l.fixtures + l.cycles) && AreEvidence(merged)
      && Kinds(merged) == CycleKinds(1) + CycleKinds(2);
    VmIsMerged(lines, merged);
    FixturesInMerged(l.fixtures, l.cycles, merged);
    StartAndComplete(lines);
    var r1, r2 := BlockIsVmPart(l.vm, merged, l.starts[0], l.completes[0]);
    var n := base[..a] + l.vm + base[a..];
    PartsPlaced(base, l.vm, retries, r1, r2);
    HitsAre(lines, IsRelevant);
    PlacedIsLaid(n, a, retries, LinesOf(l.vm), r1, r2);
    LaidCollected(lines, n, a);
    LaidEvidence(lines, n, a);
    LaidLength(n, a);
    PlacedSemantics(n, a, retries, LinesOf(l.vm), r1, r2);
    PlacedReads(base, l.vm, retries, r1, r2);
    LinesOfHits(lines, IsRelevant);
  }

  lemma LaidEvidence(lines: seq<Line>, n: seq<Hit>, a: nat)
    requires Laid(n, a) && LaidLists(lines, n, a)
    ensures |n| == a + 33
    ensures Collected(lines).fixtures == [n[a + 1], n[a + 15]]
      && Collected(lines).cycles == n[a + 2..a + 15] + n[a + 16..a + 29]
  {
  }

  lemma StartAndComplete(lines: seq<Line>)
    requires AllClassified(lines) && PositiveChecks(lines)
    ensures var l := Collected(lines);
      && |l.starts| == 1 && |l.completes| == 1 && l.starts[0].line == VmStart(Positive)
      && l.completes[0].line.VmComplete?
      && l.starts == [l.starts[0]] && l.completes == [l.completes[0]]
  {
    hide Hits, NoBadLine, SemanticsOk, PositiveOrder, NoVmAfterTerminal, BootLanguage;
    HitsFrom(lines, IsStart);
    HitsFrom(lines, IsComplete);
    ListsAreKinds(lines);
  }

  lemma FixturesInMerged(fixtures: seq<Hit>, cycles: seq<Hit>, merged: seq<Hit>)
    requires AreFixtures(fixtures) && AreCycles(cycles) && SemanticsOk(true, fixtures, cycles)
    requires SameElements(merged, fixtures + cycles)
    ensures forall k :: 0 <= k < |merged| && merged[k].line.VmFixture? ==> FixtureOk(merged[k].line)
  {
    hide CyclesOk, NoDuplicates, FixtureOk, Classified;
    forall k | 0 <= k < |merged| && merged[k].line.VmFixture? ensures FixtureOk(merged[k].line) {
      assert merged[k] in fixtures + cycles;
      assert merged[k] in fixtures;
      var j :| 0 <= j < |fixtures| && fixtures[j] == merged[k];
    }
  }

  lemma SplitByNumber(lines: seq<Line>, retries: nat, a: nat)
    requires AllClassified(lines) && Booted(Hits(lines, IsBase), retries) && a == TIMER + retries
    requires |Hits(lines, IsStart)| == |Hits(lines, IsComplete)| == 1
    requires Hits(lines, IsBase)[a - 1].number < Hits(lines, IsStart)[0].number
    requires Hits(lines, IsComplete)[0].number < Hits(lines, IsBase)[a].number
    requires forall k :: 0 <= k < |Hits(lines, IsVm)| ==>
      Hits(lines, IsStart)[0].number <= Hits(lines, IsVm)[k].number <= Hits(lines, IsComplete)[0].number
    ensures a <= |Hits(lines, IsBase)|
    ensures forall i, j :: 0 <= i < a && 0 <= j < |Hits(lines, IsVm)| ==>
      Hits(lines, IsBase)[i].number < Hits(lines, IsVm)[j].number
    ensures forall i, j :: a <= i < |Hits(lines, IsBase)| && 0 <= j < |Hits(lines, IsVm)| ==>
      Hits(lines, IsVm)[j].number < Hits(lines, IsBase)[i].number
  {
    hide Hits, BootMarker;
    var base := Hits(lines, IsBase);
    assert forall i :: 0 <= i < a ==> base[i].number <= base[a - 1].number;
    assert forall i :: a <= i < |base| ==> base[a].number <= base[i].number;
  }

  /**
   In positive mode the verifier reports no error exactly on the transcripts of the language: every
   transcript, whatever its length and noise.
   */
  lemma PositiveChecksAreTheLanguage(lines: seq<Line>)
    requires AllClassified(lines)
    ensures PositiveChecks(lines) <==> PositiveLanguage(lines)
  {
    hide PositiveChecks, PositiveLanguage;
    if PositiveChecks(lines) { PassingIsLanguage(lines); }
    if PositiveLanguage(lines) { LanguagePasses(lines); }
  }
}
