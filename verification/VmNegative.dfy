/**
 The transcripts of a failing run that the strict verifier accepts, said as a language; both directions are
 proved.
 */
module VmNegative {
  import opened Transcript
  import opened TranscriptVm
  import opened VmParser
  import opened VmLanguage

  predicate IsProbe(line: Line) { IsVm(line) || line.Exit? }

  /** The setup is good, and the readback shows what the mode is about: still the original root, or the private one. */
  ghost predicate GoodFailure(mode: Mode, r: seq<Fields>) {
    && |r| == |Required(mode)| && GoodSetup(r[0], r[1], r[2], r[3])
    && r[4] == SwitchFields(r[2].root, if mode == SkipSwitch then Addr(r[0].cr3) else r[2].root)
    && (mode != SkipSwitch ==> r[5] == ContentFields)
  }

  ghost predicate Block(mode: Mode, block: seq<Line>, r: seq<Fields>) {
    var n := |Required(mode)|;
    && |r| == n && |block| == n + 4
    && block[0] == VmStart(mode) && block[1] == VmFixture(1, FIXTURE_LEN, SHA1)
    && (forall i :: 2 <= i < n + 2 ==> block[i] == VmCycle(1, Required(mode)[i - 2], r[i - 2]))
    && block[n + 2] == VmFail(1, FailStageOf(mode), FailReasonOf(mode))
    && block[n + 3] == Exit(ExitVm)
  }

  /**
   Up to other lines: start, the fixture and the stages of the mode in cycle 1 with good fields, its one
   failure and exit 17. The sixteen boot markers come before start; there is no failure line, no timer
   line and no bare done.
   */
  ghost predicate NegativeLanguage(mode: Mode, lines: seq<Line>) {
    && (forall i :: 0 <= i < |lines| ==> !lines[i].FailureLine? && !IsTimer(lines[i]) && !IsDone(lines[i]))
    && (exists i :: 0 <= i < |lines| && lines[i].VmStart? && N6Language(lines[..i]))
    && exists r :: Block(mode, Filter(lines, IsProbe), r) && GoodFailure(mode, r)
  }

  // ---------------------------------------------------------------- the lists of a block

  ghost predicate BlockHits(mode: Mode, n: seq<Hit>, r: seq<Fields>) {
    Sorted(n) && Block(mode, LinesOf(n), r)
  }

  lemma BlockKinds(mode: Mode, n: seq<Hit>, r: seq<Fields>)
    requires BlockHits(mode, n, r)
    ensures |n| == |Required(mode)| + 4 && |r| == |Required(mode)| && Sorted(n)
    ensures n[0].line == VmStart(mode) && n[1].line == VmFixture(1, FIXTURE_LEN, SHA1)
    ensures forall i :: 2 <= i < |n| - 2 ==>
      n[i].line.VmCycle? && n[i].line == VmCycle(1, Required(mode)[i - 2], r[i - 2])
    ensures n[|n| - 2].line == VmFail(1, FailStageOf(mode), FailReasonOf(mode)) && n[|n| - 1].line == Exit(ExitVm)
  {
  }

  lemma One(lines: seq<Line>, n: seq<Hit>, p: Line -> bool, i: nat)
    requires n == Hits(lines, IsProbe) && (forall line :: p(line) ==> IsProbe(line)) && i < |n| && p(n[i].line)
    requires forall j :: 0 <= j < |n| && j != i ==> !p(n[j].line)
    ensures Hits(lines, p) == [n[i]]
  {
    hide Hits, IsProbe;
    SubHits(lines, IsProbe, p, [n[i]]);
  }

  lemma Several(lines: seq<Line>, n: seq<Hit>, p: Line -> bool, lo: nat, hi: nat)
    requires n == Hits(lines, IsProbe) && Sorted(n) && (forall line :: p(line) ==> IsProbe(line)) && lo <= hi <= |n|
    requires forall j :: 0 <= j < |n| ==> (p(n[j].line) <==> lo <= j < hi)
    ensures Hits(lines, p) == n[lo..hi]
  {
    hide Hits, IsProbe;
    var sub := n[lo..hi];
    forall k | 0 <= k < |sub| ensures sub[k] in n && p(sub[k].line) { assert sub[k] == n[lo + k]; }
    forall i | 0 <= i < |n| && p(n[i].line) ensures n[i] in sub { assert sub[i - lo] == n[i]; }
    SubHits(lines, IsProbe, p, sub);
  }

  ghost predicate BlockLists(l: Lists, n: seq<Hit>) {
    && |n| >= 4 && l.starts == [n[0]] && l.fixtures == [n[1]] && l.cycles == n[2..|n| - 2] && l.completes == []
    && l.fails == [n[|n| - 2]] && l.exits == [n[|n| - 1]] && l.vm == n[..|n| - 1]
  }

  lemma BlockCollected(mode: Mode, lines: seq<Line>, n: seq<Hit>, r: seq<Fields>)
    requires n == Hits(lines, IsProbe) && BlockHits(mode, n, r)
    ensures BlockLists(Collected(lines), n)
  {
    hide Hits, Required, FailStageOf, FailReasonOf, BlockHits;
    BlockKinds(mode, n, r);
    One(lines, n, IsStart, 0);
    One(lines, n, IsFixture, 1);
    Several(lines, n, IsCycle, 2, |n| - 2);
    Several(lines, n, IsComplete, 0, 0);
    One(lines, n, IsFail, |n| - 2);
    One(lines, n, IsExit, |n| - 1);
    Several(lines, n, IsVm, 0, |n| - 1);
    assert n[0..0] == [] && n[0..|n| - 1] == n[..|n| - 1];
  }

  // ---------------------------------------------------------------- the one cycle

  ghost predicate OneRun(mode: Mode, cycles: seq<Hit>, r: seq<Fields>) {
    && |cycles| == |r| == |Required(mode)|
    && forall k :: 0 <= k < |cycles| ==> cycles[k].line == VmCycle(1, Required(mode)[k], r[k])
  }

  lemma BlockRun(mode: Mode, n: seq<Hit>, r: seq<Fields>)
    requires BlockHits(mode, n, r)
    ensures |n| >= 4 && OneRun(mode, n[2..|n| - 2], r)
  {
  }

  lemma RequiredDiffer(mode: Mode, j: nat, k: nat)
    requires j < k < |Required(mode)|
    ensures Required(mode)[j] != Required(mode)[k]
  {
  }

  lemma RequiredAre(mode: Mode)
    ensures |Required(mode)| == if mode == SkipSwitch then 5 else 6
    ensures Required(mode)[0] == Control && Required(mode)[1] == Template && Required(mode)[2] == Construct
    ensures Required(mode)[3] == Walk && Required(mode)[4] == Switch
      && (mode != SkipSwitch ==> Required(mode)[5] == Content)
  {
  }

  lemma OneRunDiffers(mode: Mode, cycles: seq<Hit>, r: seq<Fields>)
    requires OneRun(mode, cycles, r)
    ensures AreCycles(cycles) && NoDuplicates(cycles)
  {
  }

  lemma {:induction false} StagesOfOne(mode: Mode, cycles: seq<Hit>, r: seq<Fields>, n: nat)
    requires OneRun(mode, cycles, r) && n <= |cycles|
    ensures AreCycles(cycles[..n]) && StagesOf(cycles[..n], 1) == Required(mode)[..n]
  {
    hide Required;
    OneRunDiffers(mode, cycles, r);
    if n > 0 {
      StagesOfOne(mode, cycles, r, n - 1);
      assert cycles[..n][..n - 1] == cycles[..n - 1];
      assert cycles[n - 1].line == VmCycle(1, Required(mode)[n - 1], r[n - 1]);
    }
  }

  lemma {:induction false} FieldsWhereOne(mode: Mode, cycles: seq<Hit>, r: seq<Fields>, k: nat, n: nat)
    requires OneRun(mode, cycles, r) && k < |cycles| && n <= |cycles|
    ensures AreCycles(cycles[..n]) && FieldsWhere(cycles[..n], Required(mode)[k]) == if k < n then [r[k]] else []
  {
    hide Required;
    OneRunDiffers(mode, cycles, r);
    if n > 0 {
      FieldsWhereOne(mode, cycles, r, k, n - 1);
      assert cycles[..n][..n - 1] == cycles[..n - 1];
      assert cycles[n - 1].line == VmCycle(1, Required(mode)[n - 1], r[n - 1]);
      if n - 1 < k { RequiredDiffer(mode, n - 1, k); } else if k < n - 1 { RequiredDiffer(mode, k, n - 1); }
    }
  }

  /** What the map of cycle 1 holds. */
  ghost predicate RecordsOne(mode: Mode, m: map<Stage, Fields>, r: seq<Fields>) {
    && |r| == |Required(mode)|
    && (forall k :: 0 <= k < |r| ==> Required(mode)[k] in m && m[Required(mode)[k]] == r[k])
    && forall stage :: stage in m ==> stage in Required(mode)
  }

  lemma OneRunRecorded(mode: Mode, cycles: seq<Hit>, r: seq<Fields>)
    requires OneRun(mode, cycles, r) && AreCycles(cycles)
    ensures RecordsOne(mode, ByCycle(cycles, 1), r)
  {
    hide ByCycle, Required;
    OneRunDiffers(mode, cycles, r);
    var m := ByCycle(cycles, 1);
    forall k | 0 <= k < |r| ensures Required(mode)[k] in m && m[Required(mode)[k]] == r[k] {
      ByCycleAt(cycles, k);
      assert cycles[k].line == VmCycle(1, Required(mode)[k], r[k]);
    }
    forall stage | stage in m ensures stage in Required(mode) {
      ByCycleKeys(cycles, 1, stage);
      var j :| 0 <= j < |cycles| && cycles[j].line.cycle == 1 && cycles[j].line.stage == stage;
      assert cycles[j].line == VmCycle(1, Required(mode)[j], r[j]);
    }
  }

  lemma OneFields(mode: Mode, m: map<Stage, Fields>, r: seq<Fields>)
    requires RecordsOne(mode, m, r)
    ensures |r| == |Required(mode)| && 5 <= |r| && {Control, Template, Construct, Walk, Switch} <= m.Keys
    ensures m[Control] == r[0] && m[Template] == r[1] && m[Construct] == r[2] && m[Walk] == r[3] && m[Switch] == r[4]
    ensures if mode == SkipSwitch then |r| == 5 && Content !in m else |r| == 6 && Content in m && m[Content] == r[5]
    ensures FaultRo !in m && FaultNx !in m && FaultGuard !in m && FaultTop !in m && Restore !in m && Absent !in m
      && Destroy !in m
  {
    RequiredAre(mode);
    hide Required;
    forall k | 0 <= k < |r| ensures Required(mode)[k] in m && m[Required(mode)[k]] == r[k] { }
    forall stage | stage in m
      ensures stage in {Control, Template, Construct, Walk, Switch} || (stage == Content && mode != SkipSwitch)
    {
      var k :| 0 <= k < |r| && Required(mode)[k] == stage;
      assert k in {0, 1, 2, 3, 4, 5};
    }
  }

  lemma ParsedOne(mode: Mode, m: map<Stage, Fields>, r: seq<Fields>)
    requires RecordsOne(mode, m, r)
    ensures |r| == |Required(mode)| && 5 <= |r| && (mode != SkipSwitch ==> |r| == 6)
    ensures Parsed(m, Control) == r[0] && Parsed(m, Template) == r[1] && Parsed(m, Construct) == r[2]
    ensures Parsed(m, Walk) == r[3] && Parsed(m, Switch) == r[4]
    ensures Parsed(m, Restore) == Parsed(m, Destroy) == OtherFields && FaultsOk(m)
    ensures GenerationsOf(m, |FAULTS|) == []
    ensures Shaped(false, m) <==>
      && r[0].ControlFields? && r[1].TemplateFields? && r[2].ConstructFields? && r[3].WalkFields? && r[4].SwitchFields?
      && (mode != SkipSwitch ==> r[5].ContentFields?)
  {
    hide Required, RecordsOne, FaultOk;
    OneFields(mode, m, r);
    NoFaults(m);
    ShapedOne(mode, m);
  }

  lemma NoFaults(m: map<Stage, Fields>)
    requires FaultRo !in m && FaultNx !in m && FaultGuard !in m && FaultTop !in m && Absent !in m
    ensures FaultsOk(m) && GenerationsOf(m, |FAULTS|) == []
  {
    hide FaultOk;
    assert forall k :: 0 <= k < |FAULTS| ==> FAULTS[k] !in m;
    NoGenerations(m, |FAULTS|);
  }

  lemma {:induction false} NoGenerations(m: map<Stage, Fields>, n: nat)
    requires n <= |FAULTS| && forall k :: 0 <= k < |FAULTS| ==> FAULTS[k] !in m
    ensures GenerationsOf(m, n) == []
  {
    if n > 0 { NoGenerations(m, n - 1); }
  }

  lemma ShapedOne(mode: Mode, m: map<Stage, Fields>)
    requires {Control, Template, Construct, Walk, Switch} <= m.Keys && (Content in m <==> mode != SkipSwitch)
    requires FaultRo !in m && FaultNx !in m && FaultGuard !in m && FaultTop !in m && Restore !in m && Absent !in m
      && Destroy !in m
    ensures Shaped(false, m) <==>
      && m[Control].ControlFields? && m[Template].TemplateFields? && m[Construct].ConstructFields?
      && m[Walk].WalkFields?
      && m[Switch].SwitchFields? && (mode != SkipSwitch ==> m[Content].ContentFields?)
  {
    assert STAGES[0] == Control && STAGES[1] == Template && STAGES[2] == Construct && STAGES[3] == Walk
      && STAGES[4] == Switch;
    assert STAGES[5] == Content;
    if Shaped(false, m) {
      assert Matches(Control, m[Control]) && Matches(Template, m[Template]) && Matches(Construct, m[Construct]);
      assert Matches(Walk, m[Walk]) && Matches(Switch, m[Switch]) && (Content in m ==> Matches(Content, m[Content]));
    }
  }

  /** The scattered checks of a failing cycle hold exactly when its fields are those of a good failure. */
  lemma OneCycleIsGood(mode: Mode, m: map<Stage, Fields>, r: seq<Fields>)
    requires RecordsOne(mode, m, r)
    ensures |r| == |Required(mode)| && 5 <= |r|
    ensures GoodFailure(mode, r) <==>
      CycleOk(false, 1, m, NO_BASELINE)
        && if mode == SkipSwitch then SkipObserved([r[0]], [r[4]]) else ReadbackMatches([r[4]])
  {
    hide Required, RecordsOne, Shaped, FaultsOk, ControlOk, PdptOk, ConstructOk, WalkOk, IsLeaf, Parsed, Addr, Kept,
      FrameOk, GenerationsOf;
    ParsedOne(mode, m, r);
    if r[0].ControlFields? { OriginalIsFrame(r[0]); }
  }

  lemma OriginalIsFrame(control: Fields)
    requires control.ControlFields?
    ensures ControlOk(control) ==> FrameOk(Addr(control.cr3))
  {
  }

  // ---------------------------------------------------------------- both directions

  lemma EventsOfBlock(mode: Mode, n: seq<Hit>, r: seq<Fields>)
    requires BlockHits(mode, n, r)
    ensures |n| >= 4
    ensures EventsInOrder([n[0]] + [n[1]] + n[2..|n| - 2] + [n[|n| - 2]] + [n[|n| - 1]], Wanted(mode, true, true))
  {
    hide Required, BlockHits, FailStageOf, FailReasonOf;
    BlockKinds(mode, n, r);
    assert [n[0]] + [n[1]] + n[2..|n| - 2] + [n[|n| - 2]] + [n[|n| - 1]] == n;
    forall k | 0 <= k < |n| ensures IsEvent(n[k].line) { }
    assert Events(n) == Wanted(mode, true, true);
  }

  /** On the lists of a block, the sequence and field checks ask exactly for a good failure. */
  lemma BlockChecks(mode: Mode, n: seq<Hit>, r: seq<Fields>)
    requires BlockHits(mode, n, r)
    ensures |n| >= 4
    ensures AreFixtures([n[1]]) && AreCycles(n[2..|n| - 2])
    ensures GoodFailure(mode, r) <==>
      && SequenceOk(mode, [n[0]], [n[1]], n[2..|n| - 2], [n[|n| - 2]], [n[|n| - 1]], n[..|n| - 1])
      && SemanticsOk(false, [n[1]], n[2..|n| - 2])
  {
    hide Required, BlockHits, FailStageOf, FailReasonOf, StagesOf, FieldsWhere, ByCycle, CycleOk, GenerationsOf,
      RecordsOne, GoodFailure, EventsInOrder, Wanted, SkipObserved, ReadbackMatches, LastStage, OneRun, NoDuplicates,
      AreCycles;
    BlockKinds(mode, n, r);
    BlockRun(mode, n, r);
    EventsOfBlock(mode, n, r);
    var cycles := n[2..|n| - 2];
    OneRunDiffers(mode, cycles, r);
    OneRunLists(mode, cycles, r);
    OneRunRecorded(mode, cycles, r);
    OneCycleIsGood(mode, ByCycle(cycles, 1), r);
    ParsedOne(mode, ByCycle(cycles, 1), r);
    OnlyOne(mode, cycles, r);
    assert cycles[|cycles| - 1] == n[|n| - 3];
  }

  lemma OnlyOne(mode: Mode, cycles: seq<Hit>, r: seq<Fields>)
    requires OneRun(mode, cycles, r)
    ensures AreCycles(cycles) && OnlyCycleOne(cycles) && cycles != []
      && LastStage(cycles) == cycles[|cycles| - 1].number
  {
  }

  lemma OneRunLists(mode: Mode, cycles: seq<Hit>, r: seq<Fields>)
    requires OneRun(mode, cycles, r)
    ensures AreCycles(cycles) && StagesOf(cycles, 1) == Required(mode) && |r| >= 5
    ensures FieldsWhere(cycles, Control) == [r[0]] && FieldsWhere(cycles, Switch) == [r[4]]
  {
    RequiredAre(mode);
    hide Required, StagesOf, FieldsWhere;
    assert cycles[..|cycles|] == cycles && Required(mode)[..|r|] == Required(mode);
    StagesOfOne(mode, cycles, r, |cycles|);
    FieldsWhereOne(mode, cycles, r, 0, |cycles|);
    FieldsWhereOne(mode, cycles, r, 4, |cycles|);
  }

  lemma BlockHasNoBadLine(mode: Mode, lines: seq<Line>, n: seq<Hit>, r: seq<Fields>)
    requires n == Hits(lines, IsProbe) && BlockHits(mode, n, r)
      && forall i :: 0 <= i < |lines| ==> !lines[i].FailureLine?
    ensures NoBadLine(lines)
  {
    hide Hits, BlockHits, IsProbe, IsBad;
    HitsAre(lines, IsProbe);
    forall i | 0 <= i < |lines| ensures !IsBad(lines[i]) {
      BadIsProbe(lines[i]);
      if IsProbe(lines[i]) {
        assert Hit(i + 1, lines[i]) in n;
        var k :| 0 <= k < |n| && n[k] == Hit(i + 1, lines[i]);
        BlockLineIsFine(mode, n, r, k);
      }
    }
  }

  lemma BadIsProbe(line: Line)
    ensures IsBad(line) ==> line.FailureLine? || IsProbe(line)
  {
  }

  lemma BlockLineIsFine(mode: Mode, n: seq<Hit>, r: seq<Fields>, k: nat)
    requires BlockHits(mode, n, r) && k < |n|
    ensures !IsBad(n[k].line)
  {
  }

  lemma BootHasExit(lines: seq<Line>) returns (i: nat)
    requires BootLanguage(lines)
    ensures i < |lines| && lines[i] == Exit(ExitOk)
  {
    hide Hits, BootLanguage, BootMarker;
    var retries := BootedLines(lines);
    HitsAre(lines, IsBase);
    var h := Hits(lines, IsBase)[MARKERS + retries];
    assert h in Hits(lines, IsBase);
    i := h.number - 1;
  }

  /** A boot ends with exit 10, so a transcript whose only exit is 17 fails the bootstrap parser. */
  lemma NoBoot(mode: Mode, lines: seq<Line>, n: seq<Hit>, r: seq<Fields>)
    requires n == Hits(lines, IsProbe) && BlockHits(mode, n, r)
    ensures !BootLanguage(lines)
  {
    hide Hits, FailStageOf, FailReasonOf, BlockHits, Required, BootLanguage;
    BlockKinds(mode, n, r);
    HitsAre(lines, IsProbe);
    forall i | 0 <= i < |lines| ensures lines[i] != Exit(ExitOk) {
      assert lines[i].Exit? ==> Hit(i + 1, lines[i]) in n;
    }
    if BootLanguage(lines) { var i := BootHasExit(lines); }
  }

  lemma NoneOf(lines: seq<Line>, p: Line -> bool)
    ensures Hits(lines, p) == [] <==> forall i :: 0 <= i < |lines| ==> !p(lines[i])
  {
  }

  /** A transcript with exactly one start line: the prefix condition of the language is that of the checks. */
  lemma PrefixAtStart(lines: seq<Line>, start: Hit)
    requires Hits(lines, IsStart) == [start]
    ensures 1 <= start.number <= |lines|
    ensures N6Language(lines[..start.number - 1]) <==>
      exists i :: 0 <= i < |lines| && lines[i].VmStart? && N6Language(lines[..i])
  {
    hide Hits, N6Language;
    HitsAre(lines, IsStart);
    assert start in Hits(lines, IsStart);
    forall i | 0 <= i < |lines| && lines[i].VmStart? ensures i == start.number - 1 {
      assert Hit(i + 1, lines[i]) in Hits(lines, IsStart);
    }
    if N6Language(lines[..start.number - 1]) { assert lines[start.number - 1].VmStart?; }
  }

  lemma LanguageFails(mode: Mode, lines: seq<Line>)
    requires AllClassified(lines) && mode != Positive && NegativeLanguage(mode, lines)
    ensures NegativeChecks(mode, lines)
  {
    hide Hits, FailStageOf, FailReasonOf, BlockHits, Required, BootLanguage, NoBadLine, SequenceOk, SemanticsOk,
      N6Language, GoodFailure, AllClassified, AreFixtures, AreCycles, From, LinesOf, IsProbe, IsTimer, IsDone;
    var r :| Block(mode, Filter(lines, IsProbe), r) && GoodFailure(mode, r);
    var n := Hits(lines, IsProbe);
    LinesOfHits(lines, IsProbe);
    HitsAre(lines, IsProbe);
    BlockFromLines(mode, n, r);
    BlockCollected(mode, lines, n, r);
    BlockKinds(mode, n, r);
    BlockHasNoBadLine(mode, lines, n, r);
    NoBoot(mode, lines, n, r);
    NoneOf(lines, IsTimer);
    NoneOf(lines, IsDone);
    PrefixAtStart(lines, n[0]);
    BlockChecks(mode, n, r);
    ListsAreKinds(lines);
  }

  lemma BlockFromLines(mode: Mode, n: seq<Hit>, r: seq<Fields>)
    requires Sorted(n) && Block(mode, LinesOf(n), r)
    ensures BlockHits(mode, n, r)
  {
  }

  ghost function AllEvents(lines: seq<Line>): seq<Hit> {
    var l := Collected(lines);
    l.starts + l.fixtures + l.cycles + l.fails + l.exits
  }

  /** Without malformed and complete lines the probe lines are the five lists together. */
  lemma ProbeHits(lines: seq<Line>, merged: seq<Hit>)
    requires NoBadLine(lines) && Hits(lines, IsComplete) == [] && Sorted(merged)
      && SameElements(merged, AllEvents(lines))
    ensures Hits(lines, IsProbe) == merged
  {
    hide Hits;
    HitsAre(lines, IsStart);
    HitsAre(lines, IsFixture);
    HitsAre(lines, IsCycle);
    HitsAre(lines, IsFail);
    HitsAre(lines, IsExit);
    HitsAre(lines, IsProbe);
    NoneOf(lines, IsComplete);
    var l := Collected(lines);
    forall h
      ensures h in Hits(lines, IsProbe) <==> h in merged
    {
      assert h in merged <==> h in l.starts || h in l.fixtures || h in l.cycles || h in l.fails || h in l.exits;
      if h in Hits(lines, IsProbe) {
        assert !IsBad(lines[h.number - 1]) && !IsComplete(lines[h.number - 1]);
      }
    }
    SortedUnique(Hits(lines, IsProbe), merged);
  }

  /** What the lines of the wanted events are, given the only start, fixture, failure and exit. */
  lemma EventsAreBlock(mode: Mode, merged: seq<Hit>, all: seq<Hit>) returns (r: seq<Fields>)
    requires Sorted(merged) && SameElements(merged, all) && AreEvents(merged)
      && Events(merged) == Wanted(mode, true, true)
    requires forall k :: 0 <= k < |all| ==> all[k].line.VmStart? ==> all[k].line == VmStart(mode)
    requires forall k :: 0 <= k < |all| ==> all[k].line.VmFixture? && all[k].line.cycle == 1 ==>
      all[k].line == VmFixture(1, FIXTURE_LEN, SHA1)
    requires forall k :: 0 <= k < |all| ==> all[k].line.VmFail? ==>
      all[k].line == VmFail(1, FailStageOf(mode), FailReasonOf(mode))
    requires forall k :: 0 <= k < |all| ==> all[k].line.Exit? ==> all[k].line == Exit(ExitVm)
    ensures BlockHits(mode, merged, r)
  {
    hide FailStageOf, FailReasonOf, Required;
    hide Wanted, Events, LinesOf;
    EventsByPlace(mode, merged, all);
    var n := |merged|;
    var cycles := LinesOf(merged)[2..n - 2];
    forall i | 2 <= i < n - 2
      ensures cycles[i - 2] == LinesOf(merged)[i] == merged[i].line && cycles[i - 2].VmCycle?
    {
    }
    forall k | 0 <= k < n - 4 ensures cycles[k].VmCycle? { assert cycles[k] == merged[k + 2].line; }
    r := FieldsIn(cycles);
  }

  lemma EventsByPlace(mode: Mode, merged: seq<Hit>, all: seq<Hit>)
    requires SameElements(merged, all) && AreEvents(merged) && Events(merged) == Wanted(mode, true, true)
    ensures |merged| == |Required(mode)| + 4 && forall k :: 0 <= k < |merged| ==> merged[k] in all
    ensures merged[0].line.VmStart? && merged[1].line.VmFixture? && merged[1].line.cycle == 1
    ensures merged[|merged| - 2].line.VmFail? && merged[|merged| - 1].line.Exit?
    ensures forall i :: 2 <= i < |merged| - 2 ==>
      merged[i].line.VmCycle? && merged[i].line.cycle == 1 && merged[i].line.stage == Required(mode)[i - 2]
  {
    hide Required;
    var q, events := |Required(mode)|, Wanted(mode, true, true);
    assert events[0] == StartEvent && events[1] == FixtureEvent(1) && events[q + 2] == FailEvent(1)
      && events[q + 3] == ExitEvent;
    forall k | 0 <= k < |merged|
      ensures EventOf(merged[k].line) == events[k] && merged[k] in all
    {
      assert Events(merged)[k] == events[k];
    }
    forall i | 2 <= i < q + 2 ensures EventOf(merged[i].line) == StageEvent(1, Required(mode)[i - 2]) {
      assert Events(merged)[i] == events[i];
    }
  }

  lemma OnlyLines(lines: seq<Line>, mode: Mode)
    requires AllClassified(lines) && mode != Positive && NegativeChecks(mode, lines)
    ensures var all := AllEvents(lines);
      && (forall k :: 0 <= k < |all| ==> all[k].line.VmStart? ==> all[k].line == VmStart(mode))
      && (forall k :: 0 <= k < |all| ==> all[k].line.VmFixture? && all[k].line.cycle == 1 ==>
        all[k].line == VmFixture(1, FIXTURE_LEN, SHA1))
      && (forall k :: 0 <= k < |all| ==> all[k].line.VmFail? ==>
        all[k].line == VmFail(1, FailStageOf(mode), FailReasonOf(mode)))
      && (forall k :: 0 <= k < |all| ==> all[k].line.Exit? ==> all[k].line == Exit(ExitVm))
  {
    hide Hits, FailStageOf, FailReasonOf, Required, BootLanguage, NoBadLine, N6Language, EventsInOrder, CyclesOk,
      NoDuplicates, NotAfter, OnlyCycleOne, StagesOf, FieldsWhere, SkipObserved, ReadbackMatches, LastStage, From,
      Wanted, AllClassified;
    ListsAreKinds(lines);
    var l, all := Collected(lines), AllEvents(lines);
    assert |l.starts| == |l.fails| == |l.exits| == 1;
    forall k | 0 <= k < |all|
      ensures all[k] in l.starts || all[k] in l.fixtures || all[k] in l.cycles || all[k] in l.fails || all[k] in l.exits
    {
      assert all[k] in all;
    }
    forall h | h in l.fixtures && h.line.cycle == 1 ensures h.line == VmFixture(1, FIXTURE_LEN, SHA1) {
      var j :| 0 <= j < |l.fixtures| && l.fixtures[j] == h;
      assert FixtureOk(l.fixtures[j].line);
    }
  }

  lemma PassingIsNegative(mode: Mode, lines: seq<Line>)
    requires AllClassified(lines) && mode != Positive && NegativeChecks(mode, lines)
    ensures NegativeLanguage(mode, lines)
  {
    hide Hits, FailStageOf, FailReasonOf, Required, BootLanguage, NoBadLine, N6Language, GoodFailure, Events, Wanted,
      SemanticsOk, AllClassified, AreFixtures, AreCycles, From, LinesOf, IsProbe, IsTimer, IsDone, OnlyCycleOne,
      StagesOf, FieldsWhere, SkipObserved, ReadbackMatches, LastStage, NotAfter, BlockHits;
    ListsAreKinds(lines);
    var l, all := Collected(lines), AllEvents(lines);
    FiveLists(l, all);
    var merged :| Sorted(merged) && SameElements(merged, all) && AreEvents(merged)
      && Events(merged) == Wanted(mode, true, true);
    OnlyLines(lines, mode);
    var r := EventsAreBlock(mode, merged, all);
    ProbeHits(lines, merged);
    LinesOfHits(lines, IsProbe);
    BlockCollected(mode, lines, merged, r);
    BlockChecks(mode, merged, r);
    NoneOf(lines, IsTimer);
    NoneOf(lines, IsDone);
    PrefixAtStart(lines, merged[0]);
    NoFailures(lines);
    LinesOfBlock(mode, merged, r);
  }

  lemma LinesOfBlock(mode: Mode, n: seq<Hit>, r: seq<Fields>)
    requires BlockHits(mode, n, r)
    ensures Block(mode, LinesOf(n), r)
  {
  }

  lemma FiveLists(l: Lists, all: seq<Hit>)
    requires |l.starts| == |l.fails| == |l.exits| == 1 && all == l.starts + l.fixtures + l.cycles + l.fails + l.exits
    ensures First(l.starts) + l.fixtures + l.cycles + First(l.fails) + First(l.exits) == all
  {
  }

  /**
   In the failing modes the verifier reports no error exactly on the transcripts of the mode's language.
   That the bootstrap parser must fail is not a condition of the language: it follows.
   */
  lemma NegativeChecksAreTheLanguage(mode: Mode, lines: seq<Line>)
    requires AllClassified(lines) && mode != Positive
    ensures NegativeChecks(mode, lines) <==> NegativeLanguage(mode, lines)
  {
    hide NegativeChecks, NegativeLanguage;
    if NegativeChecks(mode, lines) { PassingIsNegative(mode, lines); }
    if NegativeLanguage(mode, lines) { LanguageFails(mode, lines); }
  }
}
