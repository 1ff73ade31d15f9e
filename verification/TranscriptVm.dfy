/**
 The strict transcript verifier for the guest-memory probe: lists of numbered lines, windows, merged
 order, and field checks with their cross-cycle baselines. VmLanguage.dfy and VmNegative.dfy
 say which transcripts it accepts.
 */
module TranscriptVm {
  import opened Transcript

  // ---------------------------------------------------------------- numbered lines

  datatype Hit = Hit(number: nat, line: Line)

  /** The lines of a kind with their line numbers, counted from 1. */
  function Hits(lines: seq<Line>, p: Line -> bool): seq<Hit> {
    if lines == [] then []
    else
      var last := lines[|lines| - 1];
      Hits(lines[..|lines| - 1], p) + if p(last) then [Hit(|lines|, last)] else []
  }

  predicate IsVm(line: Line) {
    line.VmStart? || line.VmFixture? || line.VmCycle? || line.VmComplete? || line.VmFail? || line.VmMalformed?
  }
  predicate IsStart(line: Line) { line.VmStart? }
  predicate IsFixture(line: Line) { line.VmFixture? }
  predicate IsCycle(line: Line) { line.VmCycle? }
  predicate IsComplete(line: Line) { line.VmComplete? }
  predicate IsFail(line: Line) { line.VmFail? }
  predicate IsExit(line: Line) { line.Exit? }
  predicate IsN6Last(line: Line) { line.Marker? && line.index == N6_LAST && !line.tail.Tabbed? }
  predicate IsTimer(line: Line) { line.Marker? && line.index == TIMER && !line.tail.Tabbed? }
  predicate IsDone(line: Line) { line.Marker? && line.index == DONE && line.tail.Bare? }

  /** Lines that are an error wherever they stand. */
  predicate IsBad(line: Line) {
    line.FailureLine? || line.VmMalformed? || (line.VmCycle? && line.stage.Unknown?)
  }

  // ---------------------------------------------------------------- constants of the profile

  const STAGES: seq<Stage> :=
    [Control, Template, Construct, Walk, Switch, Content, FaultRo, FaultNx, FaultGuard, FaultTop, Restore, Absent,
      Destroy]

  const FIXTURE_LEN := 5120
  const SHA1 := "b9b1c7085cc32a99ff7127d83f845525115f4d0c57d67566c2521fa9681486b9"
  const SHA2 := "f2bb6508933e81ba28e67fe968508db2c6888681a508019c8935f1b663d6c447"

  const PHYS_TOP: bv64 := 0x1000_0000
  const PAGE: bv64 := 0x1000
  const CR3_ADDR: bv64 := 0x000F_FFFF_FFFF_F000
  const PTE_P: bv64 := 0x1
  const PTE_U: bv64 := 0x4
  const PTE_PS: bv64 := 0x80
  const PTE_KEPT: bv64 := 0xFFFF_FFFF_FFFF_FF9F
  const CR0_WP: bv64 := 0x1_0000
  const CR4_UNSUPPORTED: bv64 := 0x32_1000
  const EFER_NXE: bv64 := 0x800
  const RFLAGS_IF: bv64 := 0x200
  const KERNEL_LO: bv64 := 0x20_0000
  const KERNEL_HI: bv64 := 0x40_0000

  function Digest(cycle: nat): string { if cycle == 1 then SHA1 else SHA2 }

  function FaultAddress(stage: Stage): bv64 {
    match stage
    case FaultRo => 0x4020_2180
    case FaultNx => 0x4020_4030
    case FaultGuard => 0x7FFE_D000
    case FaultTop => 0x7FFF_E000
    case _ => 0x401F_F100
  }

  function FaultCode(stage: Stage): nat {
    match stage
    case FaultRo => 0x3
    case FaultNx => 0x11
    case _ => 0
  }

  const FAULTS: seq<Stage> := [FaultRo, FaultNx, FaultGuard, FaultTop, Absent]

  /** The address part of a CR3 value or a page-table entry. */
  function Addr(v: bv64): bv64 { v & CR3_ADDR }

  /** A page-table entry without its accessed and dirty bits. */
  function Kept(entry: bv64): bv64 { entry & PTE_KEPT }

  predicate FrameOk(v: bv64) {
    v != 0 && v & (PAGE - 1) == 0 && v < PHYS_TOP
  }

  /** The number a string of decimal digits spells. */
  function DecValue(digits: string): nat {
    if digits == "" then 0
    else
      var c := digits[|digits| - 1];
      10 * DecValue(digits[..|digits| - 1]) + if '0' <= c <= '9' then (c - '0') as nat else 0
  }

  // ---------------------------------------------------------------- the checks, one at a time

  datatype VmError =
    | IfNotMasked | WpNxeMissing | Cr4Profile | PmmAccounting | OriginalRootFrame
    | PdptNotPresent | PdptNotSupervisor | PdptHuge | PdptFrame | PdptAliasesRoot
    | PageBudgets | OwnedSum | PrivateRootFrame | PtCounts | LeavesNotDistinct | LeafFrame
    | FaultPfec | FaultCr2 | FaultGeneration | FaultRip
    | FieldMismatch(stage: Stage) | TemplateRoot | BaselinePmm | BaselineCr3 | RestoreMismatch | RestoreCr3
    | DestroyPmm | BaselineTemplate | BaselinePdpt | PrivateIsOriginal | SwitchExpected | SwitchMismatch | LeafIsRoot
    | DuplicateStage(stage: Stage) | FixtureOrder | FixtureLength | FixtureDigest | StagesIncomplete(cycle: nat)
    | Generations | BadLine(number: nat) | StartCount | StartMode | BaseErrors | ContainsFail | CompleteCount
    | ExitNotOk | VmAfterTerminal
    | OrderMissing | StartBeforeN6 | CompleteBeforeStart | TimerBeforeComplete | DoneBeforeTimer | ExitBeforeDone
    | FixtureWindow | CycleWindow | StageOrder
    | PassedBootstrap | ContainsComplete | ContainsDone | ContainsTimer | ContainsSuccessExit | FailCount | FailCycle
    | ExitNotVm | FailAfterExit | FailStage | FailReason | N6OutOfOrder(number: nat) | N6Incomplete
    | SecondCycle | FixtureCount | FixtureBeforeStart | RequiredStages | StageTooFar | SwitchMissing | SwitchReadback
    | ObservedMatches | ObservedFrame | ControlMissing | ObservedNotSaved | NegativeOrder | FailBeforeStage
    | FailBeforeFixture | VmAfterFail | VmAfterExit

  type Errors = seq<VmError>

  /** Appends the message if the check failed. */
  function Note(errors: Errors, failed: bool, message: VmError): (r: Errors)
    ensures r == [] <==> errors == [] && !failed
  {
    if failed then errors + [message] else errors
  }

  /** The saved values of cycle 1 that cycle 2 is compared with. */
  datatype Baseline = Baseline(control: Fields, template: Fields)

  const NO_BASELINE := Baseline(OtherFields, OtherFields)

  predicate ControlOk(f: Fields)
    requires f.ControlFields?
  {
    && f.rflags & RFLAGS_IF == 0 && f.cr0 & CR0_WP != 0 && f.efer & EFER_NXE != 0 && f.cr4 & CR4_UNSUPPORTED == 0
    && DecValue(f.pmm.total) == DecValue(f.pmm.free) + DecValue(f.pmm.used)
    && FrameOk(Addr(f.cr3))
  }

  method CheckControl(f: Fields) returns (errors: Errors)
    requires f.ControlFields?
    ensures errors == [] <==> ControlOk(f)
  {
    hide FrameOk, DecValue, Note;
    errors := [];
    errors := Note(errors, f.rflags & RFLAGS_IF != 0, IfNotMasked);
    errors := Note(errors, f.cr0 & CR0_WP == 0 || f.efer & EFER_NXE == 0, WpNxeMissing);
    errors := Note(errors, f.cr4 & CR4_UNSUPPORTED != 0, Cr4Profile);
    errors := Note(errors, DecValue(f.pmm.total) != DecValue(f.pmm.free) + DecValue(f.pmm.used), PmmAccounting);
    errors := Note(errors, !FrameOk(Addr(f.cr3)), OriginalRootFrame);
  }

  /** The borrowed page-directory-pointer entry: present, supervisor, not huge, a frame, and not the root itself. */
  predicate PdptOk(entry: bv64, control: Fields) {
    && entry & PTE_P != 0 && entry & PTE_U == 0 && entry & PTE_PS == 0 && FrameOk(Addr(entry))
    && (control.ControlFields? ==> Addr(entry) != Addr(control.cr3))
  }

  method CheckBorrowedPdpt(entry: bv64, control: Fields) returns (errors: Errors)
    ensures errors == [] <==> PdptOk(entry, control)
  {
    hide FrameOk, Note;
    errors := [];
    errors := Note(errors, entry & PTE_P == 0, PdptNotPresent);
    errors := Note(errors, entry & PTE_U != 0, PdptNotSupervisor);
    errors := Note(errors, entry & PTE_PS != 0, PdptHuge);
    var addr := Addr(entry);
    if !FrameOk(addr) {
      errors := Note(errors, true, PdptFrame);
    } else {
      errors := Note(errors, control.ControlFields? && addr == Addr(control.cr3), PdptAliasesRoot);
    }
  }

  predicate ConstructOk(f: Fields)
    requires f.ConstructFields?
  {
    f.owned == 26 && f.image == 4 && f.stack == 16 && f.tables == 6 && FrameOk(f.root)
  }

  method CheckConstruct(f: Fields) returns (errors: Errors)
    requires f.ConstructFields?
    ensures errors == [] <==> ConstructOk(f)
  {
    errors := [];
    errors := Note(errors, f.owned != 26 || f.image != 4 || f.stack != 16 || f.tables != 6, PageBudgets);
    errors := Note(errors, f.owned != f.image + f.stack + f.tables, OwnedSum);
    errors := Note(errors, !FrameOk(f.root), PrivateRootFrame);
  }

  predicate WalkOk(f: Fields)
    requires f.WalkFields?
  {
    && f.imagePts == "2" && f.stackPts == "1"
    && f.rx != f.rx1 && f.rx != f.ro && f.rx != f.rw && f.rx1 != f.ro && f.rx1 != f.rw && f.ro != f.rw
    && FrameOk(f.rx) && FrameOk(f.rx1) && FrameOk(f.ro) && FrameOk(f.rw)
  }

  predicate IsLeaf(f: Fields, root: bv64)
    requires f.WalkFields?
  {
    root == f.rx || root == f.rx1 || root == f.ro || root == f.rw
  }

  lemma FourDistinct<T>(a: T, b: T, c: T, d: T)
    ensures |{a, b, c, d}| == 4 <==> a != b && a != c && a != d && b != c && b != d && c != d
  {
  }

  method CheckWalk(f: Fields) returns (errors: Errors)
    requires f.WalkFields?
    ensures errors == [] <==> WalkOk(f)
  {
    hide FrameOk, Note;
    errors := [];
    errors := Note(errors, f.imagePts != "2" || f.stackPts != "1", PtCounts);
    FourDistinct(f.rx, f.rx1, f.ro, f.rw);
    errors := Note(errors, |{f.rx, f.rx1, f.ro, f.rw}| != 4, LeavesNotDistinct);
    var leaves := [f.rx, f.rx1, f.ro, f.rw];
    assert (forall k :: 0 <= k < 4 ==> FrameOk(leaves[k]))
      <==> FrameOk(leaves[0]) && FrameOk(leaves[1]) && FrameOk(leaves[2]) && FrameOk(leaves[3]);
    errors := CheckLeaves(leaves, errors);
  }

  /** At most one error for the leaves, at the first bad one. */
  method CheckLeaves(leaves: seq<bv64>, before: Errors) returns (errors: Errors)
    ensures errors == [] <==> before == [] && forall k :: 0 <= k < |leaves| ==> FrameOk(leaves[k])
  {
    hide FrameOk, Note;
    errors := before;
    for k := 0 to |leaves|
      invariant errors == before && forall j :: 0 <= j < k ==> FrameOk(leaves[j])
    {
      if !FrameOk(leaves[k]) {
        errors := Note(errors, true, LeafFrame);
        break;
      }
    }
  }

  predicate InKernel(rip: bv64) { KERNEL_LO <= rip < KERNEL_HI }

  predicate FaultOk(stage: Stage, f: Fields)
    requires f.FaultFields?
  {
    && f.pfec == FaultCode(stage) && f.cr2 == FaultAddress(stage) && f.gen != 0
    && if stage == FaultNx then f.rip == FaultAddress(FaultNx) else InKernel(f.rip)
  }

  method CheckFault(stage: Stage, f: Fields) returns (errors: Errors)
    requires f.FaultFields?
    ensures errors == [] <==> FaultOk(stage, f)
  {
    hide FaultCode, FaultAddress, Note, InKernel;
    errors := [];
    errors := Note(errors, f.pfec != FaultCode(stage), FaultPfec);
    errors := Note(errors, f.cr2 != FaultAddress(stage), FaultCr2);
    errors := Note(errors, f.gen == 0, FaultGeneration);
    if stage == FaultNx {
      errors := Note(errors, f.rip != FaultAddress(FaultNx), FaultRip);
    } else if !InKernel(f.rip) {
      errors := Note(errors, true, FaultRip);
    }
  }

  // ---------------------------------------------------------------- one cycle

  /** The parsed fields of a stage, or none. */
  function Parsed(m: map<Stage, Fields>, stage: Stage): Fields {
    if stage in m then m[stage] else OtherFields
  }

  /** The fields match the pattern of their stage. */
  predicate Matches(stage: Stage, f: Fields) {
    match stage
    case Control => f.ControlFields?
    case Template => f.TemplateFields?
    case Construct => f.ConstructFields?
    case Walk => f.WalkFields?
    case Switch => f.SwitchFields?
    case Content => f.ContentFields?
    case Restore => f.SwitchFields?
    case Destroy => f.DestroyFields?
    case Unknown(_) => true
    case _ => f.FaultFields?
  }

  /** Present stages match their patterns, and a full run has the five it cannot do without. */
  ghost predicate Shaped(full: bool, m: map<Stage, Fields>) {
    && (full ==> Control in m && Construct in m && Walk in m && Switch in m && Template in m)
    && forall k :: 0 <= k < |STAGES| ==> STAGES[k] in m ==> Matches(STAGES[k], m[STAGES[k]])
  }

  predicate ControlRelated(m: map<Stage, Fields>, cycle: nat, saved: Fields) {
    var c, template, restore, destroy := Parsed(m, Control), Parsed(m, Template), Parsed(m, Restore),
      Parsed(m, Destroy);
    c.ControlFields? ==>
      && ControlOk(c)
      && (template.TemplateFields? ==> template.root == Addr(c.cr3))
      && (cycle != 1 && saved.ControlFields? ==> c.pmm == saved.pmm && c.cr3 == saved.cr3)
      && (restore.SwitchFields? ==> restore.expected == restore.observed == c.cr3)
      && (destroy.DestroyFields? ==> destroy.pmm == c.pmm)
  }

  predicate TemplateRelated(m: map<Stage, Fields>, cycle: nat, saved: Fields) {
    var template := Parsed(m, Template);
    template.TemplateFields? ==>
      && PdptOk(template.pdpt, Parsed(m, Control))
      && (cycle != 1 && saved.TemplateFields? ==>
        template.root == saved.root && Kept(template.pdpt) == Kept(saved.pdpt))
  }

  predicate ConstructRelated(full: bool, m: map<Stage, Fields>) {
    var c, construct, switch := Parsed(m, Control), Parsed(m, Construct), Parsed(m, Switch);
    construct.ConstructFields? ==>
      && ConstructOk(construct)
      && (c.ControlFields? ==> construct.root != Addr(c.cr3))
      && (switch.SwitchFields? ==> switch.expected == construct.root && (full ==> switch.expected == switch.observed))
  }

  predicate WalkRelated(m: map<Stage, Fields>) {
    var walk, construct := Parsed(m, Walk), Parsed(m, Construct);
    walk.WalkFields? ==> WalkOk(walk) && (construct.ConstructFields? ==> !IsLeaf(walk, construct.root))
  }

  ghost predicate FaultsOk(m: map<Stage, Fields>) {
    forall k :: 0 <= k < |FAULTS| ==> Parsed(m, FAULTS[k]).FaultFields? ==> FaultOk(FAULTS[k], m[FAULTS[k]])
  }

  ghost predicate CycleOk(full: bool, cycle: nat, m: map<Stage, Fields>, saved: Baseline) {
    && Shaped(full, m) && ControlRelated(m, cycle, saved.control) && TemplateRelated(m, cycle, saved.template)
    && ConstructRelated(full, m) && WalkRelated(m) && FaultsOk(m)
  }

  /** The generations of the faults reported, in the order of the stages. */
  function GenerationsOf(m: map<Stage, Fields>, n: nat): seq<nat>
    requires n <= |FAULTS|
  {
    if n == 0 then []
    else GenerationsOf(m, n - 1) + if Parsed(m, FAULTS[n - 1]).FaultFields? then [m[FAULTS[n - 1]].gen] else []
  }

  function NextBaseline(cycle: nat, m: map<Stage, Fields>, saved: Baseline): Baseline {
    if cycle != 1 then saved
    else Baseline(if Parsed(m, Control).ControlFields? then m[Control] else saved.control,
                  if Parsed(m, Template).TemplateFields? then m[Template] else saved.template)
  }

  method CheckShape(full: bool, m: map<Stage, Fields>) returns (errors: Errors)
    ensures errors == [] <==> Shaped(full, m)
  {
    hide Matches, Note;
    errors := [];
    var needed := [Control, Construct, Walk, Switch, Template];
    for k := 0 to 5
      invariant errors == [] <==> (full ==> forall j :: 0 <= j < k ==> needed[j] in m)
    {
      errors := Note(errors, full && needed[k] !in m, FieldMismatch(needed[k]));
    }
    assert (forall j :: 0 <= j < 5 ==> needed[j] in m)
      <==> needed[0] in m && needed[1] in m && needed[2] in m && needed[3] in m && needed[4] in m;
    ghost var presence := errors == [];
    for k := 0 to |STAGES|
      invariant errors == [] <==>
        presence && forall j :: 0 <= j < k ==> STAGES[j] in m ==> Matches(STAGES[j], m[STAGES[j]])
    {
      errors := Note(errors, STAGES[k] in m && !Matches(STAGES[k], m[STAGES[k]]), FieldMismatch(STAGES[k]));
    }
  }

  /** The baseline of cycle 1 and the end of the cycle, against its control line. */
  method CheckControlEnds(c: Fields, restore: Fields, destroy: Fields, cycle: nat, saved: Fields)
    returns (errors: Errors)
    requires c.ControlFields?
    ensures errors == [] <==>
      && (cycle != 1 && saved.ControlFields? ==> c.pmm == saved.pmm && c.cr3 == saved.cr3)
      && (restore.SwitchFields? ==> restore.expected == restore.observed == c.cr3)
      && (destroy.DestroyFields? ==> destroy.pmm == c.pmm)
  {
    hide Note;
    errors := [];
    var pmm := c.pmm;
    if cycle != 1 && saved.ControlFields? {
      errors := Note(errors, c.pmm != saved.pmm, BaselinePmm);
      errors := Note(errors, c.cr3 != saved.cr3, BaselineCr3);
      pmm := saved.pmm;
    }
    if restore.SwitchFields? {
      errors := Note(errors, restore.expected != restore.observed, RestoreMismatch);
      errors := Note(errors, restore.expected != c.cr3, RestoreCr3);
    }
    if destroy.DestroyFields? {
      errors := Note(errors, destroy.pmm != c.pmm, DestroyPmm);
      errors := Note(errors, destroy.pmm != pmm, BaselinePmm);
    }
  }

  method CheckControlRelations(m: map<Stage, Fields>, cycle: nat, saved: Fields) returns (errors: Errors)
    ensures errors == [] <==> ControlRelated(m, cycle, saved)
  {
    hide ControlOk, Note, Parsed, Addr;
    errors := [];
    var c, template := Parsed(m, Control), Parsed(m, Template);
    if c.ControlFields? {
      errors := CheckControl(c);
      errors := Note(errors, template.TemplateFields? && template.root != Addr(c.cr3), TemplateRoot);
      var more := CheckControlEnds(c, Parsed(m, Restore), Parsed(m, Destroy), cycle, saved);
      errors := errors + more;
    }
  }

  method CheckTemplateRelations(m: map<Stage, Fields>, cycle: nat, saved: Fields) returns (errors: Errors)
    ensures errors == [] <==> TemplateRelated(m, cycle, saved)
  {
    hide PdptOk, Note, Parsed, Kept;
    errors := [];
    var template := Parsed(m, Template);
    if template.TemplateFields? {
      errors := CheckBorrowedPdpt(template.pdpt, Parsed(m, Control));
      if cycle != 1 && saved.TemplateFields? {
        errors := Note(errors, template.root != saved.root, BaselineTemplate);
        errors := Note(errors, Kept(template.pdpt) != Kept(saved.pdpt), BaselinePdpt);
      }
    }
  }

  method CheckConstructRelations(full: bool, m: map<Stage, Fields>) returns (errors: Errors)
    ensures errors == [] <==> ConstructRelated(full, m)
  {
    hide ConstructOk, Note, Parsed, Addr;
    errors := [];
    var c, construct, switch := Parsed(m, Control), Parsed(m, Construct), Parsed(m, Switch);
    if construct.ConstructFields? {
      errors := CheckConstruct(construct);
      errors := Note(errors, c.ControlFields? && construct.root == Addr(c.cr3), PrivateIsOriginal);
      if switch.SwitchFields? {
        errors := Note(errors, switch.expected != construct.root, SwitchExpected);
        errors := Note(errors, full && switch.expected != switch.observed, SwitchMismatch);
      }
    }
  }

  method CheckWalkRelations(m: map<Stage, Fields>) returns (errors: Errors)
    ensures errors == [] <==> WalkRelated(m)
  {
    hide WalkOk, Note, Parsed, IsLeaf;
    errors := [];
    var walk, construct := Parsed(m, Walk), Parsed(m, Construct);
    if walk.WalkFields? {
      errors := CheckWalk(walk);
      errors := Note(errors, construct.ConstructFields? && IsLeaf(walk, construct.root), LeafIsRoot);
    }
  }

  /** The checks of one pass of the loop over cycles, with the baselines and generations it leaves. */
  method CheckCycle(full: bool, cycle: nat, m: map<Stage, Fields>, saved: Baseline)
    returns (errors: Errors, saved': Baseline, generations: seq<nat>)
    ensures errors == [] <==> CycleOk(full, cycle, m, saved)
    ensures saved' == NextBaseline(cycle, m, saved)
    ensures generations == GenerationsOf(m, |FAULTS|)
  {
    hide Shaped, ControlRelated, TemplateRelated, ConstructRelated, WalkRelated, FaultsOk, NextBaseline;
    var shape := CheckShape(full, m);
    var control := CheckControlRelations(m, cycle, saved.control);
    var template := CheckTemplateRelations(m, cycle, saved.template);
    var construct := CheckConstructRelations(full, m);
    var walk := CheckWalkRelations(m);
    var faults;
    faults, generations := CheckFaults(m);
    errors := shape + control + template + construct + walk + faults;
    saved' := NextBaseline(cycle, m, saved);
  }

  method CheckFaults(m: map<Stage, Fields>) returns (errors: Errors, generations: seq<nat>)
    ensures errors == [] <==> FaultsOk(m)
    ensures generations == GenerationsOf(m, |FAULTS|)
  {
    hide FaultOk, Note;
    errors, generations := [], [];
    for k := 0 to |FAULTS|
      invariant errors == [] <==>
        forall j :: 0 <= j < k ==> Parsed(m, FAULTS[j]).FaultFields? ==> FaultOk(FAULTS[j], m[FAULTS[j]])
      invariant generations == GenerationsOf(m, k)
    {
      var stage := FAULTS[k];
      var f := Parsed(m, stage);
      if f.FaultFields? {
        var more := CheckFault(stage, f);
        errors := errors + more;
        generations := generations + [f.gen];
      }
    }
  }

  // ---------------------------------------------------------------- all cycles

  ghost predicate AreCycles(cycles: seq<Hit>) {
    forall k :: 0 <= k < |cycles| ==> cycles[k].line.VmCycle? && Classified(cycles[k].line)
  }

  ghost predicate AreFixtures(fixtures: seq<Hit>) {
    forall k :: 0 <= k < |fixtures| ==> fixtures[k].line.VmFixture? && Classified(fixtures[k].line)
  }

  /** The fields recorded for each stage of a cycle, the last line winning. */
  function ByCycle(cycles: seq<Hit>, cycle: nat): map<Stage, Fields>
    requires forall k :: 0 <= k < |cycles| ==> cycles[k].line.VmCycle?
  {
    if cycles == [] then map[]
    else
      var before, last := ByCycle(cycles[..|cycles| - 1], cycle), cycles[|cycles| - 1].line;
      if last.cycle == cycle then before[last.stage := last.fields] else before
  }

  function StagesOf(cycles: seq<Hit>, cycle: nat): seq<Stage>
    requires forall k :: 0 <= k < |cycles| ==> cycles[k].line.VmCycle?
  {
    if cycles == [] then []
    else
      var before, last := StagesOf(cycles[..|cycles| - 1], cycle), cycles[|cycles| - 1].line;
      if last.cycle == cycle then before + [last.stage] else before
  }

  predicate SameStage(a: Line, b: Line)
    requires a.VmCycle? && b.VmCycle?
  {
    a.cycle == b.cycle && a.stage == b.stage
  }

  ghost predicate NoDuplicates(cycles: seq<Hit>)
    requires AreCycles(cycles)
  {
    forall j, k :: 0 <= j < k < |cycles| ==> !SameStage(cycles[j].line, cycles[k].line)
  }

  lemma {:induction false} ByCycleKeys(cycles: seq<Hit>, cycle: nat, stage: Stage)
    requires AreCycles(cycles)
    ensures stage in ByCycle(cycles, cycle)
      <==> exists j :: 0 <= j < |cycles| && cycles[j].line.cycle == cycle && cycles[j].line.stage == stage
  {
    if cycles != [] {
      var n := |cycles| - 1;
      ByCycleKeys(cycles[..n], cycle, stage);
      assert forall j :: 0 <= j < n ==> cycles[..n][j] == cycles[j];
    }
  }

  predicate FixtureOk(line: Line)
    requires line.VmFixture?
  {
    line.length == FIXTURE_LEN && line.digest == Digest(line.cycle)
  }

  ghost predicate FixturesOk(full: bool, fixtures: seq<Hit>)
    requires AreFixtures(fixtures)
  {
    && (if full then |fixtures| == 2 && fixtures[0].line.cycle == 1 && fixtures[1].line.cycle == 2
        else fixtures != [] ==> fixtures[0].line.cycle == 1)
    && forall k :: 0 <= k < |fixtures| ==> FixtureOk(fixtures[k].line)
  }

  ghost predicate Increasing(generations: seq<nat>) {
    forall i :: 1 <= i < |generations| ==> generations[i - 1] < generations[i]
  }

  ghost predicate CyclesOk(full: bool, cycles: seq<Hit>)
    requires AreCycles(cycles)
  {
    var first, second := ByCycle(cycles, 1), ByCycle(cycles, 2);
    var n := |FAULTS|;
    if full then
      && StagesOf(cycles, 1) == STAGES && StagesOf(cycles, 2) == STAGES
      && CycleOk(true, 1, first, NO_BASELINE) && CycleOk(true, 2, second, NextBaseline(1, first, NO_BASELINE))
      && Increasing(GenerationsOf(first, n) + GenerationsOf(second, n))
    else CycleOk(false, 1, first, NO_BASELINE) && Increasing(GenerationsOf(first, n))
  }

  ghost predicate SemanticsOk(full: bool, fixtures: seq<Hit>, cycles: seq<Hit>)
    requires AreFixtures(fixtures) && AreCycles(cycles)
  {
    NoDuplicates(cycles) && FixturesOk(full, fixtures) && CyclesOk(full, cycles)
  }

  lemma DuplicatesGrow(cycles: seq<Hit>, k: nat)
    requires AreCycles(cycles) && k < |cycles|
    ensures NoDuplicates(cycles[..k + 1])
      <==> NoDuplicates(cycles[..k]) && cycles[k].line.stage !in ByCycle(cycles[..k], cycles[k].line.cycle)
  {
    var shorter, longer := cycles[..k], cycles[..k + 1];
    ByCycleKeys(shorter, cycles[k].line.cycle, cycles[k].line.stage);
    assert forall j :: 0 <= j < k ==> shorter[j] == longer[j] == cycles[j];
    assert longer[k] == cycles[k];
  }

  lemma NothingDuplicated()
    ensures NoDuplicates([])
  {
  }

  method GroupByCycle(cycles: seq<Hit>)
    returns (errors: Errors, byCycle: map<nat, map<Stage, Fields>>, seen: map<nat, seq<Stage>>)
    requires AreCycles(cycles)
    ensures errors == [] <==> NoDuplicates(cycles)
    ensures byCycle == map[1 := ByCycle(cycles, 1), 2 := ByCycle(cycles, 2)]
    ensures seen == map[1 := StagesOf(cycles, 1), 2 := StagesOf(cycles, 2)]
  {
    hide Note, NoDuplicates;
    NothingDuplicated();
    errors, byCycle, seen := [], map[1 := map[], 2 := map[]], map[1 := [], 2 := []];
    for k := 0 to |cycles|
      invariant errors == [] <==> NoDuplicates(cycles[..k])
      invariant byCycle == map[1 := ByCycle(cycles[..k], 1), 2 := ByCycle(cycles[..k], 2)]
      invariant seen == map[1 := StagesOf(cycles[..k], 1), 2 := StagesOf(cycles[..k], 2)]
    {
      var line := cycles[k].line;
      DuplicatesGrow(cycles, k);
      assert cycles[..k + 1][..k] == cycles[..k];
      errors := Note(errors, line.stage in byCycle[line.cycle], DuplicateStage(line.stage));
      byCycle := byCycle[line.cycle := byCycle[line.cycle][line.stage := line.fields]];
      seen := seen[line.cycle := seen[line.cycle] + [line.stage]];
    }
    assert cycles[..|cycles|] == cycles;
  }

  method CheckFixtures(full: bool, fixtures: seq<Hit>) returns (errors: Errors)
    requires AreFixtures(fixtures)
    ensures errors == [] <==> FixturesOk(full, fixtures)
  {
    hide Note, FixtureOk;
    errors := [];
    if full {
      errors := Note(errors, !(|fixtures| == 2 && fixtures[0].line.cycle == 1 && fixtures[1].line.cycle == 2),
        FixtureOrder);
    } else {
      errors := Note(errors, fixtures != [] && fixtures[0].line.cycle != 1, FixtureOrder);
    }
    ghost var before := errors == [];
    for k := 0 to |fixtures|
      invariant errors == [] <==> before && forall j :: 0 <= j < k ==> FixtureOk(fixtures[j].line)
    {
      var more := CheckFixture(fixtures[k].line);
      errors := errors + more;
    }
  }

  method CheckFixture(line: Line) returns (errors: Errors)
    requires line.VmFixture?
    ensures errors == [] <==> FixtureOk(line)
  {
    hide Note, Digest;
    errors := [];
    errors := Note(errors, line.length != FIXTURE_LEN, FixtureLength);
    errors := Note(errors, line.digest != Digest(line.cycle), FixtureDigest);
  }

  method CheckGenerations(generations: seq<nat>) returns (errors: Errors)
    ensures errors == [] <==> Increasing(generations)
  {
    errors := [];
    var i := 1;
    while i < |generations|
      invariant 1 <= i && errors == []
        && forall k :: 1 <= k < i && k < |generations| ==> generations[k - 1] < generations[k]
    {
      if generations[i] <= generations[i - 1] {
        return [Generations];
      }
      i := i + 1;
    }
  }

  method CheckCycleSemantics(full: bool, fixtures: seq<Hit>, cycles: seq<Hit>) returns (errors: Errors)
    requires AreFixtures(fixtures) && AreCycles(cycles)
    ensures errors == [] <==> SemanticsOk(full, fixtures, cycles)
  {
    hide Note, CycleOk, FixturesOk, NoDuplicates, Increasing, NextBaseline, GenerationsOf, AreCycles, AreFixtures,
      ByCycle, StagesOf;
    var byCycle, seen, more;
    errors, byCycle, seen := GroupByCycle(cycles);
    var fixtureErrors := CheckFixtures(full, fixtures);
    errors := errors + fixtureErrors;
    var generations: seq<nat> := [];
    var saved := NO_BASELINE;
    if full && seen[1] != STAGES {
      errors := Note(errors, true, StagesIncomplete(1));
    } else {
      more, saved, generations := CheckCycle(full, 1, byCycle[1], saved);
      errors := errors + more;
    }
    if full {
      if seen[2] != STAGES {
        errors := Note(errors, true, StagesIncomplete(2));
      } else {
        var later: seq<nat>;
        more, saved, later := CheckCycle(full, 2, byCycle[2], saved);
        errors := errors + more;
        generations := generations + later;
      }
    }
    more := CheckGenerations(generations);
    errors := errors + more;
  }

  // ---------------------------------------------------------------- order of the evidence

  predicate AllBetween(hits: seq<Hit>, low: int, high: int) {
    forall k :: 0 <= k < |hits| ==> low < hits[k].number < high
  }

  /** What the order check compares of a fixture or cycle line. */
  datatype Kind = FixtureKind(cycle: nat) | StageKind(cycle: nat, stage: Stage)

  function KindOf(line: Line): Kind
    requires line.VmFixture? || line.VmCycle?
  {
    if line.VmFixture? then FixtureKind(line.cycle) else StageKind(line.cycle, line.stage)
  }

  ghost predicate AreEvidence(hits: seq<Hit>) {
    forall k :: 0 <= k < |hits| ==> hits[k].line.VmFixture? || hits[k].line.VmCycle?
  }

  ghost predicate Sorted(hits: seq<Hit>) {
    forall j, k :: 0 <= j < k < |hits| ==> hits[j].number < hits[k].number
  }

  function Kinds(hits: seq<Hit>): (kinds: seq<Kind>)
    requires forall k :: 0 <= k < |hits| ==> hits[k].line.VmFixture? || hits[k].line.VmCycle?
    ensures |kinds| == |hits|
    ensures forall k :: 0 <= k < |hits| ==> kinds[k] == KindOf(hits[k].line)
  {
    seq(|hits|, k requires 0 <= k < |hits| => KindOf(hits[k].line))
  }

  function CycleKinds(cycle: nat): (kinds: seq<Kind>)
    ensures |kinds| == 14 && kinds[0] == FixtureKind(cycle)
    ensures forall k :: 0 <= k < 13 ==> kinds[k + 1] == StageKind(cycle, STAGES[k])
  {
    [FixtureKind(cycle)] + seq(13, k requires 0 <= k < 13 => StageKind(cycle, STAGES[k]))
  }

  ghost predicate SameElements(a: seq<Hit>, b: seq<Hit>) {
    forall h :: h in a <==> h in b
  }

  lemma LastsAgree(a: seq<Hit>, b: seq<Hit>)
    requires Sorted(a) && Sorted(b) && SameElements(a, b)
    ensures a == [] <==> b == []
    ensures a != [] ==> a[|a| - 1] == b[|b| - 1]
  {
    assert forall k :: 0 <= k < |a| ==> a[k] in b;
    assert forall k :: 0 <= k < |b| ==> b[k] in a;
    assert b != [] ==> b[0] in a;
    if a != [] {
      var x, y := a[|a| - 1], b[|b| - 1];
      var i :| 0 <= i < |a| && a[i] == y;
      var j :| 0 <= j < |b| && b[j] == x;
      assert y.number <= x.number <= y.number;
      assert i == |a| - 1;
    }
  }

  lemma FrontsAgree(a: seq<Hit>, b: seq<Hit>)
    requires Sorted(a) && a != [] && b != [] && SameElements(a, b) && a[|a| - 1] == b[|b| - 1]
    ensures forall k :: 0 <= k < |a| - 1 ==> a[k] in b[..|b| - 1]
  {
    var m, n := |a| - 1, |b| - 1;
    forall k | 0 <= k < m ensures a[k] in b[..n] {
      assert a[k] in b && a[k] != b[n];
      assert b == b[..n] + [b[n]];
    }
  }

  /** Two sorted lists of hits with the same elements are the same list. */
  lemma {:induction false} SortedUnique(a: seq<Hit>, b: seq<Hit>)
    requires Sorted(a) && Sorted(b) && SameElements(a, b)
    ensures a == b
  {
    LastsAgree(a, b);
    if a != [] {
      FrontsAgree(a, b);
      FrontsAgree(b, a);
      SortedUnique(a[..|a| - 1], b[..|b| - 1]);
      assert a == a[..|a| - 1] + [a[|a| - 1]] && b == b[..|b| - 1] + [b[|b| - 1]];
    }
  }

  lemma {:induction false} HitsAre(lines: seq<Line>, p: Line -> bool)
    ensures Sorted(Hits(lines, p))
    ensures forall h :: h in Hits(lines, p) <==> 1 <= h.number <= |lines| && h.line == lines[h.number - 1] && p(h.line)
  {
    if lines != [] {
      var n := |lines| - 1;
      HitsAre(lines[..n], p);
      var before := Hits(lines[..n], p);
      forall j | 0 <= j < |before| ensures before[j].number <= n { assert before[j] in before; }
      forall h ensures h in Hits(lines, p) <==> 1 <= h.number <= |lines| && h.line == lines[h.number - 1] && p(h.line) {
        assert h in Hits(lines, p) <==> h in before || (p(lines[n]) && h == Hit(|lines|, lines[n]));
        if 1 <= h.number <= n { assert lines[..n][h.number - 1] == lines[h.number - 1]; }
      }
    }
  }

  /** Sorts hits by their line numbers. */
  method SortByNumber(hits: seq<Hit>) returns (sorted: seq<Hit>)
    requires forall i, j :: 0 <= i < j < |hits| ==> hits[i].number != hits[j].number
    ensures Sorted(sorted) && forall h :: h in sorted <==> h in hits
  {
    sorted := [];
    for n := 0 to |hits|
      invariant Sorted(sorted) && forall h :: h in sorted <==> h in hits[..n]
    {
      var hit := hits[n];
      var i := |sorted|;
      while i > 0 && sorted[i - 1].number > hit.number
        invariant 0 <= i <= |sorted| && forall k :: i <= k < |sorted| ==> sorted[k].number > hit.number
      {
        i := i - 1;
      }
      if i > 0 { NumbersDiffer(hits, n, sorted[i - 1]); }
      assert hits[..n + 1] == hits[..n] + [hit];
      sorted := sorted[..i] + [hit] + sorted[i..];
    }
    assert hits[..|hits|] == hits;
  }

  lemma NumbersDiffer(hits: seq<Hit>, n: nat, earlier: Hit)
    requires forall i, j :: 0 <= i < j < |hits| ==> hits[i].number != hits[j].number
    requires n < |hits| && earlier in hits[..n]
    ensures earlier.number != hits[n].number
  {
    var k :| 0 <= k < n && hits[..n][k] == earlier;
    assert hits[k] == earlier;
  }
}
