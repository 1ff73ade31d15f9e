/** The parse itself: one pass collecting numbered lines, then the checks of the expected mode. */
module VmParser {
  import opened Transcript
  import opened TranscriptVm

  // ---------------------------------------------------------------- positive order

  ghost predicate Evidence(fixtures: seq<Hit>, cycles: seq<Hit>, kinds: seq<Kind>) {
    exists merged :: Sorted(merged) && SameElements(merged, fixtures + cycles) && AreEvidence(merged)
      && Kinds(merged) == kinds
  }

  /** The order of the milestones: the last N6 line, then the first line of each other kind. */
  ghost predicate Milestones(
    starts: seq<Hit>, completes: seq<Hit>, n6: seq<Hit>, timer: seq<Hit>, done: seq<Hit>, exits: seq<Hit>) {
    && starts != [] && completes != [] && n6 != [] && timer != [] && done != [] && exits != []
    && n6[|n6| - 1].number < starts[0].number < completes[0].number < timer[0].number < done[0].number < exits[0].number
  }

  ghost predicate PositiveOrder(
    starts: seq<Hit>, fixtures: seq<Hit>, cycles: seq<Hit>, completes: seq<Hit>, n6: seq<Hit>, timer: seq<Hit>,
    done: seq<Hit>, exits: seq<Hit>)
  {
    && Milestones(starts, completes, n6, timer, done, exits)
    && AllBetween(fixtures, starts[0].number, completes[0].number)
    && AllBetween(cycles, starts[0].number, completes[0].number)
    && Evidence(fixtures, cycles, CycleKinds(1) + CycleKinds(2))
  }

  /** The lines of a transcript these hits were taken from. */
  ghost predicate From(lines: seq<Line>, hits: seq<Hit>) {
    && Sorted(hits)
    && forall k :: 0 <= k < |hits| ==> 1 <= hits[k].number <= |lines| && hits[k].line == lines[hits[k].number - 1]
  }

  ghost predicate Unrepeated(hits: seq<Hit>) {
    forall i, j :: 0 <= i < j < |hits| ==> hits[i].number != hits[j].number
  }

  /** Lists of lines of different kinds have no line number in common. */
  lemma AppendDiffers(lines: seq<Line>, a: seq<Hit>, b: seq<Hit>)
    requires Unrepeated(a) && Unrepeated(b)
    requires forall k :: 0 <= k < |a| ==> 1 <= a[k].number <= |lines| && a[k].line == lines[a[k].number - 1]
    requires forall k :: 0 <= k < |b| ==> 1 <= b[k].number <= |lines| && b[k].line == lines[b[k].number - 1]
    requires forall i, j :: 0 <= i < |a| && 0 <= j < |b| ==> a[i].line != b[j].line
    ensures Unrepeated(a + b)
    ensures forall k :: 0 <= k < |a + b| ==>
      1 <= (a + b)[k].number <= |lines| && (a + b)[k].line == lines[(a + b)[k].number - 1]
  {
  }

  method CheckWindow(hits: seq<Hit>, low: nat, high: nat) returns (inside: bool)
    ensures inside <==> AllBetween(hits, low, high)
  {
    for k := 0 to |hits|
      invariant forall j :: 0 <= j < k ==> low < hits[j].number < high
    {
      if hits[k].number <= low || hits[k].number >= high { return false; }
    }
    inside := true;
  }

  method CheckMilestones(
    starts: seq<Hit>, completes: seq<Hit>, n6: seq<Hit>, timer: seq<Hit>, done: seq<Hit>, exits: seq<Hit>)
    returns (errors: Errors)
    requires starts != [] && completes != [] && n6 != [] && timer != [] && done != [] && exits != []
    ensures errors == [] <==> Milestones(starts, completes, n6, timer, done, exits)
  {
    hide Note;
    errors := [];
    errors := Note(errors, starts[0].number <= n6[|n6| - 1].number, StartBeforeN6);
    errors := Note(errors, completes[0].number <= starts[0].number, CompleteBeforeStart);
    errors := Note(errors, timer[0].number <= completes[0].number, TimerBeforeComplete);
    errors := Note(errors, done[0].number <= timer[0].number, DoneBeforeTimer);
    errors := Note(errors, exits[0].number <= done[0].number, ExitBeforeDone);
  }

  method CheckEvidence(lines: seq<Line>, fixtures: seq<Hit>, cycles: seq<Hit>, want: seq<Kind>) returns (matches: bool)
    requires AreFixtures(fixtures) && AreCycles(cycles) && From(lines, fixtures) && From(lines, cycles)
    ensures matches <==> Evidence(fixtures, cycles, want)
  {
    AppendDiffers(lines, fixtures, cycles);
    var merged := SortByNumber(fixtures + cycles);
    EvidenceMerged(fixtures, cycles, merged);
    matches := Kinds(merged) == want;
    forall other | Sorted(other) && SameElements(other, fixtures + cycles) && AreEvidence(other)
      ensures other == merged
    {
      SortedUnique(other, merged);
    }
  }

  lemma EvidenceMerged(fixtures: seq<Hit>, cycles: seq<Hit>, merged: seq<Hit>)
    requires AreFixtures(fixtures) && AreCycles(cycles) && forall h :: h in merged <==> h in fixtures + cycles
    ensures AreEvidence(merged)
  {
    forall k | 0 <= k < |merged| ensures merged[k].line.VmFixture? || merged[k].line.VmCycle? {
      assert merged[k] in fixtures + cycles;
    }
  }

  method CheckPositiveOrder(
    lines: seq<Line>, starts: seq<Hit>, fixtures: seq<Hit>, cycles: seq<Hit>, completes: seq<Hit>, n6: seq<Hit>,
    timer: seq<Hit>, done: seq<Hit>, exits: seq<Hit>)
    returns (errors: Errors)
    requires AreFixtures(fixtures) && AreCycles(cycles) && From(lines, fixtures) && From(lines, cycles)
    ensures errors == [] <==> PositiveOrder(starts, fixtures, cycles, completes, n6, timer, done, exits)
  {
    hide Note, Evidence, AllBetween, AreFixtures, AreCycles, From, Milestones, CycleKinds;
    if starts == [] || completes == [] || n6 == [] || timer == [] || done == [] || exits == [] {
      MilestonesExist(starts, completes, n6, timer, done, exits);
      return [OrderMissing];
    }
    errors := CheckMilestones(starts, completes, n6, timer, done, exits);
    var inside := CheckWindow(fixtures, starts[0].number, completes[0].number);
    errors := Note(errors, !inside, FixtureWindow);
    inside := CheckWindow(cycles, starts[0].number, completes[0].number);
    errors := Note(errors, !inside, CycleWindow);
    var matches := CheckEvidence(lines, fixtures, cycles, CycleKinds(1) + CycleKinds(2));
    errors := Note(errors, !matches, StageOrder);
  }

  lemma MilestonesExist(
    starts: seq<Hit>, completes: seq<Hit>, n6: seq<Hit>, timer: seq<Hit>, done: seq<Hit>, exits: seq<Hit>)
    ensures Milestones(starts, completes, n6, timer, done, exits) ==>
      starts != [] && completes != [] && n6 != [] && timer != [] && done != [] && exits != []
  {
  }

  ghost predicate NotAfter(hits: seq<Hit>, limit: nat) {
    forall k :: 0 <= k < |hits| ==> hits[k].number <= limit
  }

  method CheckNotAfter(hits: seq<Hit>, limit: nat) returns (ok: bool)
    ensures ok <==> NotAfter(hits, limit)
  {
    for k := 0 to |hits|
      invariant forall j :: 0 <= j < k ==> hits[j].number <= limit
    {
      if hits[k].number > limit { return false; }
    }
    ok := true;
  }

  ghost predicate NoVmAfterTerminal(vm: seq<Hit>, completes: seq<Hit>, exits: seq<Hit>) {
    && (completes != [] ==> NotAfter(vm, completes[0].number))
    && (exits != [] ==> NotAfter(vm, exits[0].number))
  }

  method RejectVmAfterTerminal(vm: seq<Hit>, completes: seq<Hit>, exits: seq<Hit>) returns (errors: Errors)
    ensures errors == [] <==> NoVmAfterTerminal(vm, completes, exits)
  {
    if completes == [] && exits == [] { return []; }
    var limit := if completes == [] then exits[0].number
      else if exits == [] then completes[0].number
      else if completes[0].number < exits[0].number then completes[0].number else exits[0].number;
    var ok := CheckNotAfter(vm, limit);
    errors := if ok then [] else [VmAfterTerminal];
  }

  // ---------------------------------------------------------------- negative prefix

  predicate IsN6(line: Line) { line.Marker? && line.index < TIMER }

  ghost predicate ReadsN6(events: seq<Line>, retries: nat) {
    ReadsBoot(events, retries, TIMER + retries)
  }

  /** The first sixteen markers in order, extra map-frozen lines only right after the first. */
  ghost predicate N6Language(lines: seq<Line>) {
    exists retries: nat :: ReadsN6(Filter(lines, IsN6), retries)
  }

  ghost predicate N6Clean(lines: seq<Line>, cursor: nat) {
    cursor <= TIMER && exists retries: nat :: ReadsPrefix(Filter(lines, IsN6), cursor, false, retries)
  }

  predicate N6Accepts(line: Line, cursor: nat) {
    IsN6(line) ==> line.index == cursor || (line.index == MAP_FROZEN && cursor == EBS_OK)
  }

  lemma N6Step(lines: seq<Line>, line: Line, cursor: nat)
    requires N6Clean(lines, cursor) && N6Accepts(line, cursor)
    ensures N6Clean(lines + [line], if IsN6(line) then NextCursor(line, cursor) else cursor)
  {
    FilterAppend(lines, line, IsN6);
    var events := Filter(lines, IsN6);
    var retries: nat :| ReadsPrefix(events, cursor, false, retries);
    if IsN6(line) {
      MarkerStep(events, line, cursor, retries);
    } else {
      assert events + [] == events;
      assert ReadsPrefix(events, cursor, false, retries);
    }
  }

  lemma N6NothingElse(events: seq<Line>, line: Line, cursor: nat, whole: seq<Line>, total: nat)
    requires cursor <= TIMER && exists retries: nat :: ReadsPrefix(events, cursor, false, retries)
    requires ReadsN6(whole, total) && events + [line] <= whole
    ensures N6Accepts(line, cursor)
  {
    var retries: nat :| ReadsPrefix(events, cursor, false, retries);
    assert events <= events + [line] && whole[..TIMER + total] == whole;
    assert whole[|events|] == (events + [line])[|events|] == line;
    RetriesAgree(events, cursor, false, retries, whole, TIMER + total, total);
  }

  lemma N6Rejected(lines: seq<Line>, i: nat, cursor: nat)
    requires i < |lines| && N6Clean(lines[..i], cursor) && !N6Accepts(lines[i], cursor)
    ensures !N6Language(lines)
  {
    if N6Language(lines) {
      var total: nat :| ReadsN6(Filter(lines, IsN6), total);
      FilterPrefix(lines, i + 1, IsN6);
      assert lines[..i + 1] == lines[..i] + [lines[i]];
      FilterAppend(lines[..i], lines[i], IsN6);
      N6NothingElse(Filter(lines[..i], IsN6), lines[i], cursor, Filter(lines, IsN6), total);
    }
  }

  lemma N6End(lines: seq<Line>, cursor: nat)
    requires N6Clean(lines, cursor)
    ensures N6Language(lines) <==> cursor == TIMER
  {
    var events := Filter(lines, IsN6);
    var retries: nat :| ReadsPrefix(events, cursor, false, retries);
    assert events[..cursor + retries] == events;
    forall total: nat | ReadsN6(events, total)
      ensures cursor == TIMER
    {
      assert events[..TIMER + total] == events;
      RetriesAgree(events, cursor, false, retries, events, TIMER + total, total);
    }
    if cursor == TIMER { assert ReadsN6(events, retries); }
  }

  lemma N6Start()
    ensures N6Clean([], 0)
  {
    assert ReadsPrefix(Filter([], IsN6), 0, false, 0);
  }

  method CheckN6Prefix(lines: seq<Line>, starts: seq<Hit>) returns (errors: Errors)
    requires starts != [] ==> 1 <= starts[0].number <= |lines|
    ensures errors == [] <==> (starts != [] ==> N6Language(lines[..starts[0].number - 1]))
  {
    hide N6Clean, N6Language, Note;
    errors := [];
    if starts == [] { return; }
    var startLine := starts[0].number;
    ghost var prefix := lines[..startLine - 1];
    var cursor, lastN6, i := 0, 0, 0;
    N6Start();
    while i < |lines| && i + 1 < startLine
      invariant 0 <= i <= startLine - 1 && lastN6 <= i && cursor <= TIMER
      invariant errors == [] ==> N6Clean(lines[..i], cursor)
      invariant errors != [] ==> !N6Language(prefix)
    {
      var line, number := lines[i], i + 1;
      assert lines[..i + 1] == lines[..i] + [line] && prefix[..i] == lines[..i] && prefix[i] == line;
      if errors == [] {
        if N6Accepts(line, cursor) { N6Step(lines[..i], line, cursor); } else { N6Rejected(prefix, i, cursor); }
      }
      if IsN6(line) {
        var retryMap := line.index == MAP_FROZEN && cursor == line.index + 1;
        if line.index == cursor {
          cursor := cursor + 1;
          lastN6 := number;
        } else if !retryMap {
          errors := errors + [N6OutOfOrder(number)];
        }
      }
      i := i + 1;
    }
    assert lines[..i] == prefix;
    if errors == [] { N6End(prefix, cursor); }
    if cursor != TIMER {
      errors := errors + [N6Incomplete];
    } else if lastN6 != 0 && lastN6 >= startLine {
      errors := errors + [StartBeforeN6];
    }
  }

  // ---------------------------------------------------------------- negative sequence

  function Required(mode: Mode): seq<Stage> {
    if mode == SkipSwitch then [Control, Template, Construct, Walk, Switch]
    else [Control, Template, Construct, Walk, Switch, Content]
  }

  function FailStageOf(mode: Mode): Stage { if mode == SkipSwitch then Switch else FaultRo }

  function FailReasonOf(mode: Mode): Reason { if mode == SkipSwitch then Cr3Readback else ExpectedPf }

  /** The stage a failing run must not reach. */
  function Beyond(mode: Mode): Stage { if mode == SkipSwitch then Content else FaultRo }

  lemma BeyondIsNotRequired(mode: Mode)
    ensures Beyond(mode) !in Required(mode)
  {
  }

  /** What the negative order check compares of a line. */
  datatype Event =
    | StartEvent | FixtureEvent(cycle: nat) | StageEvent(cycle: nat, stage: Stage) | FailEvent(cycle: nat) | ExitEvent

  predicate IsEvent(line: Line) {
    line.VmStart? || line.VmFixture? || line.VmCycle? || line.VmFail? || line.Exit?
  }

  function EventOf(line: Line): Event
    requires IsEvent(line)
  {
    match line
    case VmStart(_) => StartEvent
    case VmFixture(cycle, _, _) => FixtureEvent(cycle)
    case VmCycle(cycle, stage, _) => StageEvent(cycle, stage)
    case VmFail(cycle, _, _) => FailEvent(cycle)
    case Exit(_) => ExitEvent
  }

  ghost predicate AreEvents(hits: seq<Hit>) {
    forall k :: 0 <= k < |hits| ==> IsEvent(hits[k].line)
  }

  function Events(hits: seq<Hit>): (events: seq<Event>)
    requires forall k :: 0 <= k < |hits| ==> IsEvent(hits[k].line)
    ensures |events| == |hits| && forall k :: 0 <= k < |hits| ==> events[k] == EventOf(hits[k].line)
  {
    seq(|hits|, k requires 0 <= k < |hits| => EventOf(hits[k].line))
  }

  function Wanted(mode: Mode, fails: bool, exits: bool): seq<Event> {
    [StartEvent, FixtureEvent(1)]
    + seq(|Required(mode)|, k requires 0 <= k < |Required(mode)| => StageEvent(1, Required(mode)[k]))
    + (if fails then [FailEvent(1)] else []) + (if exits then [ExitEvent] else [])
  }

  ghost predicate EventsInOrder(hits: seq<Hit>, want: seq<Event>) {
    exists merged :: Sorted(merged) && SameElements(merged, hits) && AreEvents(merged) && Events(merged) == want
  }

  /** The fields of each line of a stage of cycle 1, in order. */
  function FieldsWhere(cycles: seq<Hit>, stage: Stage): seq<Fields>
    requires forall k :: 0 <= k < |cycles| ==> cycles[k].line.VmCycle?
  {
    if cycles == [] then []
    else
      var before, last := FieldsWhere(cycles[..|cycles| - 1], stage), cycles[|cycles| - 1].line;
      if last.cycle == 1 && last.stage == stage then before + [last.fields] else before
  }

  method FieldsOf(cycles: seq<Hit>, stage: Stage) returns (fields: seq<Fields>)
    requires AreCycles(cycles)
    ensures fields == FieldsWhere(cycles, stage)
  {
    fields := [];
    for k := 0 to |cycles|
      invariant fields == FieldsWhere(cycles[..k], stage)
    {
      assert cycles[..k + 1][..k] == cycles[..k];
      var line := cycles[k].line;
      if line.cycle == 1 && line.stage == stage { fields := fields + [line.fields]; }
    }
    assert cycles[..|cycles|] == cycles;
  }

  /** The readback shows that the switch was skipped: still the saved original root, not the private one. */
  ghost predicate SkipObserved(control: seq<Fields>, switch: seq<Fields>) {
    && switch != [] && switch[0].SwitchFields? && switch[0].expected != switch[0].observed
    && FrameOk(switch[0].observed)
    && control != [] && control[0].ControlFields? && switch[0].observed == Addr(control[0].cr3)
  }

  method CheckSkipSwitchObserved(cycles: seq<Hit>) returns (errors: Errors)
    requires AreCycles(cycles)
    ensures errors == [] <==> SkipObserved(FieldsWhere(cycles, Control), FieldsWhere(cycles, Switch))
  {
    hide FrameOk, Addr, FieldsWhere;
    errors := [];
    var control := FieldsOf(cycles, Control);
    var switch := FieldsOf(cycles, Switch);
    if switch == [] { return [SwitchMissing]; }
    var parsed := switch[0];
    if !parsed.SwitchFields? { return [FieldMismatch(Switch)]; }
    var expected, observed := parsed.expected, parsed.observed;
    if expected == observed { errors := errors + [ObservedMatches]; }
    if !FrameOk(observed) { return errors + [ObservedFrame]; }
    if control == [] { return errors + [ControlMissing]; }
    if !control[0].ControlFields? { return errors + [FieldMismatch(Control)]; }
    if observed != Addr(control[0].cr3) { errors := errors + [ObservedNotSaved]; }
    if observed == expected { errors := errors + [ObservedMatches]; }
  }

  ghost predicate ReadbackMatches(switch: seq<Fields>) {
    switch != [] && switch[0].SwitchFields? && switch[0].expected == switch[0].observed
  }

  ghost predicate OnlyCycleOne(hits: seq<Hit>)
    requires forall k :: 0 <= k < |hits| ==> hits[k].line.VmFixture? || hits[k].line.VmCycle?
  {
    forall k :: 0 <= k < |hits| ==> hits[k].line.cycle == 1
  }

  function First(hits: seq<Hit>): (first: seq<Hit>)
    ensures forall k :: 0 <= k < |first| ==> first[k] in hits
  {
    if hits == [] then [] else [hits[0]]
  }

  /** The line of the last stage of cycle 1, or zero. */
  function LastStage(cycles: seq<Hit>): nat
    requires forall k :: 0 <= k < |cycles| ==> cycles[k].line.VmCycle?
  {
    if cycles == [] then 0
    else if cycles[|cycles| - 1].line.cycle == 1 then cycles[|cycles| - 1].number
    else LastStage(cycles[..|cycles| - 1])
  }

  ghost predicate SequenceOk(
    mode: Mode, starts: seq<Hit>, fixtures: seq<Hit>, cycles: seq<Hit>, fails: seq<Hit>, exits: seq<Hit>, vm: seq<Hit>)
    requires AreFixtures(fixtures) && AreCycles(cycles) && starts != []
  {
    && OnlyCycleOne(fixtures) && OnlyCycleOne(cycles) && |fixtures| == 1 && fixtures[0].number > starts[0].number
    && StagesOf(cycles, 1) == Required(mode)
    && (if mode == SkipSwitch then SkipObserved(FieldsWhere(cycles, Control), FieldsWhere(cycles, Switch))
        else ReadbackMatches(FieldsWhere(cycles, Switch)))
    && EventsInOrder(First(starts) + fixtures + cycles + First(fails) + First(exits),
      Wanted(mode, fails != [], exits != []))
    && (fails != [] ==>
          && LastStage(cycles) <= fails[0].number && fixtures[0].number <= fails[0].number
          && NotAfter(vm, fails[0].number))
    && (exits != [] ==> NotAfter(vm, exits[0].number) && (fails != [] ==> fails[0].number <= exits[0].number))
  }

  ghost predicate AreStarts(hits: seq<Hit>) { forall k :: 0 <= k < |hits| ==> hits[k].line.VmStart? }
  ghost predicate AreFails(hits: seq<Hit>) { forall k :: 0 <= k < |hits| ==> hits[k].line.VmFail? }
  ghost predicate AreExits(hits: seq<Hit>) { forall k :: 0 <= k < |hits| ==> hits[k].line.Exit? }

  /** The events put together have distinct line numbers and are events. */
  lemma EventsDiffer(
    lines: seq<Line>, starts: seq<Hit>, fixtures: seq<Hit>, cycles: seq<Hit>, fails: seq<Hit>, exits: seq<Hit>)
    requires AreStarts(starts) && AreFixtures(fixtures) && AreCycles(cycles) && AreFails(fails) && AreExits(exits)
    requires From(lines, starts) && From(lines, fixtures) && From(lines, cycles) && From(lines, fails)
      && From(lines, exits)
    ensures Unrepeated(starts + fixtures + cycles + fails + exits)
    ensures AreEvents(starts + fixtures + cycles + fails + exits)
  {
    AppendDiffers(lines, starts, fixtures);
    AppendDiffers(lines, starts + fixtures, cycles);
    AppendDiffers(lines, starts + fixtures + cycles, fails);
    AppendDiffers(lines, starts + fixtures + cycles + fails, exits);
  }

  method CheckEvents(hits: seq<Hit>, want: seq<Event>) returns (matches: bool)
    requires Unrepeated(hits) && AreEvents(hits)
    ensures matches <==> EventsInOrder(hits, want)
  {
    var merged := SortByNumber(hits);
    forall k | 0 <= k < |merged| ensures IsEvent(merged[k].line) { assert merged[k] in hits; }
    matches := Events(merged) == want;
    forall other | Sorted(other) && SameElements(other, hits) && AreEvents(other)
      ensures other == merged
    {
      SortedUnique(other, merged);
    }
  }

  method AllCycleOne(hits: seq<Hit>) returns (all: bool)
    requires forall k :: 0 <= k < |hits| ==> hits[k].line.VmFixture? || hits[k].line.VmCycle?
    ensures all <==> OnlyCycleOne(hits)
  {
    for k := 0 to |hits|
      invariant forall j :: 0 <= j < k ==> hits[j].line.cycle == 1
    {
      if hits[k].line.cycle != 1 { return false; }
    }
    all := true;
  }

  method CheckReadback(cycles: seq<Hit>) returns (errors: Errors)
    requires AreCycles(cycles)
    ensures errors == [] <==> ReadbackMatches(FieldsWhere(cycles, Switch))
  {
    var switch := FieldsOf(cycles, Switch);
    if switch == [] { return [SwitchMissing]; }
    if !switch[0].SwitchFields? || switch[0].expected != switch[0].observed { return [SwitchReadback]; }
    errors := [];
  }

  method CheckFailPlace(fixtures: seq<Hit>, cycles: seq<Hit>, fails: seq<Hit>, vm: seq<Hit>) returns (errors: Errors)
    requires AreCycles(cycles) && fails != []
    ensures errors == [] <==>
      && LastStage(cycles) <= fails[0].number && (fixtures != [] ==> fixtures[0].number <= fails[0].number)
      && NotAfter(vm, fails[0].number)
  {
    hide Note, NotAfter, LastStage;
    errors := [];
    errors := Note(errors, fails[0].number < LastStage(cycles), FailBeforeStage);
    errors := Note(errors, fixtures != [] && fails[0].number < fixtures[0].number, FailBeforeFixture);
    var ok := CheckNotAfter(vm, fails[0].number);
    errors := Note(errors, !ok, VmAfterFail);
  }

  method CheckNegativeSequence(
    mode: Mode, lines: seq<Line>, starts: seq<Hit>, fixtures: seq<Hit>, cycles: seq<Hit>, fails: seq<Hit>,
    exits: seq<Hit>, vm: seq<Hit>)
    returns (errors: Errors)
    requires AreStarts(starts) && AreFixtures(fixtures) && AreCycles(cycles) && AreFails(fails) && AreExits(exits)
    requires From(lines, starts) && From(lines, fixtures) && From(lines, cycles) && From(lines, fails)
      && From(lines, exits)
    ensures errors == [] <==> (starts != [] ==> SequenceOk(mode, starts, fixtures, cycles, fails, exits, vm))
  {
    hide Note, EventsInOrder, OnlyCycleOne, SkipObserved, ReadbackMatches, NotAfter, Wanted, FieldsWhere, StagesOf,
      LastStage, From, Required, Beyond, First, AreStarts, AreFails, AreExits;
    errors := [];
    if starts == [] { return; }
    var fixtureOne := AllCycleOne(fixtures);
    var cycleOne := AllCycleOne(cycles);
    errors := Note(errors, !fixtureOne || !cycleOne, SecondCycle);
    errors := Note(errors, |fixtures| != 1, FixtureCount);
    errors := Note(errors, fixtures != [] && fixtures[0].number <= starts[0].number, FixtureBeforeStart);
    errors := Note(errors, StagesOf(cycles, 1) != Required(mode), RequiredStages);
    BeyondIsNotRequired(mode);
    errors := Note(errors, Beyond(mode) in StagesOf(cycles, 1), StageTooFar);
    var more;
    if mode == SkipSwitch {
      more := CheckSkipSwitchObserved(cycles);
    } else {
      more := CheckReadback(cycles);
    }
    errors := errors + more;
    FirstsFrom(lines, starts, fails, exits);
    EventsDiffer(lines, First(starts), fixtures, cycles, First(fails), First(exits));
    var ordered := CheckEvents(First(starts) + fixtures + cycles + First(fails) + First(exits),
      Wanted(mode, fails != [], exits != []));
    errors := Note(errors, !ordered, NegativeOrder);
    if fails != [] {
      more := CheckFailPlace(fixtures, cycles, fails, vm);
      errors := errors + more;
    }
    if exits != [] {
      var ok := CheckNotAfter(vm, exits[0].number);
      errors := Note(errors, !ok, VmAfterExit);
      errors := Note(errors, fails != [] && fails[0].number > exits[0].number, FailAfterExit);
    }
  }

  lemma FirstsFrom(lines: seq<Line>, starts: seq<Hit>, fails: seq<Hit>, exits: seq<Hit>)
    requires AreStarts(starts) && AreFails(fails) && AreExits(exits)
    requires From(lines, starts) && From(lines, fails) && From(lines, exits)
    ensures AreStarts(First(starts)) && AreFails(First(fails)) && AreExits(First(exits))
    ensures From(lines, First(starts)) && From(lines, First(fails)) && From(lines, First(exits))
  {
    hide From;
    FirstFrom(lines, starts);
    FirstFrom(lines, fails);
    FirstFrom(lines, exits);
  }

  lemma FirstFrom(lines: seq<Line>, hits: seq<Hit>)
    requires From(lines, hits)
    ensures From(lines, First(hits))
  {
  }

  // ---------------------------------------------------------------- the parse

  /** Everything the pass over the lines collects. */
  datatype Lists = Lists(
    starts: seq<Hit>, fixtures: seq<Hit>, cycles: seq<Hit>, completes: seq<Hit>, fails: seq<Hit>, exits: seq<Hit>,
    n6: seq<Hit>, timer: seq<Hit>, done: seq<Hit>, vm: seq<Hit>)

  ghost function Collected(lines: seq<Line>): Lists {
    Lists(
      Hits(lines, IsStart), Hits(lines, IsFixture), Hits(lines, IsCycle), Hits(lines, IsComplete), Hits(lines, IsFail),
      Hits(lines, IsExit), Hits(lines, IsN6Last), Hits(lines, IsTimer), Hits(lines, IsDone), Hits(lines, IsVm))
  }

  lemma HitsAppend(lines: seq<Line>, i: nat, p: Line -> bool)
    requires i < |lines|
    ensures Hits(lines[..i + 1], p) == if p(lines[i]) then Hits(lines[..i], p) + [Hit(i + 1, lines[i])]
      else Hits(lines[..i], p)
  {
    assert lines[..i + 1][..i] == lines[..i];
  }

  lemma CollectedAppend(lines: seq<Line>, i: nat)
    requires i < |lines|
    ensures var line, before, after := lines[i], Collected(lines[..i]), Collected(lines[..i + 1]);
      var hit := [Hit(i + 1, line)];
      && after.starts == (if line.VmStart? then before.starts + hit else before.starts)
      && after.fixtures == (if line.VmFixture? then before.fixtures + hit else before.fixtures)
      && after.cycles == (if line.VmCycle? then before.cycles + hit else before.cycles)
      && after.completes == (if line.VmComplete? then before.completes + hit else before.completes)
      && after.fails == (if line.VmFail? then before.fails + hit else before.fails)
      && after.exits == (if line.Exit? then before.exits + hit else before.exits)
      && after.n6 == (if IsN6Last(line) then before.n6 + hit else before.n6)
      && after.timer == (if IsTimer(line) then before.timer + hit else before.timer)
      && after.done == (if IsDone(line) then before.done + hit else before.done)
      && after.vm == (if IsVm(line) then before.vm + hit else before.vm)
  {
    hide Hits;
    HitsAppend(lines, i, IsStart);
    HitsAppend(lines, i, IsFixture);
    HitsAppend(lines, i, IsCycle);
    HitsAppend(lines, i, IsComplete);
    HitsAppend(lines, i, IsFail);
    HitsAppend(lines, i, IsExit);
    HitsAppend(lines, i, IsN6Last);
    HitsAppend(lines, i, IsTimer);
    HitsAppend(lines, i, IsDone);
    HitsAppend(lines, i, IsVm);
  }

  ghost predicate NoBadLine(lines: seq<Line>) {
    forall i :: 0 <= i < |lines| ==> !IsBad(lines[i])
  }

  /** The one pass over the lines, with its chain of patterns for the lines of the probe. */
  method Collect(lines: seq<Line>) returns (l: Lists, errors: Errors)
    ensures l == Collected(lines)
    ensures errors == [] <==> NoBadLine(lines)
  {
    hide Hits, Collected, Note, IsBad, IsVm, IsN6Last, IsTimer, IsDone;
    l, errors := Lists([], [], [], [], [], [], [], [], [], []), [];
    NothingCollected();
    for i := 0 to |lines|
      invariant l == Collected(lines[..i])
      invariant errors == [] <==> forall j :: 0 <= j < i ==> !IsBad(lines[j])
    {
      CollectedAppend(lines, i);
      BadLineIs(lines[i]);
      var number, line := i + 1, lines[i];
      var hit := [Hit(number, line)];
      errors := Note(errors, line.FailureLine?, BadLine(number));
      if IsVm(line) {
        l := l.(vm := l.vm + hit);
        match line
        case VmStart(_) => l := l.(starts := l.starts + hit);
        case VmFixture(_, _, _) => l := l.(fixtures := l.fixtures + hit);
        case VmCycle(_, stage, _) =>
          errors := Note(errors, stage.Unknown?, BadLine(number));
          l := l.(cycles := l.cycles + hit);
        case VmComplete => l := l.(completes := l.completes + hit);
        case VmFail(_, _, _) => l := l.(fails := l.fails + hit);
        case _ => errors := Note(errors, true, BadLine(number));
      }
      if IsN6Last(line) { l := l.(n6 := l.n6 + hit); }
      if IsTimer(line) { l := l.(timer := l.timer + hit); }
      if IsDone(line) { l := l.(done := l.done + hit); }
      if line.Exit? { l := l.(exits := l.exits + hit); }
    }
    assert lines[..|lines|] == lines;
  }

  lemma NothingCollected()
    ensures Collected([]) == Lists([], [], [], [], [], [], [], [], [], [])
  {
  }

  lemma BadLineIs(line: Line)
    ensures IsVm(line) <==>
      line.VmStart? || line.VmFixture? || line.VmCycle? || line.VmComplete? || line.VmFail? || line.VmMalformed?
    ensures IsBad(line) <==> line.FailureLine? || line.VmMalformed? || (line.VmCycle? && line.stage.Unknown?)
  {
  }

  datatype VmReport = VmReport(
    mode: Mode, complete: bool, fixtures: seq<Hit>, cycles: seq<Hit>, fail: seq<Hit>, base: BaseReport, errors: Errors)

  ghost predicate StartOk(mode: Mode, starts: seq<Hit>)
    requires AreStarts(starts)
  {
    |starts| == 1 && starts[0].line.mode == mode
  }

  /** Everything the positive checks ask, each of the list it reads. */
  ghost predicate PositiveChecks(lines: seq<Line>)
    requires AllClassified(lines)
  {
    var l := Collected(lines);
    ListsAreKinds(lines);
    && NoBadLine(lines) && StartOk(Positive, l.starts) && BootLanguage(lines)
    && l.fails == [] && |l.completes| == 1 && |l.exits| == 1 && l.exits[0].line.text == ExitOk
    && NoVmAfterTerminal(l.vm, l.completes, l.exits)
    && PositiveOrder(l.starts, l.fixtures, l.cycles, l.completes, l.n6, l.timer, l.done, l.exits)
    && SemanticsOk(true, l.fixtures, l.cycles)
  }

  /** Everything the negative checks ask. */
  ghost predicate NegativeChecks(mode: Mode, lines: seq<Line>)
    requires AllClassified(lines)
  {
    var l := Collected(lines);
    ListsAreKinds(lines);
    && NoBadLine(lines) && StartOk(mode, l.starts) && !BootLanguage(lines)
    && l.completes == [] && l.done == [] && l.timer == []
    && |l.fails| == 1 && l.fails[0].line.cycle == 1 && l.fails[0].line.stage == FailStageOf(mode)
    && l.fails[0].line.reason == FailReasonOf(mode)
    && |l.exits| == 1 && l.exits[0].line.text == ExitVm && l.fails[0].number <= l.exits[0].number
    && (l.starts != [] ==> 1 <= l.starts[0].number <= |lines|)
    && (l.starts != [] ==> N6Language(lines[..l.starts[0].number - 1]))
    && (l.starts != [] ==> SequenceOk(mode, l.starts, l.fixtures, l.cycles, l.fails, l.exits, l.vm))
    && SemanticsOk(false, l.fixtures, l.cycles)
  }

  lemma HitsFrom(lines: seq<Line>, p: Line -> bool)
    ensures From(lines, Hits(lines, p))
    ensures forall k :: 0 <= k < |Hits(lines, p)| ==> p(Hits(lines, p)[k].line)
  {
  }

  lemma ListsAreKinds(lines: seq<Line>)
    requires AllClassified(lines)
    ensures var l := Collected(lines);
      && AreStarts(l.starts) && AreFixtures(l.fixtures) && AreCycles(l.cycles) && AreFails(l.fails) && AreExits(l.exits)
      && From(lines, l.starts) && From(lines, l.fixtures) && From(lines, l.cycles) && From(lines, l.fails)
      && From(lines, l.exits)
  {
    hide Hits, Classified;
    HitsFrom(lines, IsStart);
    HitsFrom(lines, IsFixture);
    HitsFrom(lines, IsCycle);
    HitsFrom(lines, IsFail);
    HitsFrom(lines, IsExit);
  }

  method CheckPositive(lines: seq<Line>, l: Lists, base: BaseReport) returns (errors: Errors)
    requires AllClassified(lines) && l == Collected(lines) && (base.errors == [] <==> BootLanguage(lines))
    requires AreFixtures(l.fixtures) && AreCycles(l.cycles) && From(lines, l.fixtures) && From(lines, l.cycles)
      && AreExits(l.exits)
    ensures errors == [] <==>
      && BootLanguage(lines) && l.fails == [] && |l.completes| == 1 && |l.exits| == 1 && l.exits[0].line.text == ExitOk
      && NoVmAfterTerminal(l.vm, l.completes, l.exits)
      && PositiveOrder(l.starts, l.fixtures, l.cycles, l.completes, l.n6, l.timer, l.done, l.exits)
      && SemanticsOk(true, l.fixtures, l.cycles)
  {
    hide Note, BootLanguage, NoVmAfterTerminal, PositiveOrder, SemanticsOk, AreFixtures, AreCycles, From, AreExits,
      Collected;
    errors := [];
    errors := Note(errors, base.errors != [], BaseErrors);
    errors := Note(errors, l.fails != [], ContainsFail);
    errors := Note(errors, |l.completes| != 1, CompleteCount);
    ExitsAre(l.exits);
    errors := Note(errors, |l.exits| != 1 || l.exits[0].line.text != ExitOk, ExitNotOk);
    var more := RejectVmAfterTerminal(l.vm, l.completes, l.exits);
    errors := errors + more;
    more := CheckPositiveOrder(lines, l.starts, l.fixtures, l.cycles, l.completes, l.n6, l.timer, l.done, l.exits);
    errors := errors + more;
    more := CheckCycleSemantics(true, l.fixtures, l.cycles);
    errors := errors + more;
  }

  lemma ExitsAre(exits: seq<Hit>)
    requires AreExits(exits)
    ensures exits != [] ==> exits[0].line.Exit?
  {
  }

  method NoSuccessExit(exits: seq<Hit>) returns (none: bool)
    requires AreExits(exits)
    ensures none <==> forall k :: 0 <= k < |exits| ==> exits[k].line.text != ExitOk
  {
    for k := 0 to |exits|
      invariant forall j :: 0 <= j < k ==> exits[j].line.text != ExitOk
    {
      if exits[k].line.text == ExitOk { return false; }
    }
    none := true;
  }

  method CheckTerminal(mode: Mode, l: Lists) returns (errors: Errors)
    requires AreFails(l.fails) && AreExits(l.exits)
    ensures errors == [] <==>
      && l.completes == [] && l.done == [] && l.timer == []
      && |l.fails| == 1 && l.fails[0].line.cycle == 1 && l.fails[0].line.stage == FailStageOf(mode)
      && l.fails[0].line.reason == FailReasonOf(mode)
      && |l.exits| == 1 && l.exits[0].line.text == ExitVm && l.fails[0].number <= l.exits[0].number
  {
    hide Note, FailStageOf, FailReasonOf;
    errors := [];
    errors := Note(errors, l.completes != [], ContainsComplete);
    errors := Note(errors, l.done != [], ContainsDone);
    errors := Note(errors, l.timer != [], ContainsTimer);
    var none := NoSuccessExit(l.exits);
    errors := Note(errors, !none, ContainsSuccessExit);
    errors := Note(errors, |l.fails| != 1, FailCount);
    errors := Note(errors, |l.fails| == 1 && l.fails[0].line.cycle != 1, FailCycle);
    errors := Note(errors, |l.exits| != 1 || l.exits[0].line.text != ExitVm, ExitNotVm);
    errors := Note(errors, l.fails != [] && l.exits != [] && l.fails[0].number > l.exits[0].number, FailAfterExit);
    if l.fails != [] {
      errors := Note(errors, l.fails[0].line.stage != FailStageOf(mode), FailStage);
      errors := Note(errors, l.fails[0].line.reason != FailReasonOf(mode), FailReason);
    }
  }

  method CheckNegative(mode: Mode, lines: seq<Line>, l: Lists, base: BaseReport) returns (errors: Errors)
    requires AllClassified(lines) && l == Collected(lines) && (base.errors == [] <==> BootLanguage(lines))
    requires AreStarts(l.starts) && AreFixtures(l.fixtures) && AreCycles(l.cycles) && AreFails(l.fails)
      && AreExits(l.exits)
    requires From(lines, l.starts) && From(lines, l.fixtures) && From(lines, l.cycles) && From(lines, l.fails)
      && From(lines, l.exits)
    requires l.starts != [] ==> 1 <= l.starts[0].number <= |lines|
    ensures errors == [] <==>
      && !BootLanguage(lines) && l.completes == [] && l.done == [] && l.timer == []
      && |l.fails| == 1 && l.fails[0].line.cycle == 1 && l.fails[0].line.stage == FailStageOf(mode)
      && l.fails[0].line.reason == FailReasonOf(mode)
      && |l.exits| == 1 && l.exits[0].line.text == ExitVm && l.fails[0].number <= l.exits[0].number
      && (l.starts != [] ==> N6Language(lines[..l.starts[0].number - 1]))
      && (l.starts != [] ==> SequenceOk(mode, l.starts, l.fixtures, l.cycles, l.fails, l.exits, l.vm))
      && SemanticsOk(false, l.fixtures, l.cycles)
  {
    hide Note, BootLanguage, N6Language, SequenceOk, SemanticsOk, AreFixtures, AreCycles, From, Collected,
      FailStageOf, FailReasonOf;
    errors := [];
    errors := Note(errors, base.errors == [], PassedBootstrap);
    var more := CheckTerminal(mode, l);
    errors := errors + more;
    more := CheckN6Prefix(lines, l.starts);
    errors := errors + more;
    more := CheckNegativeSequence(mode, lines, l.starts, l.fixtures, l.cycles, l.fails, l.exits, l.vm);
    errors := errors + more;
    more := CheckCycleSemantics(false, l.fixtures, l.cycles);
    errors := errors + more;
  }

  lemma StartInside(lines: seq<Line>, starts: seq<Hit>)
    requires From(lines, starts) && AreStarts(starts)
    ensures starts != [] ==> 1 <= starts[0].number <= |lines| && starts[0].line.VmStart?
  {
  }

  /** The verifier: no error in positive mode exactly when all positive checks hold, and likewise in the others. */
  method ParseVmSerial(lines: seq<Line>, mode: Mode) returns (report: VmReport)
    requires AllClassified(lines)
    ensures report.errors == [] <==> if mode == Positive then PositiveChecks(lines) else NegativeChecks(mode, lines)
    ensures report.complete <==> mode == Positive && report.errors == []
  {
    hide Note, Collected, NoBadLine, BootLanguage, PositiveOrder, SemanticsOk, SequenceOk, N6Language,
      NoVmAfterTerminal, AreFixtures, AreCycles, AreFails, AreExits, From, AllClassified, First, FailStageOf,
      FailReasonOf;
    var base := ParseSerial(lines);
    var l, errors := Collect(lines);
    ListsAreKinds(lines);
    StartInside(lines, l.starts);
    errors := Note(errors, |l.starts| != 1, StartCount);
    errors := Note(errors, |l.starts| == 1 && l.starts[0].line.mode != mode, StartMode);
    var more;
    if mode == Positive {
      more := CheckPositive(lines, l, base);
    } else {
      more := CheckNegative(mode, lines, l, base);
    }
    errors := errors + more;
    report := VmReport(
      mode, |l.completes| == 1 && errors == [] && mode == Positive, l.fixtures, l.cycles, First(l.fails), base, errors);
  }
}
