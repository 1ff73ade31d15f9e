/**
 Serial transcripts: the line classes both verifiers tell apart, the bootstrap parser with its
 cursor, and the language of bootstrap transcripts it accepts.
 */
module Transcript {

  // ---------------------------------------------------------------- lines

  const MARKERS := 18
  const MAP_FROZEN := 3
  const EBS_OK := 4
  const N6_LAST := 15
  const TIMER := 16
  const DONE := 17

  /** What follows a marker token on its line: nothing, or text after a space or after a tab. */
  datatype Tail = Bare | Spaced | Tabbed

  /** The text of a line that begins like an exit: exactly code 10, exactly code 17, or anything else. */
  datatype ExitText = ExitOk | ExitVm | ExitOther

  datatype Mode = Positive | SkipSwitch | WritableRo

  datatype Stage =
    | Control | Template | Construct | Walk | Switch | Content | FaultRo | FaultNx | FaultGuard | FaultTop
    | Restore | Absent | Destroy | Unknown(name: string)

  /** Page counts as printed: the verifier compares the digits, not the values. */
  datatype Pmm = Pmm(total: string, free: string, used: string, unmanaged: string, excluded: string)

  /** The fields of a cycle line: the one field pattern they match, or none. Sixteen hex digits are 64 bits. */
  datatype Fields =
    | ControlFields(cr3: bv64, rflags: bv64, cr0: bv64, cr4: bv64, efer: bv64, pmm: Pmm)
    | TemplateFields(root: bv64, pdpt: bv64)
    | ConstructFields(owned: nat, image: nat, stack: nat, tables: nat, root: bv64)
    | WalkFields(imagePts: string, stackPts: string, rx: bv64, rx1: bv64, ro: bv64, rw: bv64)
    | SwitchFields(expected: bv64, observed: bv64)
    | ContentFields
    | FaultFields(pfec: nat, cr2: bv64, rip: bv64, gen: nat)
    | DestroyFields(pmm: Pmm)
    | OtherFields

  datatype Reason = Cr3Readback | ExpectedPf | OtherReason

  /** A line of a transcript, already classified. The classes exclude each other by their first characters. */
  datatype Line =
    | Noise
    | FailureLine
    | Marker(index: nat, tail: Tail)
    | Exit(text: ExitText)
    | VmStart(mode: Mode)
    | VmFixture(cycle: nat, length: nat, digest: string)
    | VmCycle(cycle: nat, stage: Stage, fields: Fields)
    | VmComplete
    | VmFail(cycle: nat, stage: Stage, reason: Reason)
    | VmMalformed

  /** The patterns only admit the 18 markers and the cycles 1 and 2. */
  predicate Classified(line: Line) {
    match line
    case Marker(index, _) => index < MARKERS
    case VmFixture(cycle, _, _) => cycle == 1 || cycle == 2
    case VmCycle(cycle, _, _) => cycle == 1 || cycle == 2
    case VmFail(cycle, _, _) => cycle == 1 || cycle == 2
    case _ => true
  }

  ghost predicate AllClassified(lines: seq<Line>) {
    forall i :: 0 <= i < |lines| ==> Classified(lines[i])
  }

  predicate IsBase(line: Line) { line.Marker? || line.Exit? }

  /** The lines of a kind, in order. */
  function Filter(lines: seq<Line>, p: Line -> bool): seq<Line> {
    if lines == [] then []
    else
      var last := lines[|lines| - 1];
      Filter(lines[..|lines| - 1], p) + if p(last) then [last] else []
  }

  // ---------------------------------------------------------------- the language

  /** The n-th marker of a boot that froze its map `retries` times more than once. */
  function BootMarker(retries: nat, n: nat): nat {
    if n < EBS_OK then n else if n < EBS_OK + retries then MAP_FROZEN else n - retries
  }

  ghost predicate ReadsBoot(events: seq<Line>, retries: nat, length: nat) {
    && |events| == length <= MARKERS + retries
    && forall n :: 0 <= n < length ==> events[n].Marker? && events[n].index == BootMarker(retries, n)
  }

  /** The 18 markers in order, extra map-frozen lines only right after the first, then one correct exit. */
  ghost predicate ReadsBootAndExit(events: seq<Line>, retries: nat) {
    && |events| == MARKERS + retries + 1
    && ReadsBoot(events[..MARKERS + retries], retries, MARKERS + retries)
    && events[MARKERS + retries] == Exit(ExitOk)
  }

  ghost predicate BootLanguage(lines: seq<Line>) {
    && (forall i :: 0 <= i < |lines| ==> !lines[i].FailureLine?)
    && exists retries: nat :: ReadsBootAndExit(Filter(lines, IsBase), retries)
  }

  // ---------------------------------------------------------------- the parser

  datatype BaseError =
    | NativeFailure(number: nat) | BadExit(number: nat) | EarlyExit(number: nat)
    | OutOfOrder(number: nat) | AfterExit(number: nat) | MissingStages | ExitCount(count: nat)

  datatype BaseReport = BaseReport(entryObserved: bool, seen: seq<nat>, exits: seq<(nat, ExitText)>,
    errors: seq<BaseError>)

  /** The markers reached by the cursor, the retries so far, and whether the exit was read. */
  ghost predicate ReadsPrefix(events: seq<Line>, cursor: nat, exited: bool, retries: nat) {
    && cursor <= MARKERS && (cursor < EBS_OK ==> retries == 0) && (exited ==> cursor == MARKERS)
    && |events| == cursor + retries + (if exited then 1 else 0)
    && ReadsBoot(events[..cursor + retries], retries, cursor + retries)
    && (exited ==> events[cursor + retries] == Exit(ExitOk))
  }

  /** How many of the lines carry a marker. */
  ghost function Count(lines: seq<Line>, index: nat): nat {
    if lines == [] then 0
    else Count(lines[..|lines| - 1], index)
         + (if lines[|lines| - 1].Marker? && lines[|lines| - 1].index == index then 1 else 0)
  }

  /** What the parser's variables say once it has read `lines` without an error. */
  ghost predicate Clean(lines: seq<Line>, cursor: nat, exited: bool) {
    && (forall i :: 0 <= i < |lines| ==> !lines[i].FailureLine?)
    && exists retries: nat :: ReadsPrefix(Filter(lines, IsBase), cursor, exited, retries)
  }

  /** A line that keeps a clean reading clean. */
  predicate Accepts(line: Line, cursor: nat, exited: bool) {
    match line
    case FailureLine => false
    case Marker(index, _) => !exited && (index == cursor || (index == MAP_FROZEN && cursor == EBS_OK))
    case Exit(text) => text == ExitOk && cursor == MARKERS && !exited
    case _ => true
  }

  function NextCursor(line: Line, cursor: nat): nat {
    if line.Marker? && line.index == cursor then cursor + 1 else cursor
  }

  lemma FilterAppend(lines: seq<Line>, line: Line, p: Line -> bool)
    ensures Filter(lines + [line], p) == Filter(lines, p) + if p(line) then [line] else []
  {
  }

  lemma CleanStep(lines: seq<Line>, line: Line, cursor: nat, exited: bool)
    requires Clean(lines, cursor, exited) && Accepts(line, cursor, exited) && Classified(line)
    ensures Clean(lines + [line], NextCursor(line, cursor), exited || line.Exit?)
  {
    hide Filter;
    FilterAppend(lines, line, IsBase);
    var events := Filter(lines, IsBase);
    var retries: nat :| ReadsPrefix(events, cursor, exited, retries);
    if line.Marker? {
      MarkerStep(events, line, cursor, retries);
    } else if line.Exit? {
      ExitStep(events, line, cursor, retries);
    } else {
      assert events + [] == events;
    }
  }

  lemma ExitStep(events: seq<Line>, line: Line, cursor: nat, retries: nat)
    requires ReadsPrefix(events, cursor, false, retries) && cursor == MARKERS && line == Exit(ExitOk)
    ensures ReadsPrefix(events + [line], cursor, true, retries)
  {
  }

  lemma MarkerStep(events: seq<Line>, line: Line, cursor: nat, retries: nat)
    requires ReadsPrefix(events, cursor, false, retries) && line.Marker? && line.index < MARKERS
    requires line.index == cursor || (line.index == MAP_FROZEN && cursor == EBS_OK)
    ensures exists r: nat :: ReadsPrefix(events + [line], NextCursor(line, cursor), false, r)
  {
    var n := cursor + retries;
    var more := events + [line];
    assert events[..n] == events && more[..n + 1] == more;
    var retries' := if line.index == cursor then retries else retries + 1;
    assert ReadsPrefix(more, NextCursor(line, cursor), false, retries');
  }

  /** A clean reading that starts a boot sequence has seen as many retries, once past them. */
  lemma RetriesAgree(
    events: seq<Line>, cursor: nat, exited: bool, retries: nat, whole: seq<Line>, length: nat, total: nat)
    requires ReadsPrefix(events, cursor, exited, retries) && events <= whole
    requires EBS_OK + total < length <= |whole| && ReadsBoot(whole[..length], total, length)
    requires forall k :: length <= k < |whole| ==> !whole[k].Marker?
    ensures cursor == EBS_OK ==> retries <= total
    ensures cursor > EBS_OK ==> retries == total
  {
    hide ReadsBoot;
    MarkersRead(events, cursor + retries, retries);
    assert cursor > EBS_OK ==> whole[EBS_OK + retries] == events[EBS_OK + retries];
    assert cursor >= EBS_OK && total < retries ==> whole[EBS_OK + total] == events[EBS_OK + total];
    MarkersRead(whole, length, total);
  }

  lemma MarkersRead(events: seq<Line>, n: nat, retries: nat)
    requires n <= |events| && ReadsBoot(events[..n], retries, n)
    ensures forall k :: 0 <= k < n ==> events[k].Marker? && events[k].index == BootMarker(retries, k)
  {
  }

  /** Read by position, the language leaves no choice of the next line. */
  lemma NothingElseFits(events: seq<Line>, line: Line, cursor: nat, exited: bool, whole: seq<Line>, total: nat)
    requires exists retries: nat :: ReadsPrefix(events, cursor, exited, retries)
    requires Classified(line) && IsBase(line)
    requires ReadsBootAndExit(whole, total) && events + [line] <= whole
    ensures Accepts(line, cursor, exited)
  {
    var retries: nat :| ReadsPrefix(events, cursor, exited, retries);
    assert events <= events + [line];
    RetriesAgree(events, cursor, exited, retries, whole, MARKERS + total, total);
    var n := |events|;
    assert whole[n] == (events + [line])[n] == line;
    if n < MARKERS + total {
      assert whole[n] == whole[..MARKERS + total][n];
    }
  }

  lemma {:induction false} FilterPrefix(lines: seq<Line>, n: nat, p: Line -> bool)
    requires n <= |lines|
    ensures Filter(lines[..n], p) <= Filter(lines, p)
    decreases |lines|
  {
    if n < |lines| {
      FilterPrefix(lines[..|lines| - 1], n, p);
      assert lines[..|lines| - 1][..n] == lines[..n];
    } else {
      assert lines[..n] == lines;
    }
  }

  /** A line the parser rejects cannot occur at that place in a transcript of the language. */
  lemma RejectedLine(lines: seq<Line>, i: nat, cursor: nat, exited: bool)
    requires AllClassified(lines) && i < |lines| && Clean(lines[..i], cursor, exited)
      && !Accepts(lines[i], cursor, exited)
    ensures !BootLanguage(lines)
  {
    if BootLanguage(lines) {
      var whole := Filter(lines, IsBase);
      var total: nat :| ReadsBootAndExit(whole, total);
      FilterPrefix(lines, i + 1, IsBase);
      assert lines[..i + 1] == lines[..i] + [lines[i]];
      FilterAppend(lines[..i], lines[i], IsBase);
      if IsBase(lines[i]) {
        NothingElseFits(Filter(lines[..i], IsBase), lines[i], cursor, exited, whole, total);
      }
    }
  }

  lemma CleanEnd(lines: seq<Line>, cursor: nat, exited: bool)
    requires Clean(lines, cursor, exited)
    ensures BootLanguage(lines) <==> cursor == MARKERS && exited
  {
    var events := Filter(lines, IsBase);
    var retries: nat :| ReadsPrefix(events, cursor, exited, retries);
    if cursor == MARKERS && exited {
      assert ReadsBootAndExit(events, retries);
    }
    if !exited {
      assert events[..cursor + retries] == events;
      assert forall k :: 0 <= k < |events| ==> events[k].Marker?;
    }
  }

  method ParseSerial(lines: seq<Line>) returns (report: BaseReport)
    requires AllClassified(lines)
    ensures report.errors == [] <==> BootLanguage(lines)
    ensures |report.seen| == MARKERS && forall k :: 0 <= k < MARKERS ==> report.seen[k] == Count(lines, k)
    ensures report.entryObserved <==> exists i :: 0 <= i < |lines| && lines[i].Marker? && lines[i].index == 5
  {
    hide Clean, BootLanguage, Filter;
    var seen := seq(MARKERS, _ => 0);
    var cursor := 0;
    var errors: seq<BaseError> := [];
    var exits: seq<(nat, ExitText)> := [];
    CleanStart();
    for i := 0 to |lines|
      invariant |seen| == MARKERS && forall k :: 0 <= k < MARKERS ==> seen[k] == Count(lines[..i], k)
      invariant errors == [] && |exits| <= 1 ==> Clean(lines[..i], cursor, |exits| == 1)
      invariant errors != [] || |exits| > 1 ==> !BootLanguage(lines)
    {
      var line, number := lines[i], i + 1;
      assert lines[..i + 1] == lines[..i] + [line];
      assert (lines[..i] + [line])[..i] == lines[..i];
      ghost var clean, before, exited := errors == [] && |exits| <= 1, cursor, |exits| == 1;
      if line.FailureLine? { errors := errors + [NativeFailure(number)]; }
      if line.Exit? {
        exits := exits + [(number, line.text)];
        if line.text != ExitOk { errors := errors + [BadExit(number)]; }
        if cursor != MARKERS { errors := errors + [EarlyExit(number)]; }
      }
      if line.Marker? {
        var index := line.index;
        seen := seen[index := seen[index] + 1];
        var retryMap := index == MAP_FROZEN && cursor == index + 1;
        if index == cursor {
          cursor := cursor + 1;
        } else if !retryMap {
          errors := errors + [OutOfOrder(number)];
        }
        if |exits| > 0 { errors := errors + [AfterExit(number)]; }
      }
      if clean {
        if Accepts(line, before, exited) {
          CleanStep(lines[..i], line, before, exited);
        } else {
          RejectedLine(lines, i, before, exited);
        }
      }
    }
    assert lines[..|lines|] == lines;
    if errors == [] && |exits| <= 1 { CleanEnd(lines, cursor, |exits| == 1); }
    if cursor != MARKERS { errors := errors + [MissingStages]; }
    if |exits| != 1 { errors := errors + [ExitCount(|exits|)]; }
    CountSeen(lines, 5);
    report := BaseReport(seen[5] > 0, seen, exits, errors);
  }

  lemma CleanStart()
    ensures Clean([], 0, false)
  {
    assert ReadsPrefix(Filter([], IsBase), 0, false, 0);
  }

  lemma {:induction false} CountSeen(lines: seq<Line>, index: nat)
    ensures Count(lines, index) > 0 <==> exists i :: 0 <= i < |lines| && lines[i].Marker? && lines[i].index == index
  {
    if lines != [] {
      var n := |lines| - 1;
      CountSeen(lines[..n], index);
      assert forall i :: 0 <= i < n ==> lines[..n][i] == lines[i];
    }
  }

  // ---------------------------------------------------------------- marker counts

  lemma {:induction false} CountFiltered(lines: seq<Line>, index: nat)
    ensures Count(Filter(lines, IsBase), index) == Count(lines, index)
  {
    if lines == [] {
      assert Filter([], IsBase) == [];
    } else {
      hide Filter, Count;
      var rest, last := lines[..|lines| - 1], lines[|lines| - 1];
      CountFiltered(rest, index);
      assert lines == rest + [last];
      FilterAppend(rest, last, IsBase);
      CountAppend(rest, last, index);
      CountAppend(Filter(rest, IsBase), last, index);
      assert Filter(rest, IsBase) + [] == Filter(rest, IsBase);
    }
  }

  lemma CountAppend(lines: seq<Line>, line: Line, index: nat)
    ensures Count(lines + [line], index) == Count(lines, index) + if line.Marker? && line.index == index then 1 else 0
  {
    assert (lines + [line])[..|lines|] == lines;
  }

  /** Where a boot reads a marker other than map-frozen. */
  function Place(index: nat, retries: nat): nat {
    if index < MAP_FROZEN then index else index + retries
  }

  lemma {:induction false} CountBoot(events: seq<Line>, retries: nat, index: nat)
    requires ReadsBoot(events, retries, |events|) && index < MARKERS && index != MAP_FROZEN
    ensures Count(events, index) == if |events| > Place(index, retries) then 1 else 0
    decreases |events|
  {
    if events != [] {
      var n := |events| - 1;
      var rest := events[..n];
      assert |rest| == n && ReadsBoot(rest, retries, n);
      assert forall k :: 0 <= k < n ==> events[..n][k] == events[k];
      CountBoot(rest, retries, index);
    }
  }

  /** In an accepted bootstrap transcript every marker but map-frozen occurs exactly once. */
  lemma OtherMarkersOnce(lines: seq<Line>, index: nat)
    requires BootLanguage(lines) && index < MARKERS && index != MAP_FROZEN
    ensures Count(lines, index) == 1
  {
    var events := Filter(lines, IsBase);
    var retries: nat :| ReadsBootAndExit(events, retries);
    CountFiltered(lines, index);
    CountBoot(events[..MARKERS + retries], retries, index);
  }
}
