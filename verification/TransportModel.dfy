/**
 One session of the owned helper transport as a state machine. A step is what runs between two awaits, or
 an event outside: a sink accepting bytes, a frame, an end of stream, an exit, a timer, an abort.
 Steps interleave in any order in which they are enabled.
 */
module TransportModel {
  import opened Wrappers
  import Decimal

  const REPLAY_WINDOW := 32
  const MAX_REQUEST_SEQUENCE := 9007199254740991

  datatype RuntimeState = Closed | Starting | Open | Closing | Failed

  datatype Error =
    | Busy | Aborted | NoHelper | SequenceExhausted | PayloadSize | Deadline | Eof | ReadFailed | StderrFlood
    | HelperExit | ExitFailed | Malformed | Unexpected | WrongId | DuplicateId | HelperError(code: string)
    | BeingClosed | TransportFailed | WriteFailed | VersionMismatch | ReapDeadline

  type Value = string

  /** A frame of the helper after parsing. */
  datatype Incoming = Garbage | Response(id: string, ok: bool, value: Value)

  // ---------------------------------------------------------------- a request

  datatype Kind = Hello | Ordinary | Shutdown

  datatype Reply = Waiting | Got(value: Value) | Refused(error: Error)

  /** Racing until the race settles; then perhaps waiting for the cleanup; then ended. */
  datatype Phase = Racing | Joining(error: Error) | Returned(value: Value) | Threw(error: Error)

  /** The locals of one call of the request routine: its write, its reply, its cancel token and its timer. */
  datatype Request = Request(
    number: nat, kind: Kind, size: nat, offset: nat, flushed: bool, broken: Option<Error>, aborted: bool,
    reply: Reply, cancel: Option<Error>, timedOut: bool, phase: Phase)
  {
    /** Its handlers are still installed. */
    predicate Live() { phase.Racing? || phase.Joining? }

    function Refuse(error: Error): Request {
      if reply.Waiting? then this.(reply := Refused(error)) else this
    }

    function Cancel(error: Error): Request {
      if cancel.None? then this.(cancel := Some(error)) else this
    }

    /** The ways the race can be lost. */
    predicate CanThrow(error: Error) {
      || broken == Some(error) || reply == Refused(error) || cancel == Some(error) || (timedOut && error == Deadline)
    }
  }

  function IdOf(number: nat): string { "req_" + Decimal.Print(number) }

  // ---------------------------------------------------------------- the session

  datatype Cleanup = Idle | JoiningReaders | AwaitingExit | Finished | Unconfirmed

  datatype Opening =
    | NotOpened | Greeting(hello: nat) | OpenJoining(error: Error) | OpenReturned | OpenThrew(error: Error)

  datatype ClosePhase = NotClosing | AwaitingShutdown(shutdown: nat, wasFailed: bool) | AwaitingCleanup(wasFailed: bool)

  datatype CloseOutcome = NoOutcome | ClosedNormally | CloseThrew

  /**
   The fields of the transport; the routines in progress; and what is true outside or was true before:
   whether a helper was spawned and has exited, the cleanups begun and the numbers of the requests answered.
   */
  datatype State = State(
    state: RuntimeState, owned: bool, pid: bool, exitConfirmed: bool,
    pending: Option<nat>, inflight: Option<nat>, sequence: nat, seen: seq<string>,
    failError: Option<Error>, cleanupError: Option<Error>,
    writer: Option<nat>, canceller: Option<nat>, abortListening: bool,
    requests: seq<Request>, opening: Opening, closing: ClosePhase, cleanup: Cleanup, closeOutcome: CloseOutcome,
    spawned: bool, exited: bool, cleanups: nat, answered: seq<nat>, closeCalled: bool)
  {
    predicate Known(k: Option<nat>) { k.Some? ==> k.value < |requests| }

    /** Every reference to a request is to one of the session. */
    predicate WellFormed() {
      && Known(pending) && Known(inflight) && Known(writer) && Known(canceller)
      && (opening.Greeting? ==> opening.hello < |requests|)
      && (closing.AwaitingShutdown? ==> closing.shutdown < |requests|)
    }

    predicate Connected() { state.Open? || state.Starting? }
  }

  const INITIAL := State(
    Closed, false, false, false, None, None, 0, [], None, None, None, None, false, [], NotOpened, NotClosing, Idle,
    NoOutcome, false, false, 0, [], false)

  function WithRequest(s: State, k: nat, r: Request): (t: State)
    requires s.WellFormed() && k < |s.requests|
    ensures t.WellFormed() && |t.requests| == |s.requests|
  {
    s.(requests := s.requests[k := r])
  }

  // ---------------------------------------------------------------- shared routines

  function RejectPending(s: State, error: Error): (t: State)
    requires s.WellFormed()
    ensures t.WellFormed() && |t.requests| == |s.requests|
  {
    match s.pending
    case None => s
    case Some(k) => WithRequest(s, k, s.requests[k].Refuse(error)).(pending := None)
  }

  function CountCleanup(s: State): (t: State)
    requires s.WellFormed()
    ensures t.WellFormed() && t.requests == s.requests
  {
    s.(cleanup := JoiningReaders, cleanups := s.cleanups + 1)
  }

  /** The part of the cleanup before its first wait. */
  function BeginCleanup(s: State): (t: State)
    requires s.WellFormed()
    ensures t.WellFormed() && |t.requests| == |s.requests|
  {
    var error := if s.failError.Some? then s.failError.value else TransportFailed;
    CountCleanup(RejectPending(s.(abortListening := false), error))
  }

  function StartCleanup(s: State): (t: State)
    requires s.WellFormed()
    ensures t.WellFormed() && |t.requests| == |s.requests|
  {
    if s.cleanup.Idle? then BeginCleanup(s) else s
  }

  function AbortWriter(s: State): (t: State)
    requires s.WellFormed()
    ensures t.WellFormed() && |t.requests| == |s.requests|
  {
    match s.writer
    case None => s
    case Some(k) => WithRequest(s, k, s.requests[k].(aborted := true))
  }

  function CancelRequest(s: State, error: Error): (t: State)
    requires s.WellFormed()
    ensures t.WellFormed() && |t.requests| == |s.requests|
  {
    match s.canceller
    case None => s
    case Some(k) => WithRequest(s, k, s.requests[k].Cancel(error))
  }

  function RecordFailure(s: State, error: Error): (t: State)
    requires s.WellFormed()
    ensures t.WellFormed() && t.requests == s.requests
  {
    s.(state := if s.state.Failed? || s.state.Closing? then s.state else Failed,
       failError := if s.failError.None? then Some(error) else s.failError)
  }

  function SignalFailure(s: State, error: Error): (t: State)
    requires s.WellFormed()
    ensures t.WellFormed() && |t.requests| == |s.requests|
  {
    var s1 := CancelRequest(AbortWriter(s), error);
    if s1.state.Closed? && !s1.owned then RejectPending(s1, error)
    else StartCleanup(RejectPending(RecordFailure(s1, error), error))
  }

  function SignalIfConnected(s: State, error: Error): (t: State)
    requires s.WellFormed()
    ensures t.WellFormed() && |t.requests| == |s.requests|
  {
    if s.Connected() then SignalFailure(s, error) else s
  }

  // ---------------------------------------------------------------- requests

  function NewRequest(number: nat, kind: Kind, size: nat, refused: Option<Error>): Request {
    match refused
    case None => Request(number, kind, size, 0, false, None, false, Waiting, None, false, Racing)
    case Some(error) =>
      Request(number, kind, size, 0, false, Some(error), false, Refused(error), None, false, Threw(error))
  }

  /** What the routine throws before it has a number, if anything. */
  function StartError(s: State, signalled: bool): Option<Error> {
    if s.pending.Some? then Some(Busy)
    else if signalled then Some(Aborted)
    else if !s.owned then Some(NoHelper)
    else if s.sequence >= MAX_REQUEST_SEQUENCE then Some(SequenceExhausted)
    else None
  }

  /** A request that threw at once. */
  function AddRefused(s: State, r: Request): (t: State)
    requires s.WellFormed()
    ensures t.WellFormed() && t.requests == s.requests + [r]
  {
    s.(requests := s.requests + [r])
  }

  /** A request installed as the pending one, with its cancel token and its writer. */
  function AddPending(s: State, r: Request): (t: State)
    requires s.WellFormed()
    ensures t.WellFormed() && t.requests == s.requests + [r]
  {
    var k := |s.requests|;
    s.(requests := s.requests + [r], pending := Some(k), canceller := Some(k), writer := Some(k))
  }

  function NextNumber(s: State): (t: State)
    requires s.WellFormed()
    ensures t.WellFormed() && t.requests == s.requests
  {
    s.(sequence := s.sequence + 1)
  }

  /** Starts a request of `size` payload bytes; if it throws at once nothing but the number is spent. */
  function StartRequest(s: State, kind: Kind, size: nat, maxFrame: nat, signalled: bool): (t: State)
    requires s.WellFormed()
    ensures t.WellFormed() && |t.requests| == |s.requests| + 1
  {
    var error := StartError(s, signalled);
    if error.Some? then AddRefused(s, NewRequest(0, kind, size, error))
    else
      var s1 := NextNumber(s);
      if size == 0 || size > maxFrame then AddRefused(s1, NewRequest(s1.sequence, kind, size, Some(PayloadSize)))
      else AddPending(s1, NewRequest(s1.sequence, kind, 4 + size, None))
  }

  /** The token and the writer are given up if they are this request's. */
  function ClearHolders(s: State, k: nat): (t: State)
    requires s.WellFormed()
    ensures t.WellFormed() && t.requests == s.requests
  {
    s.(canceller := if s.canceller == Some(k) then None else s.canceller,
       writer := if s.writer == Some(k) then None else s.writer)
  }

  /** The clean-up of the routine's own handlers, with its result. */
  function EndRequest(s: State, k: nat, phase: Phase): (t: State)
    requires s.WellFormed() && k < |s.requests|
    ensures t.WellFormed() && |t.requests| == |s.requests|
  {
    ClearHolders(WithRequest(s, k, s.requests[k].Cancel(NoHelper).(phase := phase)), k)
  }

  /** The routine refuses its own reply and gives up its own place. */
  function DropOwn(s: State, k: nat, error: Error): (t: State)
    requires s.WellFormed() && k < |s.requests|
    ensures t.WellFormed() && |t.requests| == |s.requests|
  {
    WithRequest(s, k, s.requests[k].Refuse(error)).(pending := if s.pending == Some(k) then None else s.pending)
  }

  /** A connected session fails; otherwise the request stops its own writer and its own wait only. */
  function FailOrMark(s: State, k: nat, error: Error): (t: State)
    requires s.WellFormed() && k < |s.requests|
    ensures t.WellFormed() && |t.requests| == |s.requests|
  {
    if s.Connected() then SignalFailure(s, error) else WithRequest(s, k, s.requests[k].(aborted := true).Cancel(error))
  }

  /** The teardown of a request whose race was lost, up to its wait for the cleanup. */
  function Teardown(s: State, k: nat, error: Error): (t: State)
    requires s.WellFormed() && k < |s.requests|
    ensures t.WellFormed() && |t.requests| == |s.requests|
  {
    var s2 := FailOrMark(DropOwn(s, k, error), k, error);
    if s2.cleanup.Idle? then EndRequest(s2, k, Threw(error))
    else WithRequest(s2, k, s2.requests[k].(phase := Joining(error)))
  }

  /** Waiting for the cleanup records its failure, once. */
  function Joined(s: State): (t: State)
    requires s.WellFormed()
    ensures t.WellFormed() && |t.requests| == |s.requests|
  {
    if s.cleanup.Unconfirmed? && s.cleanupError.None? then s.(cleanupError := Some(ReapDeadline)) else s
  }

  // ---------------------------------------------------------------- frames

  function Remember(seen: seq<string>, id: string): seq<string> {
    var longer := seen + [id];
    if |longer| > REPLAY_WINDOW then longer[1..] else longer
  }

  /** Why a frame is not the answer to the pending request, if it is not. */
  function FrameError(s: State, frame: Incoming, seen: seq<string>): Option<Error>
    requires s.WellFormed()
  {
    if frame.Garbage? then Some(Malformed)
    else if s.pending.None? then Some(Unexpected)
    else if frame.id != IdOf(s.requests[s.pending.value].number) then Some(WrongId)
    else if frame.id in seen then Some(DuplicateId)
    else None
  }

  function Answer(frame: Incoming): Reply
    requires frame.Response?
  {
    if frame.ok then Got(frame.value) else Refused(HelperError(frame.value))
  }

  function DispatchFrame(s: State, frame: Incoming): (t: State)
    requires s.WellFormed()
    ensures t.WellFormed() && |t.requests| == |s.requests|
  {
    var error := FrameError(s, frame, s.seen);
    if error.Some? then SignalFailure(s, error.value)
    else
      var k := s.pending.value;
      var r := s.requests[k];
      WithRequest(s, k, if r.reply.Waiting? then r.(reply := Answer(frame)) else r).(
        pending := None, seen := Remember(s.seen, frame.id), answered := s.answered + [r.number])
  }

  // ---------------------------------------------------------------- close

  /** From the end of the polite shutdown to the wait for the cleanup. */
  function JoinForClose(s: State, wasFailed: bool): (t: State)
    requires s.WellFormed()
    ensures t.WellFormed() && |t.requests| == |s.requests|
  {
    StartCleanup(RejectPending(s, BeingClosed)).(closing := AwaitingCleanup(wasFailed))
  }

  function MarkClosing(s: State): (t: State)
    requires s.WellFormed()
    ensures t.WellFormed() && t.requests == s.requests
  {
    s.(state := if s.state.Failed? then Failed else Closing, abortListening := false, closeCalled := true)
  }

  /** A helper that runs and has not failed is asked to shut down first. */
  function AskToEnd(s: State, wasFailed: bool, size: nat, maxFrame: nat): (t: State)
    requires s.WellFormed()
    ensures t.WellFormed() && |t.requests| >= |s.requests|
  {
    if !wasFailed && s.owned && !s.exited then
      StartRequest(s, Shutdown, size, maxFrame, false).(closing := AwaitingShutdown(|s.requests|, wasFailed))
    else
      JoinForClose(s, wasFailed)
  }

  function BeginClose(s: State, size: nat, maxFrame: nat): (t: State)
    requires s.WellFormed()
    ensures t.WellFormed() && |t.requests| >= |s.requests|
  {
    AskToEnd(RejectPending(MarkClosing(s), BeingClosed), s.state.Failed? || s.failError.Some?, size, maxFrame)
  }

  function EndClose(s: State, wasFailed: bool): (t: State)
    requires s.WellFormed()
    ensures t.WellFormed() && t.requests == s.requests
  {
    if s.owned && !s.exitConfirmed then s.(closing := NotClosing, state := Failed, closeOutcome := CloseThrew)
    else
      s.(closing := NotClosing, pid := false, closeOutcome := ClosedNormally,
         state := if s.owned && (wasFailed || s.failError.Some?) then Failed else Closed)
  }

  function FinishClose(s: State, wasFailed: bool): (t: State)
    requires s.WellFormed()
    ensures t.WellFormed() && |t.requests| == |s.requests|
  {
    EndClose(Joined(s), wasFailed)
  }

  // ---------------------------------------------------------------- steps

  /** Events of the write, the race and the handlers of one request. */
  datatype RequestEvent =
    | Accepted(bytes: nat) | Flushed | WriteStopped | WriteThrew
    | RaceWon | RaceLost(error: Error) | RequestCleaned | TimerFired | SignalFired

  /** Events of the helper's streams and process, and the waits of the cleanup. */
  datatype HelperEvent =
    | FrameRead(frame: Incoming) | StdoutEnded | StdoutThrew | StderrFlooded
    | ProcessExited | ExitSeen | ExitThrew
    | ReadersJoined | ExitAwaited | ReapTimedOut

  datatype Event =
    | Opened(size: nat) | OpenStuck | OpenRefused | OpenAnswered(valid: bool) | OpenCleaned | OpenSignalFired
    | Called(size: nat, signalled: bool) | CallEnded
    | CloseCalled(size: nat) | ShutdownEnded | CloseCleaned
    | OfRequest(k: nat, request: RequestEvent)
    | OfHelper(helper: HelperEvent)

  predicate CleanedUp(s: State) { s.cleanup.Finished? || s.cleanup.Unconfirmed? }

  /** When an event of a request can happen; its write may go on after the request itself has ended. */
  predicate RequestCan(r: Request, cleanedUp: bool, e: RequestEvent) {
    var writing := !r.flushed && r.broken.None?;
    match e
    case Accepted(bytes) => writing && !r.aborted && r.offset <= r.size && 0 < bytes <= r.size - r.offset
    case Flushed => writing && !r.aborted && r.offset == r.size
    case WriteStopped => writing && r.aborted
    case WriteThrew => writing
    case RaceWon => r.phase.Racing? && r.flushed && r.reply.Got?
    case RaceLost(error) => r.phase.Racing? && r.CanThrow(error)
    case RequestCleaned => r.phase.Joining? && cleanedUp
    case TimerFired => r.phase.Racing?
    case SignalFired => r.Live() && !r.kind.Shutdown?
  }

  predicate HelperCan(s: State, e: HelperEvent) {
    match e
    case ProcessExited => s.spawned && !s.exited
    case ExitSeen => s.exited
    case ReadersJoined => s.cleanup.JoiningReaders?
    case ExitAwaited => s.cleanup.AwaitingExit? && s.exited
    case ReapTimedOut => s.cleanup.AwaitingExit?
    case _ => s.spawned
  }

  predicate CanOpen(s: State) { s.opening.NotOpened? && s.state.Closed? && s.cleanup.Idle? }

  /** When a step can happen. */
  predicate Enabled(s: State, e: Event) {
    s.WellFormed() &&
    match e
    case Opened(_) => CanOpen(s)
    case OpenStuck => CanOpen(s)
    case OpenRefused => CanOpen(s)
    case OpenAnswered(_) => s.opening.Greeting? && !s.requests[s.opening.hello].Live()
    case OpenCleaned => s.opening.OpenJoining? && CleanedUp(s)
    case OpenSignalFired => s.abortListening
    case Called(_, _) => s.state.Open? && s.inflight.None?
    case CallEnded => s.inflight.Some? && !s.requests[s.inflight.value].Live()
    case CloseCalled(_) => s.closing.NotClosing? && !(s.state.Closed? && !s.owned)
    case ShutdownEnded => s.closing.AwaitingShutdown? && !s.requests[s.closing.shutdown].Live()
    case CloseCleaned => s.closing.AwaitingCleanup? && CleanedUp(s)
    case OfRequest(k, request) => k < |s.requests| && RequestCan(s.requests[k], CleanedUp(s), request)
    case OfHelper(helper) => HelperCan(s, helper)
  }

  function SpawnHelper(s: State): (t: State)
    requires s.WellFormed()
    ensures t.WellFormed() && t.requests == s.requests
  {
    s.(state := Starting, owned := true, pid := true, spawned := true, exitConfirmed := false, abortListening := true)
  }

  /** The helper has exited: the handle is given up. */
  function Release(s: State): (t: State)
    requires s.WellFormed()
    ensures t.WellFormed() && |t.requests| == |s.requests|
  {
    s.(exitConfirmed := true, owned := false, pid := false, cleanup := Finished)
  }

  function NoteExit(s: State): (t: State)
    requires s.WellFormed()
    ensures t.WellFormed() && t.requests == s.requests
  {
    s.(exited := true)
  }

  function ConfirmExit(s: State): (t: State)
    requires s.WellFormed()
    ensures t.WellFormed() && t.requests == s.requests
  {
    s.(exitConfirmed := true)
  }

  /** The exit was not seen in time: the handle and the pid are kept. */
  function GiveUpReaping(s: State): (t: State)
    requires s.WellFormed()
    ensures t.WellFormed() && t.requests == s.requests
  {
    s.(pid := true, cleanup := Unconfirmed, cleanupError := Some(ReapDeadline))
  }

  function AfterReaders(s: State): (t: State)
    requires s.WellFormed()
    ensures t.WellFormed() && |t.requests| == |s.requests|
  {
    if !s.owned then s.(cleanup := Finished)
    else if s.exitConfirmed || s.exited then Release(s)
    else s.(cleanup := AwaitingExit)
  }

  /** The opening routine once its hello request has ended. */
  function AfterHello(s: State, valid: bool): (t: State)
    requires s.WellFormed() && s.opening.Greeting? && !s.requests[s.opening.hello].Live()
    ensures t.WellFormed() && |t.requests| == |s.requests|
  {
    var phase := s.requests[s.opening.hello].phase;
    if phase.Returned? && valid then s.(state := Open, opening := OpenReturned)
    else
      var error := if phase.Threw? then phase.error else VersionMismatch;
      StartCleanup(SignalFailure(s, error)).(opening := OpenJoining(error))
  }

  /** The events of a request's own write and timer; the others concern its handlers. */
  predicate IsWrite(e: RequestEvent) { e.Accepted? || e.Flushed? || e.WriteStopped? || e.WriteThrew? }

  predicate IsOwn(e: RequestEvent) { IsWrite(e) || e.TimerFired? }

  function OwnStep(r: Request, e: RequestEvent): Request
    requires IsOwn(e)
  {
    match e
    case Accepted(bytes) => r.(offset := r.offset + bytes)
    case Flushed => r.(flushed := true)
    case WriteStopped => r.(broken := Some(Aborted))
    case WriteThrew => r.(broken := Some(WriteFailed))
    case TimerFired => r.(timedOut := true)
  }

  function RequestStep(s: State, k: nat, e: RequestEvent): (t: State)
    requires s.WellFormed() && k < |s.requests| && RequestCan(s.requests[k], CleanedUp(s), e)
    ensures t.WellFormed() && |t.requests| == |s.requests|
  {
    var r := s.requests[k];
    match e
    case RaceWon => EndRequest(s, k, Returned(r.reply.value))
    case RaceLost(error) => Teardown(s, k, error)
    case RequestCleaned => EndRequest(Joined(s), k, Threw(r.phase.error))
    case SignalFired => SignalFailure(WithRequest(s, k, r.(aborted := true)), Aborted)
    case _ => WithRequest(s, k, OwnStep(r, e))
  }

  function HelperStep(s: State, e: HelperEvent): (t: State)
    requires s.WellFormed() && HelperCan(s, e)
    ensures t.WellFormed() && |t.requests| == |s.requests|
  {
    match e
    case FrameRead(frame) => DispatchFrame(s, frame)
    case StdoutEnded => if s.pending.Some? || s.Connected() then SignalFailure(s, Eof) else s
    case StdoutThrew => SignalIfConnected(s, ReadFailed)
    case StderrFlooded => SignalFailure(s, StderrFlood)
    case ProcessExited => NoteExit(s)
    case ExitSeen => SignalIfConnected(ConfirmExit(s), HelperExit)
    case ExitThrew => SignalIfConnected(s, ExitFailed)
    case ReadersJoined => AfterReaders(s)
    case ExitAwaited => Release(s)
    case ReapTimedOut => GiveUpReaping(s)
  }

  function Step(s: State, e: Event, maxFrame: nat): (t: State)
    requires Enabled(s, e)
    ensures t.WellFormed() && |t.requests| >= |s.requests|
  {
    match e
    case Opened(size) => StartRequest(SpawnHelper(s), Hello, size, maxFrame, false).(opening := Greeting(|s.requests|))
    case OpenStuck => s.(state := Starting, opening := OpenThrew(TransportFailed))
    case OpenRefused => s.(state := Failed, opening := OpenThrew(TransportFailed))
    case OpenAnswered(valid) => AfterHello(s, valid)
    case OpenCleaned => Joined(s).(opening := OpenThrew(s.opening.error))
    case OpenSignalFired => SignalFailure(s, Aborted)
    case Called(size, signalled) =>
      StartRequest(s, Ordinary, size, maxFrame, signalled).(inflight := Some(|s.requests|))
    case CallEnded => s.(inflight := None)
    case CloseCalled(size) => BeginClose(s, size, maxFrame)
    case ShutdownEnded => JoinForClose(s, s.closing.wasFailed)
    case CloseCleaned => FinishClose(s, s.closing.wasFailed)
    case OfRequest(k, request) => RequestStep(s, k, request)
    case OfHelper(helper) => HelperStep(s, helper)
  }

  // ---------------------------------------------------------------- runs

  /** The states of a session, one more than its events. */
  ghost predicate IsRun(states: seq<State>, events: seq<Event>, maxFrame: nat) {
    && |states| == |events| + 1 && states[0] == INITIAL
    && forall i :: 0 <= i < |events| ==>
      Enabled(states[i], events[i]) && states[i + 1] == Step(states[i], events[i], maxFrame)
  }
}
