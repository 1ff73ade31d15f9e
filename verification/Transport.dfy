/**
 The owned helper transport as the object it is: its fields, and one method for each stretch of code
 between two awaits. Each method is proved against the step of the session it performs, and says what that
 means for its caller.
 */
module Transport {
  import opened Wrappers
  import opened Bytes
  import opened TransportModel
  import opened TransportProofs
  import opened TransportEffects

  class OwnedHelperTransport {
    const maxFrame: nat
    var state: RuntimeState
    var owned: bool
    var pid: bool
    var exitConfirmed: bool
    var pending: Option<nat>
    var inflight: Option<nat>
    var sequence: nat
    var seenCompletions: seq<string>
    var failError: Option<Error>
    var cleanupError: Option<Error>
    var writerAbort: Option<nat>
    var requestCancel: Option<nat>
    var abortListening: bool
    var requests: seq<Request>
    var opening: Opening
    var closing: ClosePhase
    var cleanup: Cleanup
    var closeOutcome: CloseOutcome
    /** Whether the helper's exit code is there to be read. */
    var exited: bool
    ghost var spawned: bool
    ghost var cleanups: nat
    ghost var answered: seq<nat>
    ghost var closeCalled: bool

    ghost function View(): State
      reads this
    {
      State(
        state, owned, pid, exitConfirmed, pending, inflight, sequence, seenCompletions, failError, cleanupError,
        writerAbort, requestCancel, abortListening, requests, opening, closing, cleanup, closeOutcome, spawned, exited,
        cleanups, answered, closeCalled)
    }

    constructor (maxFrame: nat)
      ensures View() == INITIAL && this.maxFrame == maxFrame && Inv(View())
    {
      this.maxFrame := maxFrame;
      state, owned, pid, exitConfirmed, exited := Closed, false, false, false, false;
      pending, inflight, sequence, seenCompletions := None, None, 0, [];
      failError, cleanupError, writerAbort, requestCancel, abortListening := None, None, None, None, false;
      requests, opening, closing, cleanup, closeOutcome := [], NotOpened, NotClosing, Idle, NoOutcome;
      spawned, cleanups, answered, closeCalled := false, 0, [], false;
    }

    method RejectPending(error: Error)
      requires View().WellFormed()
      modifies this
      ensures View() == TransportModel.RejectPending(old(View()), error)
      ensures PendingRefused(old(View()), View(), error)
    {
      hide PendingRefused;
      RejectMeans(View(), error);
      if pending.None? { return; }
      var k := pending.value;
      pending := None;
      requests := requests[k := requests[k].Refuse(error)];
    }

    method ClearAbort()
      modifies this
      ensures View() == old(View()).(abortListening := false)
    {
      abortListening := false;
    }

    method CountCleanup()
      requires View().WellFormed()
      modifies this
      ensures View() == TransportModel.CountCleanup(old(View()))
    {
      cleanup := JoiningReaders;
      cleanups := cleanups + 1;
    }

    method BeginCleanup()
      requires View().WellFormed()
      modifies this
      ensures View() == TransportModel.BeginCleanup(old(View()))
    {
      hide PendingRefused, TransportModel.RejectPending, TransportModel.CountCleanup;
      ClearAbort();
      RejectPending(if failError.Some? then failError.value else TransportFailed);
      CountCleanup();
    }

    /** The cleanup up to its first wait; there is at most one. */
    method StartCleanup()
      requires View().WellFormed()
      modifies this
      ensures View() == TransportModel.StartCleanup(old(View()))
      ensures CleanupBegun(old(View()), View())
    {
      hide CleanupBegun, TransportModel.BeginCleanup;
      StartCleanupMeans(View());
      if cleanup.Idle? { BeginCleanup(); }
    }

    method SignalFailure(error: Error)
      requires View().WellFormed()
      modifies this
      ensures View() == TransportModel.SignalFailure(old(View()), error)
      ensures FailureSignalled(old(View()), View(), error)
    {
      hide FailureSignalled, PendingRefused, CleanupBegun;
      SignalFailureMeans(View(), error);
      AbortWriter();
      CancelRequest(error);
      if state.Closed? && !owned {
        RejectPending(error);
        return;
      }
      RecordFailure(error);
      RejectPending(error);
      StartCleanup();
    }

    method AbortWriter()
      requires View().WellFormed()
      modifies this
      ensures View() == TransportModel.AbortWriter(old(View()))
    {
      if writerAbort.Some? { requests := requests[writerAbort.value := requests[writerAbort.value].(aborted := true)]; }
    }

    method CancelRequest(error: Error)
      requires View().WellFormed()
      modifies this
      ensures View() == TransportModel.CancelRequest(old(View()), error)
    {
      if requestCancel.Some? {
        requests := requests[requestCancel.value := requests[requestCancel.value].Cancel(error)];
      }
    }

    method RecordFailure(error: Error)
      requires View().WellFormed()
      modifies this
      ensures View() == TransportModel.RecordFailure(old(View()), error)
    {
      if !state.Failed? && !state.Closing? { state := Failed; }
      if failError.None? { failError := Some(error); }
    }

    method NextId() returns (number: Option<nat>)
      requires View().WellFormed()
      modifies this
      ensures number.Some? <==> old(sequence) < MAX_REQUEST_SEQUENCE
      ensures View() == if number.Some? then NextNumber(old(View())) else old(View())
      ensures number.Some? ==> number.value == sequence
    {
      if sequence >= MAX_REQUEST_SEQUENCE { return None; }
      sequence := sequence + 1;
      number := Some(sequence);
    }

    /** A request up to its race. */
    method RequestWithTimeout(kind: Kind, size: nat, signalled: bool) returns (k: nat)
      requires View().WellFormed()
      modifies this
      ensures View() == StartRequest(old(View()), kind, size, maxFrame, signalled)
      ensures k == |old(requests)|
      ensures RequestAdded(old(View()), View(), kind, size, maxFrame, signalled)
    {
      hide RequestAdded, AddRefused, AddPending, NextNumber;
      StartMeans(View(), kind, size, maxFrame, signalled);
      k := |requests|;
      if pending.Some? {
        Refuse(NewRequest(0, kind, size, Some(Busy)));
      } else if signalled {
        Refuse(NewRequest(0, kind, size, Some(Aborted)));
      } else if !owned {
        Refuse(NewRequest(0, kind, size, Some(NoHelper)));
      } else {
        var number := NextId();
        if number.None? {
          Refuse(NewRequest(0, kind, size, Some(SequenceExhausted)));
        } else if size == 0 || size > maxFrame {
          Refuse(NewRequest(number.value, kind, size, Some(PayloadSize)));
        } else {
          Install(NewRequest(number.value, kind, 4 + size, None));
        }
      }
    }

    method Refuse(r: Request)
      requires View().WellFormed()
      modifies this
      ensures View() == AddRefused(old(View()), r)
    {
      requests := requests + [r];
    }

    method Install(r: Request)
      requires View().WellFormed()
      modifies this
      ensures View() == AddPending(old(View()), r)
    {
      var k := |requests|;
      requests := requests + [r];
      pending := Some(k);
      requestCancel := Some(k);
      writerAbort := Some(k);
    }

    method ClearHandlers(k: nat)
      requires View().WellFormed()
      modifies this
      ensures View() == ClearHolders(old(View()), k)
    {
      if requestCancel == Some(k) { requestCancel := None; }
      if writerAbort == Some(k) { writerAbort := None; }
    }

    /** The last block of a request: it takes down its own handlers and nobody else's. */
    method EndRequest(k: nat, phase: Phase)
      requires View().WellFormed() && k < |requests|
      modifies this
      ensures View() == TransportModel.EndRequest(old(View()), k, phase)
      ensures RequestEnded(old(View()), View(), k, phase)
    {
      hide RequestEnded, ClearHolders, WithRequest;
      EndMeans(View(), k, phase);
      SetRequest(k, requests[k].Cancel(NoHelper).(phase := phase));
      ClearHandlers(k);
    }

    method SetRequest(k: nat, r: Request)
      requires View().WellFormed() && k < |requests|
      modifies this
      ensures View() == WithRequest(old(View()), k, r)
    {
      requests := requests[k := r];
    }

    method ClearPending(k: nat)
      modifies this
      ensures View() == old(View()).(pending := if old(pending) == Some(k) then None else old(pending))
    {
      if pending == Some(k) { pending := None; }
    }

    method DropOwn(k: nat, error: Error)
      requires View().WellFormed() && k < |requests|
      modifies this
      ensures View() == TransportModel.DropOwn(old(View()), k, error)
    {
      SetRequest(k, requests[k].Refuse(error));
      ClearPending(k);
    }

    /** A lost race fails a connected session; otherwise it only stops its own writer and its own wait. */
    method FailIfConnected(k: nat, error: Error)
      requires View().WellFormed() && k < |requests|
      modifies this
      ensures View() == FailOrMark(old(View()), k, error)
    {
      hide FailureSignalled, TransportModel.SignalFailure, WithRequest;
      if state.Open? || state.Starting? {
        SignalFailure(error);
      } else {
        SetRequest(k, requests[k].(aborted := true).Cancel(error));
      }
    }

    /** The handler of a lost race. */
    method Teardown(k: nat, error: Error)
      requires View().WellFormed() && k < |requests|
      modifies this
      ensures View() == TransportModel.Teardown(old(View()), k, error)
      ensures RaceHandled(old(View()), View(), k, error)
    {
      hide RaceHandled, RequestEnded, TransportModel.DropOwn, TransportModel.EndRequest, WithRequest, FailOrMark;
      RaceMeans(View(), k, error);
      DropOwn(k, error);
      FailIfConnected(k, error);
      if cleanup.Idle? {
        EndRequest(k, Threw(error));
      } else {
        SetRequest(k, requests[k].(phase := Joining(error)));
      }
    }

    method DispatchFrame(frame: Incoming)
      requires View().WellFormed()
      modifies this
      ensures View() == TransportModel.DispatchFrame(old(View()), frame)
      ensures FrameHandled(old(View()), View(), frame)
    {
      hide FrameHandled, FailureSignalled, TransportModel.SignalFailure, IdOf;
      FrameMeans(View(), frame);
      if frame.Garbage? {
        SignalFailure(Malformed);
      } else if pending.None? {
        SignalFailure(Unexpected);
      } else if frame.id != IdOf(requests[pending.value].number) {
        SignalFailure(WrongId);
      } else if frame.id in seenCompletions {
        SignalFailure(DuplicateId);
      } else {
        Settle(frame);
      }
    }

    /** Records a completion in the window of the last 32 ids. */
    method Complete(id: string, number: nat)
      modifies this
      ensures View() == old(View()).(seen := Remember(old(seenCompletions), id), answered := old(answered) + [number])
    {
      seenCompletions := seenCompletions + [id];
      if |seenCompletions| > REPLAY_WINDOW { seenCompletions := seenCompletions[1..]; }
      answered := answered + [number];
    }

    method Settle(frame: Incoming)
      requires View().WellFormed() && FrameError(View(), frame, seenCompletions).None?
      modifies this
      ensures View() == TransportModel.DispatchFrame(old(View()), frame)
    {
      hide IdOf, Remember;
      var k := pending.value;
      SetRequest(k, if requests[k].reply.Waiting? then requests[k].(reply := Answer(frame)) else requests[k]);
      ClearPending(k);
      Complete(frame.id, requests[k].number);
    }

    // ------------------------------------------------------------ open and close

    method TakeOwnership()
      modifies this
      ensures View() == old(View()).(owned := true, pid := true, exitConfirmed := false, spawned := true)
    {
      owned, pid, exitConfirmed, spawned := true, true, false, true;
    }

    method Spawn()
      requires View().WellFormed()
      modifies this
      ensures View() == SpawnHelper(old(View()))
    {
      TakeOwnership();
      state, abortListening := Starting, true;
    }

    method Open(size: nat)
      requires View().WellFormed() && CanOpen(View())
      modifies this
      ensures View() == Step(old(View()), Opened(size), maxFrame)
    {
      hide RequestAdded, StartRequest, HelperStep, RequestStep;
      Spawn();
      var hello := RequestWithTimeout(Hello, size, false);
      opening := Greeting(hello);
    }

    /** The opening routine after its hello; it says open without looking at the state again. */
    method AfterHello(valid: bool)
      requires View().WellFormed() && opening.Greeting? && !requests[opening.hello].Live()
      modifies this
      ensures View() == TransportModel.AfterHello(old(View()), valid)
      ensures OpenDecided(old(View()), View(), valid)
    {
      hide OpenDecided, FailureSignalled, CleanupBegun, TransportModel.SignalFailure, TransportModel.StartCleanup;
      HelloMeans(View(), valid);
      var phase := requests[opening.hello].phase;
      if phase.Returned? && valid {
        state := RuntimeState.Open;
        opening := OpenReturned;
      } else {
        var error := if phase.Threw? then phase.error else VersionMismatch;
        SignalFailure(error);
        StartCleanup();
        opening := OpenJoining(error);
      }
    }

    method Request(size: nat, signalled: bool) returns (accepted: bool)
      requires View().WellFormed()
      modifies this
      ensures accepted <==> Enabled(old(View()), Called(size, signalled))
      ensures View() == if accepted then Step(old(View()), Called(size, signalled), maxFrame) else old(View())
    {
      hide RequestAdded, StartRequest, HelperStep, RequestStep;
      if !state.Open? { return false; }
      if inflight.Some? { return false; }
      var k := RequestWithTimeout(Ordinary, size, signalled);
      inflight := Some(k);
      accepted := true;
    }

    method JoinForClose(wasFailed: bool)
      requires View().WellFormed()
      modifies this
      ensures View() == TransportModel.JoinForClose(old(View()), wasFailed)
    {
      hide PendingRefused, CleanupBegun, TransportModel.StartCleanup, TransportModel.RejectPending;
      RejectPending(BeingClosed);
      StartCleanup();
      closing := AwaitingCleanup(wasFailed);
    }

    method MarkClosing()
      requires View().WellFormed()
      modifies this
      ensures View() == TransportModel.MarkClosing(old(View()))
    {
      if !state.Failed? { state := Closing; }
      abortListening := false;
      closeCalled := true;
    }

    method BeginClose(size: nat)
      requires View().WellFormed()
      modifies this
      ensures View() == TransportModel.BeginClose(old(View()), size, maxFrame)
      ensures CloseBegun(old(View()), View(), size, maxFrame)
    {
      hide CloseBegun, PendingRefused, TransportModel.MarkClosing, TransportModel.AskToEnd,
        TransportModel.RejectPending;
      CloseMeans(View(), size, maxFrame);
      var wasFailed := state.Failed? || failError.Some?;
      MarkClosing();
      RejectPending(BeingClosed);
      AskToEnd(wasFailed, size);
    }

    method AskToEnd(wasFailed: bool, size: nat)
      requires View().WellFormed()
      modifies this
      ensures View() == TransportModel.AskToEnd(old(View()), wasFailed, size, maxFrame)
    {
      hide RequestAdded, StartRequest, TransportModel.JoinForClose;
      if !wasFailed && owned && !exited {
        var k := RequestWithTimeout(Shutdown, size, false);
        closing := AwaitingShutdown(k, wasFailed);
      } else {
        JoinForClose(wasFailed);
      }
    }

    /** The failure of the cleanup is recorded once. */
    method JoinCleanup()
      requires View().WellFormed()
      modifies this
      ensures View() == Joined(old(View()))
    {
      if cleanup.Unconfirmed? && cleanupError.None? { cleanupError := Some(ReapDeadline); }
    }

    method EndClose(wasFailed: bool)
      requires View().WellFormed()
      modifies this
      ensures View() == TransportModel.EndClose(old(View()), wasFailed)
    {
      closing := NotClosing;
      if owned && !exitConfirmed {
        state := Failed;
        closeOutcome := CloseThrew;
        return;
      }
      CloseNormally(wasFailed);
    }

    method CloseNormally(wasFailed: bool)
      modifies this
      ensures View() == old(View()).(
        pid := false, closeOutcome := ClosedNormally,
        state := if old(owned) && (wasFailed || old(failError).Some?) then Failed else Closed)
    {
      pid := false;
      state := if wasFailed || failError.Some? then Failed else Closed;
      if !owned { state := Closed; }
      closeOutcome := ClosedNormally;
    }

    method FinishClose(wasFailed: bool)
      requires View().WellFormed()
      modifies this
      ensures View() == TransportModel.FinishClose(old(View()), wasFailed)
      ensures CloseFinished(old(View()), View())
    {
      hide CloseFinished, TransportModel.EndClose;
      FinishMeans(View(), wasFailed);
      JoinCleanup();
      EndClose(wasFailed);
    }

    // ------------------------------------------------------------ the waits of the cleanup

    method AfterReaders()
      requires View().WellFormed()
      modifies this
      ensures View() == TransportModel.AfterReaders(old(View()))
      ensures ReadersDone(old(View()), View())
    {
      hide ReadersDone;
      ReadersMean(View());
      if !owned {
        cleanup := Finished;
      } else if exitConfirmed || exited {
        Release();
      } else {
        cleanup := AwaitingExit;
      }
    }

    method Release()
      requires View().WellFormed()
      modifies this
      ensures View() == TransportModel.Release(old(View()))
    {
      exitConfirmed, owned, pid, cleanup := true, false, false, Finished;
    }

    method GiveUpReaping()
      requires View().WellFormed()
      modifies this
      ensures View() == TransportModel.GiveUpReaping(old(View()))
    {
      pid, cleanup, cleanupError := true, Unconfirmed, Some(ReapDeadline);
    }

    // ------------------------------------------------------------ events

    method OnRequest(k: nat, e: RequestEvent)
      requires View().WellFormed() && k < |requests| && RequestCan(requests[k], CleanedUp(View()), e)
      modifies this
      ensures View() == RequestStep(old(View()), k, e)
    {
      hide RaceHandled, RequestEnded, FailureSignalled, TransportModel.Teardown, TransportModel.EndRequest,
        TransportModel.SignalFailure, Joined, WithRequest, RequestCan;
      RequestCanMeans(requests[k], CleanedUp(View()), e);
      var r := requests[k];
      match e
      case RaceWon => EndRequest(k, Returned(r.reply.value));
      case RaceLost(error) => Teardown(k, error);
      case RequestCleaned =>
        JoinCleanup();
        EndRequest(k, Threw(r.phase.error));
      case SignalFired =>
        SetRequest(k, r.(aborted := true));
        SignalFailure(Aborted);
      case _ => SetRequest(k, OwnStep(r, e));
    }

    method OnHelper(e: HelperEvent)
      requires View().WellFormed() && HelperCan(View(), e)
      modifies this
      ensures View() == HelperStep(old(View()), e)
    {
      hide FrameHandled, FailureSignalled, ReadersDone, TransportModel.SignalFailure, TransportModel.DispatchFrame,
        TransportModel.AfterReaders, TransportModel.Release, TransportModel.GiveUpReaping;
      match e
      case FrameRead(frame) => DispatchFrame(frame);
      case StdoutEnded => if pending.Some? || state.Open? || state.Starting? { SignalFailure(Eof); }
      case StdoutThrew => if state.Open? || state.Starting? { SignalFailure(ReadFailed); }
      case StderrFlooded => SignalFailure(StderrFlood);
      case ProcessExited => exited := true;
      case ExitSeen =>
        exitConfirmed := true;
        if state.Open? || state.Starting? { SignalFailure(HelperExit); }
      case ExitThrew => if state.Open? || state.Starting? { SignalFailure(ExitFailed); }
      case ReadersJoined => AfterReaders();
      case ExitAwaited => Release();
      case ReapTimedOut => GiveUpReaping();
    }

    /** One step of the session; whatever the order of the steps, the invariant is kept. */
    method Handle(e: Event)
      requires Enabled(View(), e) && Inv(View())
      modifies this
      ensures View() == Step(old(View()), e, maxFrame) && Inv(View())
    {
      hide CloseBegun, CloseFinished, OpenDecided, FailureSignalled, Inv, StartRequest, TransportModel.BeginClose,
        TransportModel.JoinForClose, TransportModel.FinishClose, TransportModel.AfterHello, Joined,
        TransportModel.SignalFailure, RequestStep, HelperStep, RequestCan, HelperCan;
      StepKeepsInv(View(), e, maxFrame);
      match e
      case Opened(size) => Open(size);
      case OpenStuck => NotOpen(Starting);
      case OpenRefused => NotOpen(Failed);
      case OpenAnswered(valid) => AfterHello(valid);
      case OpenCleaned => OpenFailed();
      case OpenSignalFired => SignalFailure(Aborted);
      case Called(size, signalled) => var accepted := Request(size, signalled);
      case CallEnded => inflight := None;
      case CloseCalled(size) => BeginClose(size);
      case ShutdownEnded => JoinForClose(closing.wasFailed);
      case CloseCleaned => FinishClose(closing.wasFailed);
      case OfRequest(k, request) => OnRequest(k, request);
      case OfHelper(helper) => OnHelper(helper);
    }

    /** A start that never spawned: a bad path leaves the state at starting, every other refusal is a failure. */
    method NotOpen(next: RuntimeState)
      requires View().WellFormed()
      modifies this
      ensures View() == old(View()).(state := next, opening := OpenThrew(TransportFailed))
    {
      state, opening := next, OpenThrew(TransportFailed);
    }

    method OpenFailed()
      requires View().WellFormed() && opening.OpenJoining?
      modifies this
      ensures View() == Joined(old(View())).(opening := OpenThrew(old(opening).error))
    {
      var error := opening.error;
      JoinCleanup();
      opening := OpenThrew(error);
    }
  }

  // -------------------------------------------------------------- writing a frame

  /**
   What the sink does on one turn, a write or the last flush: how much it takes, and whether the abort fired
   meanwhile.
   */
  datatype Turn = Turn(bytes: nat, aborts: bool)

  datatype WriteOutcome = AllWritten | WriteAborted | StillWriting

  /** The request is about to be written; its signal may have fired already. */
  predicate ReadyToWrite(r: Request, data: seq<Byte>) {
    r.size == |data| && r.offset == 0 && !r.flushed && r.broken.None?
  }

  /** What the outcome says of the request, given the bytes the sink took. */
  predicate Written(r: Request, data: seq<Byte>, sent: seq<Byte>, outcome: WriteOutcome) {
    && r.size == |data| && r.offset <= |sent|
    && (outcome.AllWritten? <==> r.flushed) && (outcome.WriteAborted? <==> r.broken == Some(Aborted))
    && (outcome.AllWritten? ==> r.offset == r.size)
    && (outcome.StillWriting? ==> !r.aborted && r.broken.None? && r.offset == |sent|)
  }

  /** The bytes the sink is ready to take on these turns. */
  ghost function Taken(turns: seq<Turn>): nat {
    if turns == [] then 0 else Taken(turns[..|turns| - 1]) + turns[|turns| - 1].bytes
  }

  /** The write of so many bytes comes to this turn: no earlier one aborts, and the one before it still was a write. */
  ghost predicate Reaches(turns: seq<Turn>, size: nat, k: nat) {
    && k < |turns| && (k > 0 ==> Taken(turns[..k - 1]) < size)
    && forall j :: 0 <= j < k ==> !turns[j].aborts
  }

  /** The turn of the flush, with everything taken before it. */
  ghost predicate Flushes(turns: seq<Turn>, size: nat, k: nat) {
    Reaches(turns, size, k) && Taken(turns[..k]) >= size && !turns[k].aborts
  }

  ghost predicate Aborts(turns: seq<Turn>, size: nat, k: nat) {
    Reaches(turns, size, k) && turns[k].aborts
  }

  function Lesser(a: nat, b: nat): nat { if a <= b then a else b }

  lemma TakenMore(turns: seq<Turn>, k: nat)
    requires k < |turns|
    ensures Taken(turns[..k + 1]) == Taken(turns[..k]) + turns[k].bytes
  {
    assert turns[..k + 1][..k] == turns[..k];
  }

  lemma TakenEnds(turns: seq<Turn>, k: nat)
    requires k <= |turns|
    ensures k == 0 ==> Taken(turns[..k]) == 0
    ensures if k < |turns| then Taken(turns[..k + 1]) == Taken(turns[..k]) + turns[k].bytes else turns[..k] == turns
  {
    if k < |turns| { TakenMore(turns, k); }
  }

  lemma {:induction false} TakenGrows(turns: seq<Turn>, j: nat, k: nat)
    requires j <= k <= |turns|
    ensures Taken(turns[..j]) <= Taken(turns[..k])
    decreases k - j
  {
    if j < k {
      TakenGrows(turns, j, k - 1);
      TakenMore(turns, k - 1);
    }
  }

  /** A turn that flushes or aborts is the only such turn. */
  lemma Decided(turns: seq<Turn>, size: nat, k: nat)
    requires Flushes(turns, size, k) || Aborts(turns, size, k)
    ensures forall j: nat :: Flushes(turns, size, j) || Aborts(turns, size, j) ==> j == k
  {
    forall j: nat | Flushes(turns, size, j) || Aborts(turns, size, j) ensures j == k {
      if k < j { TakenGrows(turns, k, j - 1); }
      if j < k { TakenGrows(turns, j, k - 1); }
    }
  }

  lemma Undecided(turns: seq<Turn>, size: nat)
    requires |turns| > 0 ==> Taken(turns[..|turns| - 1]) < size
    requires forall j :: 0 <= j < |turns| ==> !turns[j].aborts
    ensures forall k: nat :: !Flushes(turns, size, k) && !Aborts(turns, size, k)
  {
    forall k: nat | Reaches(turns, size, k) ensures Taken(turns[..k]) < size { TakenGrows(turns, k, |turns| - 1); }
  }

  /**
   The write loop against a sink that answers turn by turn. What it does to the request are write events of the
   session, possible when they happen. It ends well exactly if the sink takes the whole frame and answers the
   flush before any abort; the first abort it meets stops it; what the sink took is exactly as much of the front
   of the frame as it was ready to take until then.
   */
  method WriteAll(data: seq<Byte>, turns: seq<Turn>, aborted: bool, ghost r: Request)
    returns (sent: seq<Byte>, outcome: WriteOutcome, ghost events: seq<WriteEvent>)
    requires ReadyToWrite(r, data) && r.aborted == aborted
    ensures outcome.AllWritten? <==> !aborted && exists k: nat :: Flushes(turns, |data|, k)
    ensures outcome.WriteAborted? <==> aborted || exists k: nat :: Aborts(turns, |data|, k)
    ensures outcome.AllWritten? ==> sent == data
    ensures outcome.StillWriting? ==> sent == data[..Lesser(Taken(turns), |data|)]
    ensures aborted ==> sent == []
    ensures forall k: nat :: !aborted && Aborts(turns, |data|, k) ==>
      sent == data[..Lesser(Taken(turns[..k + 1]), |data|)]
    ensures AfterWrite(r, events).Some? && Written(AfterWrite(r, events).value, data, sent, outcome)
  {
    hide AfterWrite, Taken;
    var offset, turn := 0, 0;
    sent, events := [], [];
    if aborted {
      StopsAtOnce(r);
      return [], WriteAborted, [Wrote(WriteStopped)];
    }
    WriteBegins(r);
    TakenEnds(turns, 0);
    while offset < |data|
      invariant 0 <= offset <= |data| && sent == data[..offset] && turn <= |turns|
      invariant offset == Lesser(Taken(turns[..turn]), |data|) && (turn > 0 ==> Taken(turns[..turn - 1]) < |data|)
      invariant forall j :: 0 <= j < turn ==> !turns[j].aborts
      invariant AfterWrite(r, events) == Some(r.(offset := offset))
      decreases |turns| - turn
    {
      TakenEnds(turns, turn);
      if turn == |turns| {
        Undecided(turns, |data|);
        return sent, StillWriting, events;
      }
      var answer := turns[turn];
      turn := turn + 1;
      var chunk := data[offset..];
      var written := if answer.bytes <= |chunk| then answer.bytes else |chunk|;
      sent := sent + chunk[..written];
      assert sent == data[..offset + written];
      if answer.aborts {
        Decided(turns, |data|, turn - 1);
        events := Stop(r, events);
        return sent, WriteAborted, events;
      }
      if written > 0 {
        AfterWriteAppend(r, events, Wrote(Accepted(written)));
        events := events + [Wrote(Accepted(written))];
        offset := offset + written;
      }
    }
    TakenEnds(turns, turn);
    if turn == |turns| {
      Undecided(turns, |data|);
      return sent, StillWriting, events;
    }
    Decided(turns, |data|, turn);
    if turns[turn].aborts {
      events := Stop(r, events);
      return sent, WriteAborted, events;
    }
    AfterWriteAppend(r, events, Wrote(Flushed));
    events := events + [Wrote(Flushed)];
    outcome := AllWritten;
  }

  lemma WriteBegins(r: Request)
    requires r.offset == 0
    ensures AfterWrite(r, []) == Some(r.(offset := 0))
  {
  }

  lemma StopsAtOnce(r: Request)
    requires r.aborted && !r.flushed && r.broken.None?
    ensures AfterWrite(r, [Wrote(WriteStopped)]) == Some(r.(broken := Some(Aborted)))
  {
    assert [Wrote(WriteStopped)][..0] == [];
  }

  /** The abort arrives and the write stops. */
  ghost method Stop(r: Request, events: seq<WriteEvent>) returns (more: seq<WriteEvent>)
    requires AfterWrite(r, events).Some? && !AfterWrite(r, events).value.flushed
      && AfterWrite(r, events).value.broken.None?
    ensures AfterWrite(r, more) == Some(AfterWrite(r, events).value.(aborted := true, broken := Some(Aborted)))
  {
    hide AfterWrite;
    AfterWriteAppend(r, events, AbortArrived);
    AfterWriteAppend(r, events + [AbortArrived], Wrote(WriteStopped));
    more := events + [AbortArrived] + [Wrote(WriteStopped)];
  }

  lemma RequestCanMeans(r: Request, cleanedUp: bool, e: RequestEvent)
    requires RequestCan(r, cleanedUp, e)
    ensures e.RaceWon? ==> r.reply.Got?
    ensures e.RequestCleaned? ==> r.phase.Joining?
  {
  }
}
