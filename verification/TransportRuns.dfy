/** Safety of the transport over whole runs: every session, every interleaving of its steps. */
module TransportRuns {
  import opened Wrappers
  import opened TransportModel
  import opened TransportProofs

  lemma InitialInv()
    ensures Inv(INITIAL)
  {
  }

  /** The invariant holds in every state of every run. */
  lemma {:induction false} RunKeepsInv(states: seq<State>, events: seq<Event>, maxFrame: nat, i: nat)
    requires IsRun(states, events, maxFrame) && i < |states|
    ensures Inv(states[i])
  {
    hide Inv, Step, Enabled;
    InitialInv();
    if i > 0 {
      RunKeepsInv(states, events, maxFrame, i - 1);
      assert Enabled(states[i - 1], events[i - 1]) && states[i - 1 + 1] == Step(states[i - 1], events[i - 1], maxFrame);
      StepKeepsInv(states[i - 1], events[i - 1], maxFrame);
    }
  }

  // ---------------------------------------------------------------- ownership

  /** In every state: at most one cleanup was begun, and a helper that was started is owned until its exit is known. */
  lemma OwnershipOverRuns(states: seq<State>, events: seq<Event>, maxFrame: nat, i: nat)
    requires IsRun(states, events, maxFrame) && i < |states|
    ensures states[i].cleanups <= 1
    ensures states[i].spawned && !states[i].owned ==> states[i].exited && states[i].exitConfirmed
    ensures states[i].pid ==> states[i].owned
  {
    hide IsRun;
    RunKeepsInv(states, events, maxFrame, i);
  }

  /**
   A close that gets to its end returns normally exactly if nothing is owned unconfirmed; otherwise it keeps
   handle and pid.
   */
  lemma CloseOverRuns(states: seq<State>, events: seq<Event>, maxFrame: nat, i: nat)
    requires IsRun(states, events, maxFrame) && i < |events| && events[i] == CloseCleaned
    ensures var s, t := states[i], states[i + 1];
      && (t.closeOutcome.ClosedNormally? || t.closeOutcome.CloseThrew?)
      && (t.closeOutcome.ClosedNormally? <==> !s.spawned || s.exitConfirmed)
      && (t.closeOutcome.ClosedNormally? ==> !t.spawned || t.exited)
      && (t.closeOutcome.CloseThrew? ==> t.owned && t.pid && t.state.Failed?)
  {
    RunKeepsInv(states, events, maxFrame, i);
    RunKeepsInv(states, events, maxFrame, i + 1);
    var s, t := states[i], states[i + 1];
    assert Enabled(s, events[i]) && t == Step(s, events[i], maxFrame);
    hide IsRun, RepliesOk, NumbersOk, ResultsOk, LiveOk;
    CloseOutcomeIs(s, s.closing.wasFailed);
  }

  lemma CloseOutcomeIs(s: State, wasFailed: bool)
    requires s.WellFormed() && OwnerOk(s) && CleanedUp(s)
    ensures var t := FinishClose(s, wasFailed);
      && t.owned == s.owned && t.exitConfirmed == s.exitConfirmed && t.spawned == s.spawned && t.exited == s.exited
      && (if s.owned && !s.exitConfirmed then t.closeOutcome.CloseThrew? && t.state.Failed? && t.pid == s.pid
          else t.closeOutcome.ClosedNormally?)
      && (s.owned && !s.exitConfirmed <==> s.spawned && !s.exitConfirmed)
  {
  }

  /** A close that returns at once, because the session is closed and owns nothing, may do so. */
  lemma EarlyCloseIsSafe(states: seq<State>, events: seq<Event>, maxFrame: nat, i: nat)
    requires IsRun(states, events, maxFrame) && i < |states| && states[i].state.Closed? && !states[i].owned
    ensures !states[i].spawned || (states[i].exited && states[i].exitConfirmed)
  {
    hide IsRun;
    RunKeepsInv(states, events, maxFrame, i);
  }

  // ---------------------------------------------------------------- what a step does to a request

  /** A settled reply and an ended request never change; nothing but a frame answers. */
  ghost predicate Follows(r: Request, r': Request) {
    && r'.number == r.number && r'.kind == r.kind && r'.size == r.size
    && (r.reply.Waiting? || r'.reply == r.reply)
    && (r.Live() || r'.phase == r.phase)
    && (r.aborted ==> r'.aborted)
  }

  ghost predicate Unanswered(r: Request, r': Request) {
    r'.reply.Got? ==> r'.reply == r.reply
  }

  ghost predicate Quiet(before: seq<Request>, after: seq<Request>) {
    && |after| >= |before|
    && (forall k :: 0 <= k < |before| ==> Follows(before[k], after[k]) && Unanswered(before[k], after[k]))
    && (forall k :: |before| <= k < |after| ==> !after[k].reply.Got?)
  }

  lemma QuietTwice(a: seq<Request>, b: seq<Request>, c: seq<Request>)
    requires Quiet(a, b) && Quiet(b, c)
    ensures Quiet(a, c)
  {
  }

  lemma SignalledIsQuiet(s: State, t: State)
    requires Signalled(s, t)
    ensures Quiet(s.requests, t.requests)
  {
  }

  lemma FailureIsQuiet(s: State, error: Error)
    requires s.WellFormed()
    ensures Quiet(s.requests, SignalFailure(s, error).requests)
  {
    hide SignalFailure, Signalled, Quiet;
    FailureIsSignal(s, error);
    SignalledIsQuiet(s, SignalFailure(s, error));
  }

  lemma OneIsQuiet(s: State, k: nat, r: Request)
    requires s.WellFormed() && k < |s.requests| && Follows(s.requests[k], r) && Unanswered(s.requests[k], r)
    ensures Quiet(s.requests, WithRequest(s, k, r).requests)
  {
  }

  lemma StartIsQuiet(s: State, kind: Kind, size: nat, maxFrame: nat, signalled: bool)
    requires s.WellFormed()
    ensures Quiet(s.requests, StartRequest(s, kind, size, maxFrame, signalled).requests)
  {
    hide StartRequest, NextNumber;
    var base, r, installed := StartCases(s, kind, size, maxFrame, signalled);
  }

  lemma EndIsQuiet(s: State, k: nat, phase: Phase)
    requires s.WellFormed() && k < |s.requests| && s.requests[k].Live()
    ensures Quiet(s.requests, EndRequest(s, k, phase).requests)
  {
  }

  lemma TeardownIsQuiet(s: State, k: nat, error: Error)
    requires Inv(s) && k < |s.requests| && s.requests[k].Live()
    ensures Quiet(s.requests, Teardown(s, k, error).requests)
  {
    hide Inv, Signalled, Quiet, EndRequest, Teardown;
    InvIsWellFormed(s);
    var t := TeardownSignals(s, k, error);
    SignalledIsQuiet(s, t);
    PhaseStays(s, t, k);
    SameOpening(s, t);
    if t.cleanup.Idle? {
      EndIsQuiet(t, k, Threw(error));
    } else {
      OneIsQuiet(t, k, t.requests[k].(phase := Joining(error)));
    }
    QuietTwice(s.requests, t.requests, Teardown(s, k, error).requests);
  }

  lemma RequestStepIsQuiet(s: State, k: nat, e: RequestEvent)
    requires Inv(s) && k < |s.requests| && RequestCan(s.requests[k], CleanedUp(s), e)
    ensures Quiet(s.requests, RequestStep(s, k, e).requests)
  {
    hide Inv, Quiet, Teardown, EndRequest, SignalFailure, Joined, RequestStep;
    InvIsWellFormed(s);
    RequestStepIs(s, k, e);
    var r := s.requests[k];
    match e
    case RaceWon => EndIsQuiet(s, k, Returned(r.reply.value));
    case RaceLost(error) => TeardownIsQuiet(s, k, error);
    case RequestCleaned =>
      JoinedRest(s);
      EndIsQuiet(Joined(s), k, Threw(r.phase.error));
    case SignalFired => AbortIsQuiet(s, k);
    case _ => OneIsQuiet(s, k, OwnStep(r, e));
  }

  lemma AbortIsQuiet(s: State, k: nat)
    requires s.WellFormed() && k < |s.requests|
    ensures Quiet(s.requests, SignalFailure(WithRequest(s, k, s.requests[k].(aborted := true)), Aborted).requests)
  {
    hide Quiet, SignalFailure;
    var s1 := WithRequest(s, k, s.requests[k].(aborted := true));
    OneIsQuiet(s, k, s.requests[k].(aborted := true));
    FailureIsQuiet(s1, Aborted);
    QuietTwice(s.requests, s1.requests, SignalFailure(s1, Aborted).requests);
  }

  /** The frame that answers request k with a value. */
  ghost predicate AnswersWith(s: State, e: Event, k: nat, value: Value) {
    && s.WellFormed() && s.pending == Some(k)
    && e == OfHelper(FrameRead(Response(IdOf(s.requests[k].number), true, value)))
  }

  /** What a frame does: settle the pending request with its content, or signal a failure. */
  lemma FrameFollows(s: State, frame: Incoming)
    requires Inv(s)
    ensures var t := DispatchFrame(s, frame);
      forall k :: 0 <= k < |s.requests| ==>
        && Follows(s.requests[k], t.requests[k])
        && (Unanswered(s.requests[k], t.requests[k])
          || AnswersWith(s, OfHelper(FrameRead(frame)), k, t.requests[k].reply.value))
  {
    hide Inv, SignalFailure, IdOf, Remember;
    InvIsWellFormed(s);
    var error := FrameError(s, frame, s.seen);
    if error.Some? {
      FailureIsQuiet(s, error.value);
    } else {
      var t, k := DispatchFrame(s, frame), s.pending.value;
      assert forall j :: 0 <= j < |s.requests| && j != k ==> t.requests[j] == s.requests[j];
    }
  }

  ghost predicate StepFollowed(s: State, e: Event, t: State) {
    && |t.requests| >= |s.requests|
    && (forall k :: 0 <= k < |s.requests| ==>
         && Follows(s.requests[k], t.requests[k])
         && (Unanswered(s.requests[k], t.requests[k]) || AnswersWith(s, e, k, t.requests[k].reply.value)))
    && (forall k :: |s.requests| <= k < |t.requests| ==> !t.requests[k].reply.Got?)
  }

  lemma QuietFollows(s: State, e: Event, t: State)
    requires Quiet(s.requests, t.requests)
    ensures StepFollowed(s, e, t)
  {
  }

  lemma SameIsQuiet(requests: seq<Request>)
    ensures Quiet(requests, requests)
  {
  }

  lemma HelperStepFollows(s: State, e: HelperEvent)
    requires Inv(s) && HelperCan(s, e)
    ensures StepFollowed(s, OfHelper(e), HelperStep(s, e))
  {
    hide Inv, SignalFailure, DispatchFrame, Quiet;
    InvIsWellFormed(s);
    SameIsQuiet(s.requests);
    match e
    case FrameRead(frame) => FrameFollows(s, frame);
    case StdoutEnded => FailureIsQuiet(s, Eof); QuietFollows(s, OfHelper(e), HelperStep(s, e));
    case StdoutThrew => FailureIsQuiet(s, ReadFailed); QuietFollows(s, OfHelper(e), HelperStep(s, e));
    case StderrFlooded => FailureIsQuiet(s, StderrFlood); QuietFollows(s, OfHelper(e), HelperStep(s, e));
    case ExitSeen => FailureIsQuiet(ConfirmExit(s), HelperExit); QuietFollows(s, OfHelper(e), HelperStep(s, e));
    case ExitThrew => FailureIsQuiet(s, ExitFailed); QuietFollows(s, OfHelper(e), HelperStep(s, e));
    case _ => QuietFollows(s, OfHelper(e), HelperStep(s, e));
  }

  lemma CleanupIsQuiet(s: State)
    requires s.WellFormed()
    ensures Quiet(s.requests, StartCleanup(s).requests)
    ensures Quiet(s.requests, RejectPending(s, BeingClosed).requests)
    ensures Quiet(s.requests, StartCleanup(RejectPending(s, BeingClosed)).requests)
  {
    hide Signalled, StartCleanup, RejectPending, Quiet;
    StartCleanupIsSignal(s);
    SignalledIsQuiet(s, StartCleanup(s));
    RejectIsSignal(s, BeingClosed);
    SignalledIsQuiet(s, RejectPending(s, BeingClosed));
    CleanupSignals(s);
    SignalledIsQuiet(s, StartCleanup(RejectPending(s, BeingClosed)));
  }

  lemma AfterHelloIsQuiet(s: State, valid: bool)
    requires s.WellFormed() && s.opening.Greeting? && !s.requests[s.opening.hello].Live()
    ensures Quiet(s.requests, AfterHello(s, valid).requests)
  {
    hide SignalFailure, StartCleanup, Quiet;
    var phase := s.requests[s.opening.hello].phase;
    if phase.Returned? && valid {
      SameIsQuiet(s.requests);
    } else {
      var error := if phase.Threw? then phase.error else VersionMismatch;
      FailureIsQuiet(s, error);
      CleanupIsQuiet(SignalFailure(s, error));
      QuietTwice(s.requests, SignalFailure(s, error).requests, StartCleanup(SignalFailure(s, error)).requests);
    }
  }

  lemma BeginCloseIsQuiet(s: State, size: nat, maxFrame: nat)
    requires s.WellFormed()
    ensures Quiet(s.requests, BeginClose(s, size, maxFrame).requests)
  {
    hide StartRequest, StartCleanup, RejectPending, Quiet;
    var s0 := s.(state := if s.state.Failed? then Failed else Closing, abortListening := false, closeCalled := true);
    var s1 := RejectPending(s0, BeingClosed);
    CleanupIsQuiet(s0);
    CleanupIsQuiet(s1);
    StartIsQuiet(s1, Shutdown, size, maxFrame, false);
    var wasFailed := s.state.Failed? || s.failError.Some?;
    if !wasFailed && s1.owned && !s1.exited {
      QuietTwice(s.requests, s1.requests, StartRequest(s1, Shutdown, size, maxFrame, false).requests);
    } else {
      QuietTwice(s.requests, s1.requests, StartCleanup(RejectPending(s1, BeingClosed)).requests);
    }
  }

  /** The requests after an event that neither starts a request nor belongs to one. */
  lemma OtherRequests(s: State, e: Event, maxFrame: nat)
    requires Enabled(s, e) && !e.OfHelper? && !e.OfRequest? && !e.Opened? && !e.Called? && !e.CloseCalled?
    ensures var after := Step(s, e, maxFrame).requests;
      match e
      case OpenAnswered(valid) => after == AfterHello(s, valid).requests
      case OpenSignalFired => after == SignalFailure(s, Aborted).requests
      case ShutdownEnded => after == StartCleanup(RejectPending(s, BeingClosed)).requests
      case _ => after == s.requests
  {
    hide AfterHello, SignalFailure, StartCleanup, RejectPending;
  }

  lemma OtherStepIsQuiet(s: State, e: Event, maxFrame: nat)
    requires Inv(s) && Enabled(s, e) && !e.OfHelper? && !e.OfRequest? && !e.Opened? && !e.Called? && !e.CloseCalled?
    ensures Quiet(s.requests, Step(s, e, maxFrame).requests)
  {
    hide Inv, Quiet, Step, AfterHello, SignalFailure, StartCleanup, RejectPending;
    InvIsWellFormed(s);
    SameIsQuiet(s.requests);
    OtherRequests(s, e, maxFrame);
    match e
    case OpenAnswered(valid) => AfterHelloIsQuiet(s, valid);
    case OpenSignalFired => FailureIsQuiet(s, Aborted);
    case ShutdownEnded => CleanupIsQuiet(s);
    case _ =>
  }

  lemma StepIsQuiet(s: State, e: Event, maxFrame: nat)
    requires Inv(s) && Enabled(s, e) && !e.OfHelper?
    ensures Quiet(s.requests, Step(s, e, maxFrame).requests)
  {
    hide Inv, Quiet, StartRequest, BeginClose, AfterHello, SignalFailure, RequestStep, JoinForClose, RequestCan,
      FinishClose, Joined;
    InvIsWellFormed(s);
    match e
    case OfRequest(k, request) => RequestStepIsQuiet(s, k, request);
    case Opened(size) => StartIsQuiet(SpawnHelper(s), Hello, size, maxFrame, false);
    case Called(size, signalled) => StartIsQuiet(s, Ordinary, size, maxFrame, signalled);
    case CloseCalled(size) => BeginCloseIsQuiet(s, size, maxFrame);
    case _ => OtherStepIsQuiet(s, e, maxFrame);
  }

  lemma StepFollows(s: State, e: Event, maxFrame: nat)
    requires Inv(s) && Enabled(s, e)
    ensures StepFollowed(s, e, Step(s, e, maxFrame))
  {
    hide Inv, Quiet, StepFollowed, HelperStep, HelperCan;
    InvIsWellFormed(s);
    if e.OfHelper? {
      HelperStepFollows(s, e.helper);
    } else {
      hide Step;
      StepIsQuiet(s, e, maxFrame);
      QuietFollows(s, e, Step(s, e, maxFrame));
    }
  }

  lemma RunFollows(states: seq<State>, events: seq<Event>, maxFrame: nat, i: nat)
    requires IsRun(states, events, maxFrame) && i < |events|
    ensures |states| == |events| + 1 && StepFollowed(states[i], events[i], states[i + 1])
  {
    RunKeepsInv(states, events, maxFrame, i);
    hide Inv, Step, Enabled, StepFollowed;
    assert Enabled(states[i], events[i]) && states[i + 1] == Step(states[i], events[i], maxFrame);
    StepFollows(states[i], events[i], maxFrame);
  }

  // ---------------------------------------------------------------- request integrity

  /** At most one request of a session waits for a reply, and it is the pending one. */
  lemma OneOpenReply(states: seq<State>, events: seq<Event>, maxFrame: nat, i: nat, j: nat, k: nat)
    requires IsRun(states, events, maxFrame) && i < |states| && j < |states[i].requests| && k < |states[i].requests|
    requires states[i].requests[j].reply.Waiting? && states[i].requests[k].reply.Waiting?
    ensures j == k && states[i].pending == Some(k)
  {
    hide IsRun;
    RunKeepsInv(states, events, maxFrame, i);
  }

  ghost predicate AnsweredBy(states: seq<State>, events: seq<Event>, i: nat, k: nat, value: Value) {
    exists j :: 0 <= j < i && j < |events| && j < |states| && AnswersWith(states[j], events[j], k, value)
  }

  lemma RunStarts(states: seq<State>, events: seq<Event>, maxFrame: nat)
    requires IsRun(states, events, maxFrame)
    ensures |states| == |events| + 1 && states[0].requests == []
  {
  }

  lemma {:induction false} GotMeansAnswered(states: seq<State>, events: seq<Event>, maxFrame: nat, i: nat, k: nat)
    requires IsRun(states, events, maxFrame) && i < |states| && k < |states[i].requests|
      && states[i].requests[k].reply.Got?
    ensures AnsweredBy(states, events, i, k, states[i].requests[k].reply.value)
  {
    hide AnswersWith, Follows, IsRun;
    RunStarts(states, events, maxFrame);
    if i > 0 {
      RunFollows(states, events, maxFrame, i - 1);
      var s, value := states[i - 1], states[i].requests[k].reply.value;
      if k < |s.requests| && Unanswered(s.requests[k], states[i].requests[k]) {
        GotMeansAnswered(states, events, maxFrame, i - 1, k);
        var j :| 0 <= j < i - 1 && j < |events| && j < |states| && AnswersWith(states[j], events[j], k, value);
      } else {
        assert AnswersWith(s, events[i - 1], k, value);
      }
    }
  }

  /**
   A request that returned a value had its whole frame written and flushed, and a good response with its
   own id and that value arrived while it was pending.
   */
  lemma ReturnedMeansAnswered(states: seq<State>, events: seq<Event>, maxFrame: nat, i: nat, k: nat)
    requires IsRun(states, events, maxFrame) && i < |states| && k < |states[i].requests|
      && states[i].requests[k].phase.Returned?
    ensures var r := states[i].requests[k];
      && r.offset == r.size && r.flushed
      && AnsweredBy(states, events, i, k, r.phase.value)
  {
    RunKeepsInv(states, events, maxFrame, i);
    assert ResultOk(states[i].requests[k]);
    hide IsRun, AnsweredBy;
    GotMeansAnswered(states, events, maxFrame, i, k);
  }

  /** A request settles once: its outcome, once there, is there in every later state. */
  lemma {:induction false} SettlesOnce(states: seq<State>, events: seq<Event>, maxFrame: nat, i: nat, j: nat, k: nat)
    requires IsRun(states, events, maxFrame) && i <= j < |states| && k < |states[i].requests|
    ensures k < |states[j].requests|
    ensures !states[i].requests[k].reply.Waiting? ==> states[j].requests[k].reply == states[i].requests[k].reply
    ensures !states[i].requests[k].Live() ==> states[j].requests[k].phase == states[i].requests[k].phase
    decreases j
  {
    hide IsRun, AnswersWith, Unanswered;
    RunStarts(states, events, maxFrame);
    if i < j {
      SettlesOnce(states, events, maxFrame, i, j - 1, k);
      RunFollows(states, events, maxFrame, j - 1);
      assert Follows(states[j - 1].requests[k], states[j].requests[k]);
    }
  }

  /** Over every run, the replay window decides every frame as the unbounded history would. */
  lemma ReplayOverRuns(states: seq<State>, events: seq<Event>, maxFrame: nat, i: nat, frame: Incoming)
    requires IsRun(states, events, maxFrame) && i < |states| && states[i].WellFormed()
    ensures FrameError(states[i], frame, states[i].seen) == FrameError(states[i], frame, Ids(states[i].answered))
    ensures FrameError(states[i], frame, states[i].seen) != Some(DuplicateId)
    ensures states[i].pending.Some? ==>
      && states[i].requests[states[i].pending.value].number == states[i].sequence
      && forall n :: 0 <= n < |states[i].answered| ==> states[i].answered[n] < states[i].sequence
  {
    RunKeepsInv(states, events, maxFrame, i);
    hide IsRun, FrameError;
    ReplayWindowSuffices(states[i], frame);
  }
}
