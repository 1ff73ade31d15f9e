/**
 Late teardown: when an event of one request leaves the others alone, when it does not, and three runs
 in which it does not.
 */
module TransportTeardown {
  import opened Wrappers
  import opened TransportModel
  import opened TransportProofs
  import opened TransportRuns

  // ---------------------------------------------------------------- what signalling does to each request

  /** Signalling a failure would disturb this request. */
  predicate Exposed(s: State, j: nat) {
    && j < |s.requests|
    && (s.pending == Some(j) || (s.canceller == Some(j) && s.requests[j].cancel.None?)
      || (s.writer == Some(j) && !s.requests[j].aborted))
  }

  /** What signalling a failure leaves of a request: its writer aborted, its token cancelled, its reply refused. */
  function Disturbed(s: State, j: nat, error: Error): Request
    requires j < |s.requests|
  {
    var r := s.requests[j];
    var r1 := if s.writer == Some(j) then r.(aborted := true) else r;
    var r2 := if s.canceller == Some(j) then r1.Cancel(error) else r1;
    if s.pending == Some(j) then r2.Refuse(error) else r2
  }

  lemma NothingPending(s: State, error: Error)
    requires s.WellFormed()
    ensures RejectPending(s, error).pending.None?
    ensures s.pending.None? ==> StartCleanup(s).requests == s.requests
  {
  }

  /** The references of the session are as before. */
  ghost predicate SameHolders(s: State, t: State) {
    && t.pending == s.pending && t.canceller == s.canceller && t.writer == s.writer && |t.requests| == |s.requests|
  }

  lemma WriterAt(s: State, j: nat)
    requires s.WellFormed() && j < |s.requests|
    ensures SameHolders(s, AbortWriter(s))
    ensures AbortWriter(s).requests[j] == if s.writer == Some(j) then s.requests[j].(aborted := true) else s.requests[j]
  {
    hide WithRequest;
    match s.writer
    case None =>
    case Some(k) =>
      var r := s.requests[k].(aborted := true);
      SetHolders(s, k, r);
      SetIs(s, k, r, j);
  }

  lemma SetIs(s: State, k: nat, r: Request, j: nat)
    requires s.WellFormed() && k < |s.requests| && j < |s.requests|
    ensures WithRequest(s, k, r).requests[j] == if j == k then r else s.requests[j]
  {
  }

  lemma CancelAt(s: State, error: Error, j: nat)
    requires s.WellFormed() && j < |s.requests|
    ensures SameHolders(s, CancelRequest(s, error))
    ensures CancelRequest(s, error).requests[j]
      == if s.canceller == Some(j) then s.requests[j].Cancel(error) else s.requests[j]
  {
    hide WithRequest;
    match s.canceller
    case None =>
    case Some(k) =>
      var r := s.requests[k].Cancel(error);
      SetHolders(s, k, r);
      SetIs(s, k, r, j);
  }

  lemma RejectAt(s: State, error: Error, j: nat)
    requires s.WellFormed() && j < |s.requests|
    ensures |RejectPending(s, error).requests| == |s.requests| && RejectPending(s, error).pending.None?
    ensures RejectPending(s, error).requests[j]
      == if s.pending == Some(j) then s.requests[j].Refuse(error) else s.requests[j]
  {
  }

  lemma RecordAt(s: State, error: Error)
    requires s.WellFormed()
    ensures SameHolders(s, RecordFailure(s, error)) && RecordFailure(s, error).requests == s.requests
  {
  }

  lemma FailureDisturbs(s: State, error: Error, j: nat)
    requires s.WellFormed() && j < |s.requests|
    ensures SignalFailure(s, error).requests[j] == Disturbed(s, j, error)
  {
    hide StartCleanup, AbortWriter, CancelRequest, RejectPending, RecordFailure;
    var s0 := AbortWriter(s);
    WriterAt(s, j);
    var s1 := CancelRequest(s0, error);
    CancelAt(s0, error, j);
    RecordAt(s1, error);
    RejectAt(s1, error, j);
    RejectAt(RecordFailure(s1, error), error, j);
    NothingPending(RecordFailure(s1, error), error);
    NothingPending(RejectPending(RecordFailure(s1, error), error), error);
  }

  lemma DisturbedChanges(s: State, j: nat, error: Error)
    requires s.WellFormed() && RepliesOk(s) && j < |s.requests|
    ensures Disturbed(s, j, error) == s.requests[j] <==> !Exposed(s, j)
  {
  }

  lemma DropAt(s: State, k: nat, error: Error, j: nat)
    requires s.WellFormed() && k < |s.requests| && j < |s.requests| && j != k
    ensures var t := DropOwn(s, k, error);
      && t.requests[j] == s.requests[j] && t.writer == s.writer && t.canceller == s.canceller
      && t.pending == (if s.pending == Some(k) then None else s.pending) && t.state == s.state && t.cleanup == s.cleanup
  {
  }

  lemma EndAt(s: State, k: nat, phase: Phase, j: nat)
    requires s.WellFormed() && k < |s.requests| && j < |s.requests| && j != k
    ensures EndRequest(s, k, phase).requests[j] == s.requests[j]
  {
  }

  lemma SetAt(s: State, k: nat, r: Request, j: nat)
    requires s.WellFormed() && k < |s.requests| && j < |s.requests| && j != k
    ensures WithRequest(s, k, r).requests[j] == s.requests[j]
  {
  }

  lemma FailOrMarkAt(s: State, k: nat, error: Error, j: nat)
    requires s.WellFormed() && k < |s.requests| && j < |s.requests| && j != k
    ensures FailOrMark(s, k, error).requests[j] == if s.Connected() then Disturbed(s, j, error) else s.requests[j]
  {
    hide SignalFailure, WithRequest;
    FailureDisturbs(s, error, j);
    SetAt(s, k, s.requests[k].(aborted := true).Cancel(error), j);
  }

  lemma TeardownAt(s: State, k: nat, error: Error, j: nat)
    requires s.WellFormed() && k < |s.requests| && j < |s.requests| && j != k
    ensures Teardown(s, k, error).requests[j] == if s.Connected() then Disturbed(s, j, error) else s.requests[j]
  {
    hide FailOrMark, DropOwn, EndRequest, WithRequest;
    var s1 := DropOwn(s, k, error);
    DropAt(s, k, error, j);
    FailOrMarkAt(s1, k, error, j);
    var s2 := FailOrMark(s1, k, error);
    EndAt(s2, k, Threw(error), j);
    SetAt(s2, k, s2.requests[k].(phase := Joining(error)), j);
  }

  lemma InvReplies(s: State)
    requires Inv(s)
    ensures RepliesOk(s)
  {
  }

  lemma DropHolders(s: State, k: nat, error: Error)
    requires s.WellFormed() && k < |s.requests|
    ensures var t := DropOwn(s, k, error);
      && t.writer == s.writer && t.canceller == s.canceller
      && t.pending == (if s.pending == Some(k) then None else s.pending) && t.state == s.state && t.cleanup == s.cleanup
  {
  }

  lemma EndHolders(s: State, k: nat, phase: Phase)
    requires s.WellFormed() && k < |s.requests|
    ensures var t := EndRequest(s, k, phase);
      && t.pending == s.pending && t.state == s.state && t.cleanup == s.cleanup
      && (s.writer != Some(k) ==> t.writer == s.writer) && (s.canceller != Some(k) ==> t.canceller == s.canceller)
  {
  }

  lemma SetHolders(s: State, k: nat, r: Request)
    requires s.WellFormed() && k < |s.requests|
    ensures var t := WithRequest(s, k, r);
      && SameHolders(s, t) && t.state == s.state && t.cleanup == s.cleanup
  {
  }

  // ---------------------------------------------------------------- events of one request

  /**
   The events of a request that signal a failure of the session: its abort signal, and a race lost while
   connected.
   */
  predicate Signals(s: State, e: RequestEvent) {
    e.SignalFired? || (e.RaceLost? && s.Connected())
  }

  function SignalError(e: RequestEvent): Error {
    if e.RaceLost? then e.error else Aborted
  }

  /** Every other request is as before, and so are the pending entry, the token and the writer if they are another's. */
  ghost predicate OthersUntouched(s: State, t: State, k: nat) {
    && |t.requests| == |s.requests|
    && (forall j :: 0 <= j < |s.requests| && j != k ==> t.requests[j] == s.requests[j])
    && (s.pending != Some(k) ==> t.pending == s.pending)
    && (s.canceller != Some(k) ==> t.canceller == s.canceller)
    && (s.writer != Some(k) ==> t.writer == s.writer)
  }

  lemma SignalOfOther(s: State, k: nat, j: nat)
    requires s.WellFormed() && k < |s.requests| && j < |s.requests| && j != k
    ensures SignalFailure(WithRequest(s, k, s.requests[k].(aborted := true)), Aborted).requests[j]
      == Disturbed(s, j, Aborted)
  {
    hide SignalFailure, WithRequest;
    var r := s.requests[k].(aborted := true);
    SetHolders(s, k, r);
    SetAt(s, k, r, j);
    FailureDisturbs(WithRequest(s, k, r), Aborted, j);
  }

  lemma JoinedAt(s: State)
    requires s.WellFormed()
    ensures Joined(s).requests == s.requests && SameHolders(s, Joined(s)) && Joined(s).state == s.state
  {
  }

  /** What an event of request k does to another request. */
  lemma StepOfOther(s: State, k: nat, e: RequestEvent, j: nat)
    requires Inv(s) && k < |s.requests| && RequestCan(s.requests[k], CleanedUp(s), e) && j < |s.requests| && j != k
    ensures RequestStep(s, k, e).requests[j] == if Signals(s, e) then Disturbed(s, j, SignalError(e)) else s.requests[j]
  {
    hide Inv, Teardown, EndRequest, SignalFailure, Joined, Disturbed, RequestStep;
    InvIsWellFormed(s);
    RequestStepIs(s, k, e);
    match e
    case RaceWon => EndAt(s, k, Returned(s.requests[k].reply.value), j);
    case RaceLost(error) => TeardownAt(s, k, error, j);
    case RequestCleaned =>
      JoinedAt(s);
      EndAt(Joined(s), k, Threw(s.requests[k].phase.error), j);
    case SignalFired => SignalOfOther(s, k, j);
    case _ =>
  }

  lemma SignalHolders(s: State, error: Error)
    requires s.WellFormed()
    ensures SignalFailure(s, error).pending.None?
    ensures SignalFailure(s, error).canceller == s.canceller && SignalFailure(s, error).writer == s.writer
  {
    hide SignalFailure, Signalled;
    FailureSettles(s, error);
    FailureIsSignal(s, error);
    SignalledHolders(s, SignalFailure(s, error));
  }

  lemma SignalledHolders(s: State, t: State)
    requires Signalled(s, t)
    ensures t.canceller == s.canceller && t.writer == s.writer
  {
  }

  /** Where another request's places are kept: always, unless the event signals, and then all but the pending entry. */
  ghost predicate PlacesKept(s: State, t: State, k: nat, signals: bool) {
    && (s.pending != Some(k) ==> t.pending == if signals then None else s.pending)
    && (s.canceller != Some(k) ==> t.canceller == s.canceller)
    && (s.writer != Some(k) ==> t.writer == s.writer)
  }

  lemma TeardownPlaces(s: State, k: nat, error: Error)
    requires s.WellFormed() && k < |s.requests|
    ensures PlacesKept(s, Teardown(s, k, error), k, s.Connected())
  {
    hide DropOwn, EndRequest, WithRequest, SignalFailure;
    var s1 := DropOwn(s, k, error);
    DropHolders(s, k, error);
    SignalHolders(s1, error);
    var marked := s1.requests[k].(aborted := true).Cancel(error);
    SetHolders(s1, k, marked);
    var s2 := FailOrMark(s1, k, error);
    EndHolders(s2, k, Threw(error));
    SetHolders(s2, k, s2.requests[k].(phase := Joining(error)));
  }

  lemma StepPlaces(s: State, k: nat, e: RequestEvent)
    requires s.WellFormed() && k < |s.requests| && RequestCan(s.requests[k], CleanedUp(s), e)
    ensures PlacesKept(s, RequestStep(s, k, e), k, Signals(s, e))
  {
    hide Teardown, EndRequest, SignalFailure, Joined;
    match e
    case RaceWon => EndHolders(s, k, Returned(s.requests[k].reply.value));
    case RaceLost(error) => TeardownPlaces(s, k, error);
    case RequestCleaned =>
      JoinedAt(s);
      EndHolders(Joined(s), k, Threw(s.requests[k].phase.error));
    case SignalFired => SignalHolders(WithRequest(s, k, s.requests[k].(aborted := true)), Aborted);
    case _ =>
  }

  /**
   Every event of a request leaves all other requests and their places as they are, except in one case: the
   event signals a failure (its abort signal, or a race lost while connected) and another request is pending,
   cancellable or still writing. Then it does disturb it.
   */
  lemma RequestEventIsOwn(s: State, k: nat, e: RequestEvent)
    requires Inv(s) && k < |s.requests| && RequestCan(s.requests[k], CleanedUp(s), e)
    ensures s.WellFormed()
    ensures OthersUntouched(s, RequestStep(s, k, e), k)
      <==> !Signals(s, e) || forall j :: 0 <= j < |s.requests| && j != k ==> !Exposed(s, j)
  {
    hide Inv, RequestStep, RequestCan, Exposed, Disturbed, Signals;
    InvIsWellFormed(s);
    InvReplies(s);
    StepPlaces(s, k, e);
    PendingIsExposed(s);
    forall j | 0 <= j < |s.requests| && j != k
      ensures RequestStep(s, k, e).requests[j] == s.requests[j] <==> !Signals(s, e) || !Exposed(s, j)
    {
      StepOfOther(s, k, e, j);
      DisturbedChanges(s, j, SignalError(e));
    }
  }

  lemma PendingIsExposed(s: State)
    requires s.WellFormed()
    ensures s.pending.Some? ==> Exposed(s, s.pending.value)
  {
  }

  lemma ExposedIsLive(s: State, j: nat)
    requires Inv(s) && Exposed(s, j)
    ensures s.requests[j].Live()
  {
  }

  /**
   Two live requests: one of them is the shutdown of a close that has been called, and the session is not
   starting.
   */
  lemma TwoLive(s: State, j: nat, k: nat)
    requires Inv(s) && j < |s.requests| && k < |s.requests| && j != k && s.requests[j].Live() && s.requests[k].Live()
    ensures s.closeCalled && !s.state.Starting? && (s.requests[j].kind.Shutdown? || s.requests[k].kind.Shutdown?)
  {
  }

  lemma SignallingIsLive(s: State, k: nat, e: RequestEvent)
    requires k < |s.requests| && RequestCan(s.requests[k], CleanedUp(s), e) && Signals(s, e)
    ensures s.requests[k].Live()
  {
  }

  lemma RequestEventOfRun(states: seq<State>, events: seq<Event>, maxFrame: nat, i: nat, k: nat, e: RequestEvent)
    requires IsRun(states, events, maxFrame) && i < |events| && events[i] == OfRequest(k, e)
    ensures |states| == |events| + 1 && Inv(states[i]) && states[i].WellFormed() && k < |states[i].requests|
    ensures RequestCan(states[i].requests[k], CleanedUp(states[i]), e) && states[i + 1] == RequestStep(states[i], k, e)
  {
    hide Inv, RequestStep, RequestCan;
    RunKeepsInv(states, events, maxFrame, i);
    assert Enabled(states[i], events[i]) && states[i + 1] == Step(states[i], events[i], maxFrame);
  }

  /**
   Over every run: an event of one request touches another only after close has been called, and then one
   of the two is its shutdown. If the event is a lost race, the session has been opened again since.
   */
  lemma DisturbsOnlyAfterClose(states: seq<State>, events: seq<Event>, maxFrame: nat, i: nat, k: nat, e: RequestEvent)
    returns (j: nat)
    requires IsRun(states, events, maxFrame) && i < |events| && events[i] == OfRequest(k, e)
    requires |states| == |events| + 1 && !OthersUntouched(states[i], states[i + 1], k)
    ensures var s := states[i];
      && s.closeCalled && (e.SignalFired? || (e.RaceLost? && s.state.Open?))
      && k < |s.requests| && j < |s.requests| && j != k && Exposed(s, j)
      && (s.requests[j].kind.Shutdown? || s.requests[k].kind.Shutdown?)
  {
    hide IsRun, Inv, RequestStep, RequestCan, Exposed, OthersUntouched;
    RequestEventOfRun(states, events, maxFrame, i, k, e);
    var s := states[i];
    RequestEventIsOwn(s, k, e);
    j :| 0 <= j < |s.requests| && j != k && Exposed(s, j);
    SignallingIsLive(s, k, e);
    ExposedIsLive(s, j);
    TwoLive(s, j, k);
  }

  /** When the hello request has ended, only a polite shutdown can be disturbed by a failing open. */
  lemma OpenDisturbsShutdownOnly(s: State, j: nat)
    requires Inv(s) && s.opening.Greeting? && !s.requests[s.opening.hello].Live() && Exposed(s, j)
    ensures s.requests[j].kind.Shutdown? && s.closeCalled
  {
  }

  /** And it is disturbed exactly when it is exposed. */
  lemma FailingOpenDisturbs(s: State, valid: bool)
    requires Inv(s) && s.opening.Greeting? && !s.requests[s.opening.hello].Live()
    requires !(s.requests[s.opening.hello].phase.Returned? && valid)
    ensures |AfterHello(s, valid).requests| == |s.requests|
    ensures AfterHello(s, valid).requests == s.requests <==> forall j :: 0 <= j < |s.requests| ==> !Exposed(s, j)
  {
    hide Inv, SignalFailure, StartCleanup, Exposed, Disturbed;
    InvIsWellFormed(s);
    InvReplies(s);
    var phase := s.requests[s.opening.hello].phase;
    var error := if phase.Threw? then phase.error else VersionMismatch;
    FailureSettles(s, error);
    NothingPending(SignalFailure(s, error), error);
    forall j | 0 <= j < |s.requests|
      ensures AfterHello(s, valid).requests[j] == s.requests[j] <==> !Exposed(s, j)
    {
      FailureDisturbs(s, error, j);
      DisturbedChanges(s, j, error);
    }
  }

  lemma FailureSettles(s: State, error: Error)
    requires s.WellFormed()
    ensures SignalFailure(s, error).pending.None?
  {
    hide AbortWriter, CancelRequest, RecordFailure;
  }

  const HELLO := NewRequest(1, Hello, 14, None)
  const GREETED := INITIAL.(
    state := Starting, owned := true, pid := true, spawned := true, abortListening := true, sequence := 1,
    requests := [HELLO], pending := Some(0), canceller := Some(0), writer := Some(0), opening := Greeting(0))

  const POLITE := NewRequest(2, Shutdown, 14, None)
  const CLOSING := GREETED.(
    state := Closing, abortListening := false, closeCalled := true, sequence := 2,
    requests := [HELLO.Refuse(BeingClosed), POLITE],
    pending := Some(1), canceller := Some(1), writer := Some(1), closing := AwaitingShutdown(1, false))

  const HELLO_LOST := HELLO.Refuse(BeingClosed).(aborted := true).Cancel(BeingClosed).(phase := Threw(BeingClosed))
  const HELLO_ENDED := CLOSING.(requests := [HELLO_LOST, POLITE])

  lemma StepOne()
    ensures Enabled(INITIAL, Opened(10)) && Step(INITIAL, Opened(10), 64) == GREETED
  {
    var s1 := SpawnHelper(INITIAL);
    var s2 := NextNumber(s1);
    assert StartError(s1, false).None?;
    assert s2.requests + [HELLO] == [HELLO];
    assert AddPending(s2, HELLO) == StartRequest(s1, Hello, 10, 64, false);
  }

  lemma StepTwo()
    ensures Enabled(GREETED, CloseCalled(10)) && Step(GREETED, CloseCalled(10), 64) == CLOSING
  {
  }

  lemma StepThree()
    ensures var e := OfRequest(0, RaceLost(BeingClosed));
      Enabled(CLOSING, e) && Step(CLOSING, e, 64) == HELLO_ENDED
  {
    var s1 := DropOwn(CLOSING, 0, BeingClosed);
    assert s1.requests == CLOSING.requests && s1 == CLOSING;
    var marked := CLOSING.requests[0].(aborted := true).Cancel(BeingClosed);
    var s2 := WithRequest(CLOSING, 0, marked);
    assert s2.requests == [marked, POLITE];
    assert EndRequest(s2, 0, Threw(BeingClosed)).requests == [HELLO_LOST, POLITE];
    assert EndRequest(s2, 0, Threw(BeingClosed)) == HELLO_ENDED;
  }

  lemma StepFour() returns (t: State)
    ensures Enabled(HELLO_ENDED, OpenAnswered(false)) && t == Step(HELLO_ENDED, OpenAnswered(false), 64)
    ensures |t.requests| == 2 && t.requests[1].reply == Refused(BeingClosed) && t.pending.None?
  {
    hide SignalFailure, StartCleanup;
    t := Step(HELLO_ENDED, OpenAnswered(false), 64);
    FailureDisturbs(HELLO_ENDED, BeingClosed, 1);
    FailureSettles(HELLO_ENDED, BeingClosed);
    var s1 := SignalFailure(HELLO_ENDED, BeingClosed);
    NothingPending(s1, BeingClosed);
    StillNothingPending(s1);
  }

  lemma StillNothingPending(s: State)
    requires s.WellFormed() && s.pending.None?
    ensures StartCleanup(s).pending.None?
  {
  }

  /**
   It does happen: open is waiting for hello, close is called and starts its shutdown request, and then the
   failing open refuses the shutdown's reply before the helper could answer it.
   */
  lemma FailingOpenStopsShutdown() returns (states: seq<State>, events: seq<Event>)
    ensures IsRun(states, events, 64) && |events| == 4 && events[3] == OpenAnswered(false)
    ensures states[3].pending == Some(1) && |states[3].requests| == 2 && states[3].requests[1].kind.Shutdown?
    ensures |states[4].requests| == 2 && states[4].requests[1].reply == Refused(BeingClosed) && states[4].pending.None?
  {
    hide Step, Enabled;
    StepOne();
    StepTwo();
    StepThree();
    var last := StepFour();
    states := [INITIAL, GREETED, CLOSING, HELLO_ENDED, last];
    events := [Opened(10), CloseCalled(10), OfRequest(0, RaceLost(BeingClosed)), OpenAnswered(false)];
  }

  /** Its abort signal does it too: the signal of a hello that is still racing refuses the shutdown. */
  lemma SignalStopsShutdown() returns (states: seq<State>, events: seq<Event>)
    ensures IsRun(states, events, 64) && |events| == 3 && events[2] == OfRequest(0, SignalFired)
    ensures states[2].pending == Some(1) && |states[2].requests| == 2 && states[2].requests[1].kind.Shutdown?
    ensures |states[3].requests| == 2 && states[3].requests[1].reply == Refused(Aborted)
  {
    hide Step, Enabled;
    StepOne();
    StepTwo();
    var last := SignalStep();
    states := [INITIAL, GREETED, CLOSING, last];
    events := [Opened(10), CloseCalled(10), OfRequest(0, SignalFired)];
  }

  lemma SignalStep() returns (t: State)
    ensures var e := OfRequest(0, SignalFired); Enabled(CLOSING, e) && t == Step(CLOSING, e, 64)
    ensures |t.requests| == 2 && t.requests[1].reply == Refused(Aborted)
  {
    hide SignalFailure;
    t := Step(CLOSING, OfRequest(0, SignalFired), 64);
    SignalOfOther(CLOSING, 0, 1);
  }

  // ---------------------------------------------------------------- a teardown after the session was opened again

  function Good(number: nat): Incoming { Response(IdOf(number), true, "ok") }

  const HELLO_SENT := HELLO.(offset := 14, flushed := true)
  const SENT := GREETED.(requests := [HELLO_SENT])
  const HELLO_GOT := HELLO_SENT.(reply := Got("ok"))
  const GREETING_ANSWERED := SENT.(requests := [HELLO_GOT], pending := None, seen := [IdOf(1)], answered := [1])
  const CLOSE_BEGUN := GREETING_ANSWERED.(
    state := Closing, abortListening := false, closeCalled := true, sequence := 2, requests := [HELLO_GOT, POLITE],
    pending := Some(1), canceller := Some(1), writer := Some(1), closing := AwaitingShutdown(1, false))
  const HELLO_WON := HELLO_GOT.Cancel(NoHelper).(phase := Returned("ok"))
  const REOPENED := CLOSE_BEGUN.(requests := [HELLO_WON, POLITE], state := Open, opening := OpenReturned)
  const POLITE_GOT := POLITE.(reply := Got("ok"))
  const SHUTDOWN_ANSWERED := REOPENED.(
    requests := [HELLO_WON, POLITE_GOT], pending := None, seen := [IdOf(1), IdOf(2)], answered := [1, 2])
  const NEWER := NewRequest(3, Ordinary, 14, None)
  const CALLED := SHUTDOWN_ANSWERED.(
    sequence := 3, requests := [HELLO_WON, POLITE_GOT, NEWER], pending := Some(2), canceller := Some(2),
    writer := Some(2), inflight := Some(2))
  const LATE := CALLED.(requests := [HELLO_WON, POLITE_GOT.(timedOut := true), NEWER])

  lemma WriteSteps()
    ensures Enabled(GREETED, OfRequest(0, Accepted(14)))
    ensures Step(GREETED, OfRequest(0, Accepted(14)), 64) == GREETED.(requests := [HELLO.(offset := 14)])
    ensures var s, e := GREETED.(requests := [HELLO.(offset := 14)]), OfRequest(0, Flushed);
      Enabled(s, e) && Step(s, e, 64) == SENT
  {
    assert GREETED.requests[0 := HELLO.(offset := 14)] == [HELLO.(offset := 14)];
  }

  lemma AnswerStep(s: State, t: State, k: nat, number: nat)
    requires s.WellFormed() && s.spawned && s.pending == Some(k) && k < |s.requests| && s.requests[k].number == number
    requires s.requests[k].reply.Waiting? && IdOf(number) !in s.seen && |s.seen| < REPLAY_WINDOW
    requires t == s.(
      requests := s.requests[k := s.requests[k].(reply := Got("ok"))], pending := None,
      seen := s.seen + [IdOf(number)], answered := s.answered + [number])
    ensures var e := OfHelper(FrameRead(Good(number))); Enabled(s, e) && Step(s, e, 64) == t
  {
    hide IdOf;
  }

  lemma AnswerSteps()
    ensures var e := OfHelper(FrameRead(Good(1))); Enabled(SENT, e) && Step(SENT, e, 64) == GREETING_ANSWERED
    ensures var e := OfHelper(FrameRead(Good(2))); Enabled(REOPENED, e) && Step(REOPENED, e, 64) == SHUTDOWN_ANSWERED
  {
    hide IdOf, Step, Enabled;
    if IdOf(2) == IdOf(1) { IdsDiffer(2, 1); }
    AnswerStep(SENT, GREETING_ANSWERED, 0, 1);
    AnswerStep(REOPENED, SHUTDOWN_ANSWERED, 1, 2);
  }

  lemma CloseStep()
    ensures Enabled(GREETING_ANSWERED, CloseCalled(10)) && Step(GREETING_ANSWERED, CloseCalled(10), 64) == CLOSE_BEGUN
  {
  }

  lemma ReopenSteps()
    ensures Enabled(CLOSE_BEGUN, OfRequest(0, RaceWon))
    ensures Step(CLOSE_BEGUN, OfRequest(0, RaceWon), 64) == CLOSE_BEGUN.(requests := [HELLO_WON, POLITE])
    ensures var s := CLOSE_BEGUN.(requests := [HELLO_WON, POLITE]);
      Enabled(s, OpenAnswered(true)) && Step(s, OpenAnswered(true), 64) == REOPENED
  {
    hide IdOf;
    assert EndRequest(CLOSE_BEGUN, 0, Returned("ok")).requests == [HELLO_WON, POLITE];
  }

  lemma TimerStep()
    ensures var e := OfRequest(1, TimerFired); Enabled(CALLED, e) && Step(CALLED, e, 64) == LATE
  {
    hide IdOf;
    assert CALLED.requests[1 := POLITE_GOT.(timedOut := true)] == LATE.requests;
  }

  lemma CallStep()
    ensures Enabled(SHUTDOWN_ANSWERED, Called(10, false)) && Step(SHUTDOWN_ANSWERED, Called(10, false), 64) == CALLED
  {
    hide IdOf;
    assert StartError(SHUTDOWN_ANSWERED, false).None?;
    assert SHUTDOWN_ANSWERED.requests + [NEWER] == [HELLO_WON, POLITE_GOT, NEWER];
    assert AddPending(NextNumber(SHUTDOWN_ANSWERED), NEWER) == StartRequest(SHUTDOWN_ANSWERED, Ordinary, 10, 64, false);
  }

  lemma LateStep() returns (t: State)
    ensures var e := OfRequest(1, RaceLost(Deadline)); Enabled(LATE, e) && t == Step(LATE, e, 64)
    ensures |t.requests| == 3 && t.requests[2].aborted && t.requests[2].reply == Refused(Deadline)
  {
    hide IdOf, DropOwn, FailOrMark, EndRequest, WithRequest;
    t := Step(LATE, OfRequest(1, RaceLost(Deadline)), 64);
    TeardownAt(LATE, 1, Deadline, 2);
  }

  /**
   It happens: close is called after the helper answered hello but before open went on, open then sets the
   state to open, the shutdown is answered before its flush has returned, a new request starts, and the
   shutdown's own timer fires. Its teardown aborts the writer of the newer request and refuses its reply.
   */
  lemma ReopenedTeardownStopsRequest() returns (states: seq<State>, events: seq<Event>)
    ensures IsRun(states, events, 64) && |events| == 11 && events[10] == OfRequest(1, RaceLost(Deadline))
    ensures states[10].closeCalled && states[10].state.Open? && states[10].pending == Some(2)
    ensures |states[10].requests| == 3 && states[10].requests[2].kind.Ordinary? && states[10].requests[1].kind.Shutdown?
    ensures |states[11].requests| == 3 && states[11].requests[2].aborted
      && states[11].requests[2].reply == Refused(Deadline)
  {
    hide Step, Enabled, IdOf;
    StepOne();
    WriteSteps();
    AnswerSteps();
    CloseStep();
    ReopenSteps();
    CallStep();
    TimerStep();
    var last := LateStep();
    states := [INITIAL, GREETED, GREETED.(requests := [HELLO.(offset := 14)]), SENT, GREETING_ANSWERED, CLOSE_BEGUN,
               CLOSE_BEGUN.(requests := [HELLO_WON, POLITE]), REOPENED, SHUTDOWN_ANSWERED, CALLED, LATE, last];
    events := [
      Opened(10), OfRequest(0, Accepted(14)), OfRequest(0, Flushed), OfHelper(FrameRead(Good(1))), CloseCalled(10),
      OfRequest(0, RaceWon), OpenAnswered(true), OfHelper(FrameRead(Good(2))), Called(10, false),
      OfRequest(1, TimerFired), OfRequest(1, RaceLost(Deadline))];
  }
}
