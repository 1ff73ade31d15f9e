/**
 What each routine of the transport means for its caller, said of the session before and after it, without
 the steps it takes.
 */
module TransportEffects {
  import opened Wrappers
  import opened TransportModel
  import opened TransportProofs
  import opened TransportTeardown

  /** Nothing but requests, the pending entry and the failure fields differs. */
  ghost predicate OnlySettles(s: State, t: State) {
    && SameRest(s, t) && |t.requests| == |s.requests| && t.state == s.state && t.failError == s.failError
    && t.cleanup == s.cleanup && t.cleanups == s.cleanups
  }

  // ---------------------------------------------------------------- refusing and failing

  /** The pending request has a settled reply and is pending no more; everything else is as before. */
  ghost predicate PendingRefused(s: State, t: State, error: Error) {
    && OnlySettles(s, t) && t.pending.None? && t.abortListening == s.abortListening
    && (forall j :: 0 <= j < |s.requests| && s.pending != Some(j) ==> t.requests[j] == s.requests[j])
    && (forall j :: 0 <= j < |s.requests| && s.pending == Some(j) ==>
          && t.requests[j] == s.requests[j].(reply := t.requests[j].reply)
          && (s.requests[j].reply.Waiting? ==> t.requests[j].reply == Refused(error))
          && (!s.requests[j].reply.Waiting? ==> t.requests[j].reply == s.requests[j].reply))
  }

  lemma RejectSession(s: State, error: Error)
    requires s.WellFormed()
    ensures var t := RejectPending(s, error);
      && t.state == s.state && t.failError == s.failError && t.cleanup == s.cleanup && t.cleanups == s.cleanups
      && t.abortListening == s.abortListening && SameRest(s, t)
  {
    hide WithRequest;
    if s.pending.Some? { SetSession(s, s.pending.value, s.requests[s.pending.value].Refuse(error)); }
  }

  lemma SetSession(s: State, k: nat, r: Request)
    requires s.WellFormed() && k < |s.requests|
    ensures var t := WithRequest(s, k, r);
      && t.state == s.state && t.failError == s.failError && t.cleanup == s.cleanup && t.cleanups == s.cleanups
      && t.abortListening == s.abortListening && SameRest(s, t)
  {
  }

  lemma RefuseMeans(r: Request, error: Error)
    ensures var t := r.Refuse(error);
      && t == r.(reply := t.reply) && (r.reply.Waiting? ==> t.reply == Refused(error)) && (!r.reply.Waiting? ==> t == r)
  {
  }

  lemma RejectMeans(s: State, error: Error)
    requires s.WellFormed()
    ensures PendingRefused(s, RejectPending(s, error), error)
  {
    hide RejectPending, SameRest;
    RejectSession(s, error);
    NothingPending(s, error);
    var t := RejectPending(s, error);
    forall j | 0 <= j < |s.requests|
      ensures t.requests[j] == if s.pending == Some(j) then s.requests[j].Refuse(error) else s.requests[j]
    {
      RejectAt(s, error, j);
      RefuseMeans(s.requests[j], error);
    }
  }

  /**
   A cleanup has begun: this one if there was none before, and then nothing is pending and no abort is
   listened for.
   */
  ghost predicate CleanupBegun(s: State, t: State) {
    && !t.cleanup.Idle? && |t.requests| == |s.requests| && SameRest(s, t) && t.state == s.state
    && t.failError == s.failError
    && (OwnerOk(s) ==> t.cleanups == 1)
    && (!s.cleanup.Idle? ==> t == s)
    && (s.cleanup.Idle? ==> t.cleanup.JoiningReaders? && t.pending.None? && !t.abortListening)
    && (s.pending.None? ==> t.requests == s.requests)
  }

  lemma CountMeans(s: State)
    requires s.WellFormed()
    ensures var t := CountCleanup(s);
      && t.requests == s.requests && t.pending == s.pending && t.abortListening == s.abortListening && SameRest(s, t)
      && t.state == s.state && t.failError == s.failError && t.cleanup.JoiningReaders? && t.cleanups == s.cleanups + 1
  {
  }

  lemma SameRestTwice(s: State, t: State, u: State)
    requires SameRest(s, t) && SameRest(t, u)
    ensures SameRest(s, u)
  {
  }

  lemma ClearMeans(s: State)
    requires s.WellFormed()
    ensures var t := s.(abortListening := false);
      && t.WellFormed() && SameRest(s, t) && t.requests == s.requests && t.pending == s.pending && !t.abortListening
      && t.state == s.state && t.failError == s.failError && t.cleanup == s.cleanup && t.cleanups == s.cleanups
  {
  }

  lemma BeginMeans(s: State)
    requires s.WellFormed() && s.cleanup.Idle?
    ensures var t := BeginCleanup(s);
      && t.cleanup.JoiningReaders? && t.cleanups == s.cleanups + 1 && |t.requests| == |s.requests| && SameRest(s, t)
      && t.state == s.state && t.failError == s.failError && t.pending.None? && !t.abortListening
  {
    hide RejectPending, CountCleanup, SameRest;
    var error := if s.failError.Some? then s.failError.value else TransportFailed;
    var heard := s.(abortListening := false);
    ClearMeans(s);
    RejectMeans(heard, error);
    var rejected := RejectPending(heard, error);
    CountMeans(rejected);
    SameRestTwice(s, heard, rejected);
    SameRestTwice(s, rejected, CountCleanup(rejected));
  }

  lemma StartCleanupMeans(s: State)
    requires s.WellFormed()
    ensures CleanupBegun(s, StartCleanup(s))
  {
    hide BeginCleanup, SameRest, OwnerOk;
    NothingPending(s, TransportFailed);
    if OwnerOk(s) { OwnerCounts(s); }
    if s.cleanup.Idle? { BeginMeans(s); } else { SelfRest(s); }
  }

  lemma SelfRest(s: State)
    ensures SameRest(s, s)
  {
  }

  /**
   A failure was signalled: nothing is pending, each request is disturbed as far as it was exposed, and unless
   the session was closed without a helper it is not connected any more, remembers its first failure and has
   begun its cleanup. What is owned, numbered and remembered of answers stays.
   */
  ghost predicate FailureSignalled(s: State, t: State, error: Error) {
    && t.pending.None? && |t.requests| == |s.requests| && SameRest(s, t)
    && (forall j :: 0 <= j < |s.requests| ==> t.requests[j] == Disturbed(s, j, error))
    && if s.state.Closed? && !s.owned then
         t.state == s.state && t.failError == s.failError && t.cleanup == s.cleanup && t.cleanups == s.cleanups
       else
         && !t.Connected() && !t.state.Closed? && !t.cleanup.Idle? && (OwnerOk(s) ==> t.cleanups == 1)
         && t.failError == if s.failError.Some? then s.failError else Some(error)
  }

  lemma EarlierParts(s: State, error: Error)
    requires s.WellFormed()
    ensures var t := CancelRequest(AbortWriter(s), error);
      && t.WellFormed() && |t.requests| == |s.requests| && t.state == s.state && t.owned == s.owned
      && t.failError == s.failError
      && t.cleanup == s.cleanup && t.cleanups == s.cleanups
  {
    hide WithRequest, SameRest;
    var t := AbortWriter(s);
    if s.writer.Some? {
      SetSession(s, s.writer.value, s.requests[s.writer.value].(aborted := true));
      OwnedRest(s, t);
    }
    if t.canceller.Some? {
      SetSession(t, t.canceller.value, t.requests[t.canceller.value].Cancel(error));
      OwnedRest(t, CancelRequest(t, error));
    }
  }

  lemma OwnedRest(s: State, t: State)
    requires SameRest(s, t)
    ensures t.owned == s.owned
  {
  }

  lemma SignalledSession(s: State, error: Error)
    requires s.WellFormed()
    ensures var t := SignalFailure(s, error);
      if s.state.Closed? && !s.owned then
        t.state == s.state && t.failError == s.failError && t.cleanup == s.cleanup && t.cleanups == s.cleanups
      else
        && !t.Connected() && !t.state.Closed? && !t.cleanup.Idle?
        && t.cleanups == (if s.cleanup.Idle? then s.cleanups + 1 else s.cleanups)
        && t.failError == if s.failError.Some? then s.failError else Some(error)
  {
    hide RejectPending, AbortWriter, CancelRequest, StartCleanup;
    EarlierParts(s, error);
    var s1 := CancelRequest(AbortWriter(s), error);
    RejectMeans(s1, error);
    var s2 := RecordFailure(s1, error);
    RejectMeans(s2, error);
    StartCleanupMeans(RejectPending(s2, error));
    CleanupCount(RejectPending(s2, error));
  }

  lemma CleanupCount(s: State)
    requires s.WellFormed()
    ensures StartCleanup(s).cleanups == if s.cleanup.Idle? then s.cleanups + 1 else s.cleanups
  {
  }

  lemma OwnerCounts(s: State)
    requires OwnerOk(s)
    ensures s.cleanups == if s.cleanup.Idle? then 0 else 1
  {
  }

  lemma SignalledRest(s: State, t: State)
    requires Signalled(s, t)
    ensures SameRest(s, t) && |t.requests| == |s.requests|
  {
  }

  lemma SignalFailureMeans(s: State, error: Error)
    requires s.WellFormed()
    ensures FailureSignalled(s, SignalFailure(s, error), error)
  {
    hide SignalFailure, Signalled, Disturbed, SameRest, OwnerOk;
    FailureIsSignal(s, error);
    SignalledRest(s, SignalFailure(s, error));
    SignalledSession(s, error);
    FailureSettles(s, error);
    if OwnerOk(s) { OwnerCounts(s); }
    forall j | 0 <= j < |s.requests|
      ensures SignalFailure(s, error).requests[j] == Disturbed(s, j, error)
    {
      FailureDisturbs(s, error, j);
    }
  }

  // ---------------------------------------------------------------- requests

  /**
   A request can start: nothing is pending or aborted, there is a helper, a number and a payload of an
   allowed size.
   */
  predicate CanStart(s: State, size: nat, maxFrame: nat, signalled: bool) {
    s.pending.None? && !signalled && s.owned && s.sequence < MAX_REQUEST_SEQUENCE && 0 < size <= maxFrame
  }

  /**
   One more request. If it could start it is the pending one, holds token and writer and has the next number;
   otherwise it has thrown and the others keep their places.
   */
  ghost predicate RequestAdded(s: State, t: State, kind: Kind, size: nat, maxFrame: nat, signalled: bool) {
    var k := |s.requests|;
    && |t.requests| == k + 1 && t.requests[..k] == s.requests && t.requests[k].kind == kind
    && (t.requests[k].Live() <==> CanStart(s, size, maxFrame, signalled))
    && (if CanStart(s, size, maxFrame, signalled) then
          && t.pending == t.canceller == t.writer == Some(k) && t.sequence == s.sequence + 1
          && t.requests[k].number == t.sequence && t.requests[k].size == 4 + size && t.requests[k].reply.Waiting?
        else
          && t.pending == s.pending && t.canceller == s.canceller && t.writer == s.writer && t.requests[k].phase.Threw?)
    && t.state == s.state && t.owned == s.owned && t.cleanup == s.cleanup && t.seen == s.seen
    && t.answered == s.answered
    && t.closeCalled == s.closeCalled && t.abortListening == s.abortListening
  }

  lemma StartMeans(s: State, kind: Kind, size: nat, maxFrame: nat, signalled: bool)
    requires s.WellFormed()
    ensures RequestAdded(s, StartRequest(s, kind, size, maxFrame, signalled), kind, size, maxFrame, signalled)
  {
    hide AddPending, AddRefused, NextNumber, RequestAdded;
    var error := StartError(s, signalled);
    if error.Some? {
      RefusedMeans(s, s, NewRequest(0, kind, size, error), kind, size, maxFrame, signalled);
    } else {
      var s1 := NextNumber(s);
      NumberMeans(s);
      if 0 < size <= maxFrame {
        PendingMeans(s, s1, NewRequest(s1.sequence, kind, 4 + size, None), kind, size, maxFrame, signalled);
      } else {
        RefusedMeans(s, s1, NewRequest(s1.sequence, kind, size, Some(PayloadSize)), kind, size, maxFrame, signalled);
      }
    }
  }

  lemma RefusedMeans(s: State, base: State, r: Request, kind: Kind, size: nat, maxFrame: nat, signalled: bool)
    requires s.WellFormed() && (base == s || base == s.(sequence := s.sequence + 1)) && r.kind == kind && r.phase.Threw?
    requires !CanStart(s, size, maxFrame, signalled) && base.WellFormed()
    ensures RequestAdded(s, AddRefused(base, r), kind, size, maxFrame, signalled)
  {
  }

  lemma PendingMeans(s: State, base: State, r: Request, kind: Kind, size: nat, maxFrame: nat, signalled: bool)
    requires s.WellFormed() && base == s.(sequence := s.sequence + 1) && base.WellFormed()
    requires r.kind == kind && r.phase.Racing? && r.number == base.sequence && r.size == 4 + size && r.reply.Waiting?
    requires CanStart(s, size, maxFrame, signalled)
    ensures RequestAdded(s, AddPending(base, r), kind, size, maxFrame, signalled)
  {
  }

  lemma NumberMeans(s: State)
    requires s.WellFormed()
    ensures var t := NextNumber(s); t == s.(sequence := s.sequence + 1)
  {
  }

  /**
   The request has ended with its result; every other request keeps its record, token and writer, and the
   pending entry stays.
   */
  ghost predicate RequestEnded(s: State, t: State, k: nat, phase: Phase) {
    && k < |s.requests| && |t.requests| == |s.requests| && OthersUntouched(s, t, k)
    && t.requests[k].phase == phase && t.requests[k].reply == s.requests[k].reply
    && t.requests[k].offset == s.requests[k].offset
    && t.pending == s.pending && t.canceller != Some(k) && t.writer != Some(k)
    && t.state == s.state && t.owned == s.owned && t.cleanup == s.cleanup
  }

  lemma EndMeans(s: State, k: nat, phase: Phase)
    requires s.WellFormed() && k < |s.requests|
    ensures RequestEnded(s, EndRequest(s, k, phase), k, phase)
  {
  }

  /**
   A lost race was handled: the request has settled and is not pending; it has ended, unless a cleanup is under
   way, which it then waits for. In a connected session this is a signalled failure; otherwise the others keep
   their records and places.
   */
  ghost predicate RaceHandled(s: State, t: State, k: nat, error: Error) {
    && k < |s.requests| && |t.requests| == |s.requests| && t.pending != Some(k)
    && (t.cleanup.Idle? ==> t.requests[k].phase == Threw(error))
    && (!t.cleanup.Idle? ==> t.requests[k].phase == Joining(error))
    && !t.requests[k].reply.Waiting?
    && (s.Connected() ==> !t.Connected() && !t.cleanup.Idle?)
    && (!s.Connected() ==> OthersUntouched(s, t, k) && t.state == s.state && t.cleanup == s.cleanup)
    && (forall j :: 0 <= j < |s.requests| && j != k && s.Connected() ==> t.requests[j] == Disturbed(s, j, error))
  }

  lemma OwnAfterDrop(s: State, k: nat, error: Error)
    requires s.WellFormed() && k < |s.requests|
    ensures var t := DropOwn(s, k, error);
      !t.requests[k].reply.Waiting? && t.pending != Some(k) && t.state == s.state && t.owned == s.owned
        && t.cleanup == s.cleanup
  {
  }

  lemma DisturbedSettled(s: State, k: nat, error: Error)
    requires k < |s.requests| && !s.requests[k].reply.Waiting?
    ensures !Disturbed(s, k, error).reply.Waiting?
  {
  }

  lemma FailOrMarkMeans(s: State, k: nat, error: Error)
    requires s.WellFormed() && k < |s.requests| && !s.requests[k].reply.Waiting? && s.pending != Some(k)
    ensures var t := FailOrMark(s, k, error);
      && !t.requests[k].reply.Waiting? && t.pending != Some(k)
      && (s.Connected() ==> t.state.Failed? || t.state.Closing?) && (s.Connected() ==> !t.cleanup.Idle?)
      && (!s.Connected() ==> t.state == s.state && t.cleanup == s.cleanup)
  {
    hide SignalFailure, Disturbed, WithRequest;
    if s.Connected() {
      SignalFailureMeans(s, error);
      DisturbedSettled(s, k, error);
    } else {
      SetHolders(s, k, s.requests[k].(aborted := true).Cancel(error));
      SetIs(s, k, s.requests[k].(aborted := true).Cancel(error), k);
    }
  }

  lemma FailOrMarkSession(s: State, k: nat, error: Error)
    requires s.WellFormed() && k < |s.requests|
    ensures s.Connected() ==> !FailOrMark(s, k, error).Connected() && !FailOrMark(s, k, error).cleanup.Idle?
  {
    hide SignalFailure, WithRequest;
    if s.Connected() { SignalledSession(s, error); }
  }

  lemma RaceMeans(s: State, k: nat, error: Error)
    requires s.WellFormed() && k < |s.requests|
    ensures RaceHandled(s, Teardown(s, k, error), k, error)
  {
    hide DropOwn, FailOrMark, EndRequest, WithRequest, Disturbed;
    var s1 := DropOwn(s, k, error);
    OwnAfterDrop(s, k, error);
    FailOrMarkMeans(s1, k, error);
    FailOrMarkSession(s1, k, error);
    var s2 := FailOrMark(s1, k, error);
    EndMeans(s2, k, Threw(error));
    SetHolders(s2, k, s2.requests[k].(phase := Joining(error)));
    SetIs(s2, k, s2.requests[k].(phase := Joining(error)), k);
    TeardownPlaces(s, k, error);
    forall j | 0 <= j < |s.requests| && j != k
      ensures Teardown(s, k, error).requests[j] == if s.Connected() then Disturbed(s, j, error) else s.requests[j]
    {
      TeardownAt(s, k, error, j);
    }
  }

  // ---------------------------------------------------------------- frames

  /** The frame is the first answer to request k, the pending one. */
  predicate IsAnswer(s: State, frame: Incoming, k: nat) {
    k < |s.requests| && s.pending == Some(k) && frame.Response? && frame.id == IdOf(s.requests[k].number)
      && frame.id !in s.seen
  }

  /** Its content settles the request, its id is remembered among the last 32, and nothing else changes. */
  ghost predicate Answered(s: State, t: State, frame: Incoming, k: nat)
    requires IsAnswer(s, frame, k)
  {
    && t.pending.None? && |t.requests| == |s.requests|
    && (forall j :: 0 <= j < |s.requests| && j != k ==> t.requests[j] == s.requests[j])
    && t.requests[k] == s.requests[k].(reply := t.requests[k].reply)
    && (s.requests[k].reply.Waiting? ==>
      t.requests[k].reply == if frame.ok then Got(frame.value) else Refused(HelperError(frame.value)))
    && (!s.requests[k].reply.Waiting? ==> t.requests[k].reply == s.requests[k].reply)
    && frame.id in t.seen && (|s.seen| <= REPLAY_WINDOW ==> |t.seen| <= REPLAY_WINDOW)
    && t.answered == s.answered + [s.requests[k].number]
    && t.state == s.state && t.owned == s.owned && t.cleanup == s.cleanup && t.canceller == s.canceller
    && t.writer == s.writer
  }

  /** A frame answers the pending request, or is a failure of the session. */
  ghost predicate FrameHandled(s: State, t: State, frame: Incoming) {
    && (forall k :: IsAnswer(s, frame, k) ==> Answered(s, t, frame, k))
    && ((forall k :: !IsAnswer(s, frame, k)) ==>
          exists error :: error in {Malformed, Unexpected, WrongId, DuplicateId} && FailureSignalled(s, t, error))
  }

  lemma RememberMeans(seen: seq<string>, id: string)
    ensures id in Remember(seen, id) && (|seen| <= REPLAY_WINDOW ==> |Remember(seen, id)| <= REPLAY_WINDOW)
  {
    var longer := seen + [id];
    assert longer[|seen|] == id && (|longer| > REPLAY_WINDOW ==> longer[1..][|seen| - 1] == id);
  }

  lemma AnswerMeans(s: State, frame: Incoming, k: nat)
    requires s.WellFormed() && IsAnswer(s, frame, k)
    ensures Answered(s, DispatchFrame(s, frame), frame, k)
  {
    hide IdOf, Remember;
    RememberMeans(s.seen, frame.id);
  }

  lemma OtherFrameMeans(s: State, frame: Incoming)
    requires s.WellFormed() && forall k :: !IsAnswer(s, frame, k)
    ensures exists error ::
      error in {Malformed, Unexpected, WrongId, DuplicateId} && FailureSignalled(s, DispatchFrame(s, frame), error)
  {
    hide IdOf, SignalFailure, FailureSignalled;
    assert s.pending.Some? ==> !IsAnswer(s, frame, s.pending.value);
    var error := FrameError(s, frame, s.seen);
    SignalFailureMeans(s, error.value);
    assert FailureSignalled(s, DispatchFrame(s, frame), error.value);
    assert error.value in {Malformed, Unexpected, WrongId, DuplicateId};
  }

  lemma FrameMeans(s: State, frame: Incoming)
    requires s.WellFormed()
    ensures FrameHandled(s, DispatchFrame(s, frame), frame)
  {
    hide DispatchFrame, IsAnswer, Answered, FailureSignalled;
    forall k | IsAnswer(s, frame, k)
      ensures Answered(s, DispatchFrame(s, frame), frame, k)
    {
      AnswerMeans(s, frame, k);
    }
    if forall k :: !IsAnswer(s, frame, k) { OtherFrameMeans(s, frame); }
  }

  // ---------------------------------------------------------------- open and close

  /** What open throws: what hello threw, or that the helper is not the one agreed on. */
  function HelloError(hello: Request): Error {
    if hello.phase.Threw? then hello.phase.error else VersionMismatch
  }

  /**
   Open returns exactly on a valid hello, then says open; otherwise it fails the session and waits for the
   cleanup.
   */
  ghost predicate OpenDecided(s: State, t: State, valid: bool)
    requires s.opening.Greeting? && s.opening.hello < |s.requests|
  {
    && |t.requests| == |s.requests| && t.owned == s.owned
    && if s.requests[s.opening.hello].phase.Returned? && valid then
         t.opening.OpenReturned? && t.state.Open? && t.requests == s.requests && t.pending == s.pending
           && t.failError == s.failError
       else
         && t.opening.OpenJoining? && !t.Connected() && !t.cleanup.Idle? && t.pending.None?
         && forall j :: 0 <= j < |s.requests| ==>
           t.requests[j] == Disturbed(s, j, HelloError(s.requests[s.opening.hello]))
  }

  /** Signalling and then beginning the cleanup leaves the session failed and settled. */
  lemma FailThenClean(s: State, error: Error)
    requires s.WellFormed()
    ensures var t := StartCleanup(SignalFailure(s, error));
      && |t.requests| == |s.requests| && t.owned == s.owned && !t.Connected() && !t.cleanup.Idle? && t.pending.None?
      && forall j :: 0 <= j < |s.requests| ==> t.requests[j] == Disturbed(s, j, error)
  {
    hide SignalFailure, StartCleanup, Disturbed, OwnerOk, SameRest;
    var failed := SignalFailure(s, error);
    SignalFailureMeans(s, error);
    OwnedRest(s, failed);
    StartCleanupMeans(failed);
    OwnedRest(failed, StartCleanup(failed));
    CleanupSettles(failed);
  }

  lemma CleanupSettles(s: State)
    requires s.WellFormed() && s.pending.None?
    ensures StartCleanup(s).pending.None? && StartCleanup(s).requests == s.requests
  {
  }

  lemma HelloMeans(s: State, valid: bool)
    requires s.WellFormed() && s.opening.Greeting? && !s.requests[s.opening.hello].Live()
    ensures OpenDecided(s, AfterHello(s, valid), valid)
  {
    hide SignalFailure, StartCleanup, Disturbed;
    FailThenClean(s, HelloError(s.requests[s.opening.hello]));
  }

  predicate Polite(s: State) {
    !s.state.Failed? && s.failError.None? && s.owned && !s.exited
  }

  /**
   Close has begun: the session is not connected and refuses its pending request; it asks the helper to shut
   down if it never failed and the helper still runs, and otherwise waits for the cleanup.
   */
  ghost predicate CloseBegun(s: State, t: State, size: nat, maxFrame: nat) {
    var n := |s.requests|;
    && t.closeCalled && !t.Connected() && !t.abortListening && t.owned == s.owned && |t.requests| >= n
    && (forall j :: 0 <= j < n ==>
          t.requests[j] == if s.pending == Some(j) then s.requests[j].Refuse(BeingClosed) else s.requests[j])
    && if Polite(s) then
         && t.closing == AwaitingShutdown(n, false) && |t.requests| == n + 1 && t.requests[n].kind.Shutdown?
         && (t.requests[n].Live() <==> s.sequence < MAX_REQUEST_SEQUENCE && 0 < size <= maxFrame)
         && (t.requests[n].Live() ==> t.pending == Some(n))
       else
         t.closing.AwaitingCleanup? && |t.requests| == n && t.pending.None? && !t.cleanup.Idle?
  }

  lemma ClosingMeans(s: State)
    requires s.WellFormed()
    ensures
      var t := s.(state := if s.state.Failed? then Failed else Closing, abortListening := false, closeCalled := true);
      && t.WellFormed() && t.requests == s.requests && t.pending == s.pending && t.owned == s.owned
      && t.exited == s.exited
      && t.sequence == s.sequence && !t.Connected() && t.closeCalled && !t.abortListening
  {
  }

  lemma JoinMeans(s: State, wasFailed: bool)
    requires s.WellFormed()
    ensures var t := JoinForClose(s, wasFailed);
      && |t.requests| == |s.requests| && t.closing.AwaitingCleanup? && t.pending.None? && !t.cleanup.Idle?
      && t.state == s.state && t.owned == s.owned && t.closeCalled == s.closeCalled
      && (!s.abortListening ==> !t.abortListening) && (s.pending.None? ==> t.requests == s.requests)
  {
    hide RejectPending, StartCleanup, OwnerOk;
    RejectMeans(s, BeingClosed);
    var rejected := RejectPending(s, BeingClosed);
    StartCleanupMeans(rejected);
    assert s.pending.None? ==> rejected.requests == s.requests;
  }

  lemma ShutdownMeans(s: State, size: nat, maxFrame: nat)
    requires s.WellFormed() && s.pending.None? && s.owned
    ensures var t := StartRequest(s, Shutdown, size, maxFrame, false);
      && t.state == s.state && t.owned == s.owned && |t.requests| == |s.requests| + 1
      && t.requests[..|s.requests|] == s.requests
      && t.requests[|s.requests|].kind.Shutdown? && t.closeCalled == s.closeCalled
      && t.abortListening == s.abortListening
      && (t.requests[|s.requests|].Live() <==> s.sequence < MAX_REQUEST_SEQUENCE && 0 < size <= maxFrame)
      && (t.requests[|s.requests|].Live() ==> t.pending == Some(|s.requests|))
  {
    hide StartRequest;
    StartMeans(s, Shutdown, size, maxFrame, false);
  }

  lemma CloseMeans(s: State, size: nat, maxFrame: nat)
    requires s.WellFormed()
    ensures CloseBegun(s, BeginClose(s, size, maxFrame), size, maxFrame)
  {
    hide RejectPending, StartRequest, JoinForClose;
    var s0 := s.(state := if s.state.Failed? then Failed else Closing, abortListening := false, closeCalled := true);
    ClosingMeans(s);
    var s1 := RejectPending(s0, BeingClosed);
    RejectMeans(s0, BeingClosed);
    forall j | 0 <= j < |s.requests|
      ensures s1.requests[j] == if s.pending == Some(j) then s.requests[j].Refuse(BeingClosed) else s.requests[j]
    {
      RejectAt(s0, BeingClosed, j);
    }
    if Polite(s) { ShutdownMeans(s1, size, maxFrame); } else { JoinMeans(s1, s.state.Failed? || s.failError.Some?); }
  }

  /**
   Close throws exactly if a helper is owned whose exit is not confirmed, and keeps handle and pid;
   otherwise the pid goes.
   */
  ghost predicate CloseFinished(s: State, t: State) {
    && t.closing.NotClosing? && t.requests == s.requests && t.owned == s.owned && t.exitConfirmed == s.exitConfirmed
    && (t.closeOutcome.CloseThrew? <==> s.owned && !s.exitConfirmed)
    && (t.closeOutcome.ClosedNormally? <==> !s.owned || s.exitConfirmed)
    && (t.closeOutcome.CloseThrew? ==> t.owned && t.pid == s.pid && t.state.Failed?)
    && (t.closeOutcome.ClosedNormally? ==> !t.pid && !t.Connected() && (!t.owned ==> t.state.Closed?))
    && (s.cleanup.Unconfirmed? ==> t.cleanupError.Some?)
  }

  lemma FinishMeans(s: State, wasFailed: bool)
    requires s.WellFormed()
    ensures CloseFinished(s, FinishClose(s, wasFailed))
  {
    hide EndClose;
    EndMeansClosed(Joined(s), wasFailed);
    JoinedRest(s);
  }

  lemma EndMeansClosed(s: State, wasFailed: bool)
    requires s.WellFormed()
    ensures var t := EndClose(s, wasFailed);
      && t.closing.NotClosing? && t.requests == s.requests && t.owned == s.owned && t.exitConfirmed == s.exitConfirmed
      && t.cleanupError == s.cleanupError
      && if s.owned && !s.exitConfirmed then t.closeOutcome.CloseThrew? && t.pid == s.pid && t.state.Failed?
         else t.closeOutcome.ClosedNormally? && !t.pid && !t.Connected() && (!t.owned ==> t.state.Closed?)
  {
  }

  /**
   After its readers the cleanup is over exactly if no helper is owned; the helper is given up exactly if
   its exit is known.
   */
  ghost predicate ReadersDone(s: State, t: State) {
    && (t.owned <==> s.owned && !s.exitConfirmed && !s.exited)
    && (t.cleanup.Finished? <==> !t.owned) && (t.cleanup.AwaitingExit? <==> t.owned)
    && (s.owned && !t.owned ==> t.exitConfirmed && !t.pid)
    && (t.owned ==> t.pid == s.pid && t.exitConfirmed == s.exitConfirmed)
    && t.requests == s.requests && t.pending == s.pending && t.state == s.state && t.cleanups == s.cleanups
  }

  lemma ReadersMean(s: State)
    requires s.WellFormed()
    ensures ReadersDone(s, AfterReaders(s))
  {
  }

  // ---------------------------------------------------------------- writing a frame

  /** What happens to a request while its frame is written: an event of its write, or its abort. */
  datatype WriteEvent = Wrote(e: RequestEvent) | AbortArrived

  /** The request after these events, if each of them could happen when it did. */
  ghost function AfterWrite(r: Request, events: seq<WriteEvent>): Option<Request> {
    if events == [] then Some(r)
    else
      var before, last := AfterWrite(r, events[..|events| - 1]), events[|events| - 1];
      if before.None? then None
      else if last.AbortArrived? then Some(before.value.(aborted := true))
      else if IsWrite(last.e) && RequestCan(before.value, false, last.e) then Some(OwnStep(before.value, last.e))
      else None
  }

  lemma AfterWriteAppend(r: Request, events: seq<WriteEvent>, last: WriteEvent)
    requires AfterWrite(r, events).Some?
    ensures last.AbortArrived? ==> AfterWrite(r, events + [last]) == Some(AfterWrite(r, events).value.(aborted := true))
    ensures last.Wrote? && IsWrite(last.e) && RequestCan(AfterWrite(r, events).value, false, last.e) ==>
      AfterWrite(r, events + [last]) == Some(OwnStep(AfterWrite(r, events).value, last.e))
  {
  }

  /** The session after these events, the writes as its steps and the abort as that of its writer. */
  ghost function SessionAfter(s: State, k: nat, events: seq<WriteEvent>, maxFrame: nat): (t: Option<State>)
    requires s.WellFormed() && k < |s.requests|
    ensures t.Some? ==> t.value.WellFormed() && |t.value.requests| >= |s.requests|
  {
    if events == [] then Some(s)
    else
      var before, last := SessionAfter(s, k, events[..|events| - 1], maxFrame), events[|events| - 1];
      if before.None? then None
      else if last.AbortArrived? then Some(AbortWriter(before.value))
      else if Enabled(before.value, OfRequest(k, last.e)) then
        Some(Step(before.value, OfRequest(k, last.e), maxFrame))
      else None
  }

  lemma WriteStepIsStep(s: State, k: nat, e: RequestEvent, maxFrame: nat)
    requires s.WellFormed() && k < |s.requests| && IsWrite(e)
    ensures Enabled(s, OfRequest(k, e)) <==> RequestCan(s.requests[k], false, e)
    ensures Enabled(s, OfRequest(k, e)) ==>
      Step(s, OfRequest(k, e), maxFrame) == WithRequest(s, k, OwnStep(s.requests[k], e))
  {
  }

  lemma WriterAborted(s: State, k: nat)
    requires s.WellFormed() && s.writer == Some(k)
    ensures k < |s.requests| && AbortWriter(s) == WithRequest(s, k, s.requests[k].(aborted := true))
  {
  }

  lemma RequestTwice(s: State, k: nat, r: Request, r': Request)
    requires s.WellFormed() && k < |s.requests|
    ensures WithRequest(s, k, r).requests[k] == r && WithRequest(s, k, r).writer == s.writer
    ensures WithRequest(WithRequest(s, k, r), k, r') == WithRequest(s, k, r')
  {
  }

  /**
   A whole write, taken as steps of a session whose writer it is: they are possible exactly when its events
   are, and change its request only.
   */
  lemma {:induction false} WriteIsRun(s: State, k: nat, events: seq<WriteEvent>, maxFrame: nat)
    requires s.WellFormed() && s.writer == Some(k) && k < |s.requests|
    requires forall i :: 0 <= i < |events| && events[i].Wrote? ==> IsWrite(events[i].e)
    ensures SessionAfter(s, k, events, maxFrame) == match AfterWrite(s.requests[k], events)
                                                    case None => None
                                                    case Some(r) => Some(WithRequest(s, k, r))
  {
    hide WithRequest, OwnStep, RequestCan, Enabled, Step, AbortWriter;
    if events == [] {
      SameRequest(s, k);
    } else {
      var front, last := events[..|events| - 1], events[|events| - 1];
      WriteIsRun(s, k, front, maxFrame);
      var before := AfterWrite(s.requests[k], front);
      if before.Some? {
        var t := WithRequest(s, k, before.value);
        RequestTwice(s, k, before.value, before.value.(aborted := true));
        if last.AbortArrived? {
          WriterAborted(t, k);
        } else {
          WriteStepIsStep(t, k, last.e, maxFrame);
          if RequestCan(before.value, false, last.e) {
            RequestTwice(s, k, before.value, OwnStep(before.value, last.e));
          }
        }
      }
    }
  }

  lemma SameRequest(s: State, k: nat)
    requires s.WellFormed() && k < |s.requests|
    ensures WithRequest(s, k, s.requests[k]) == s
  {
    assert s.requests[k := s.requests[k]] == s.requests;
  }
}
