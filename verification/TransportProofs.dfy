/** What every run of the transport keeps: ownership of the helper, integrity of requests, and the replay window. */
module TransportProofs {
  import opened Wrappers
  import opened TransportModel
  import Decimal

  // ---------------------------------------------------------------- the invariant

  /** The pending request is the one whose reply is open, and it is still racing. */
  ghost predicate RepliesOk(s: State) {
    forall k :: 0 <= k < |s.requests| ==>
      && (s.requests[k].reply.Waiting? <==> s.pending == Some(k))
      && (s.requests[k].reply.Waiting? ==> s.requests[k].phase.Racing?)
  }

  function Ids(numbers: seq<nat>): (ids: seq<string>)
    ensures |ids| == |numbers| && forall i :: 0 <= i < |ids| ==> ids[i] == IdOf(numbers[i])
  {
    seq(|numbers|, i requires 0 <= i < |numbers| => IdOf(numbers[i]))
  }

  function LastOf(ids: seq<string>, n: nat): seq<string> {
    if |ids| <= n then ids else ids[|ids| - n..]
  }

  /** Numbers only grow, the pending one is the newest and no older one is answered twice. */
  ghost predicate NumbersOk(s: State) {
    && (forall k :: 0 <= k < |s.requests| ==> s.requests[k].number <= s.sequence)
    && (forall i :: 0 <= i < |s.answered| ==> s.answered[i] <= s.sequence)
    && (forall i, j :: 0 <= i < j < |s.answered| ==> s.answered[i] < s.answered[j])
    && (s.pending.Some? && s.pending.value < |s.requests| ==>
         && s.requests[s.pending.value].number == s.sequence
         && forall i :: 0 <= i < |s.answered| ==> s.answered[i] < s.sequence)
    && s.seen == LastOf(Ids(s.answered), REPLAY_WINDOW)
  }

  ghost predicate ResultOk(r: Request) {
    && r.offset <= r.size && (r.flushed ==> r.offset == r.size)
    && (r.phase.Returned? ==> r.flushed && r.reply == Got(r.phase.value))
  }

  ghost predicate ResultsOk(s: State) {
    forall k :: 0 <= k < |s.requests| ==> ResultOk(s.requests[k])
  }

  /** The helper is owned from its start until its exit is known, and cleaned up at most once. */
  ghost predicate OwnerOk(s: State) {
    && s.cleanups == (if s.cleanup.Idle? then 0 else 1)
    && (s.owned ==> s.spawned) && (s.exited ==> s.spawned) && (s.pid ==> s.owned) && (s.exitConfirmed ==> s.exited)
    && (s.spawned && !s.owned ==> s.exitConfirmed)
    && (s.owned && !s.exitConfirmed ==> s.pid)
    && (s.cleanup.Finished? ==> !s.owned) && (s.cleanup.AwaitingExit? || s.cleanup.Unconfirmed? ==> s.owned)
    && (s.closeOutcome.ClosedNormally? ==> !s.spawned || s.exitConfirmed)
    && (s.closeOutcome.CloseThrew? ==> s.owned && s.pid && s.cleanup.Unconfirmed?)
  }

  ghost predicate OpenedOk(s: State) {
    s.opening.NotOpened? ==>
      && !s.spawned && s.closeOutcome.NoOutcome? && s.requests == [] && !s.abortListening
      && s.state.Closed? && s.cleanup.Idle? && s.closing.NotClosing? && !s.closeCalled
  }

  /** Which routine waits for a live request. */
  ghost predicate HasCaller(s: State, k: nat, r: Request) {
    match r.kind
    case Hello => s.opening == Greeting(k)
    case Ordinary => s.inflight == Some(k) && s.opening.OpenReturned?
    case Shutdown => s.closing.AwaitingShutdown? && s.closing.shutdown == k && s.closeCalled
  }

  ghost predicate LiveOk(s: State) {
    && (forall k :: 0 <= k < |s.requests| && s.requests[k].Live() ==> HasCaller(s, k, s.requests[k]))
    && (s.writer.Some? && s.writer.value < |s.requests| ==> s.requests[s.writer.value].Live())
    && (s.canceller.Some? && s.canceller.value < |s.requests| ==> s.requests[s.canceller.value].Live())
    && (s.state.Open? ==> s.opening.OpenReturned?) && (s.closeCalled ==> !s.state.Starting?)
  }

  ghost predicate Inv(s: State) {
    s.WellFormed() && RepliesOk(s) && NumbersOk(s) && ResultsOk(s) && OwnerOk(s) && LiveOk(s) && OpenedOk(s)
  }

  // ---------------------------------------------------------------- signalling a failure

  /** What signalling may do to one request. */
  ghost predicate SignalledRequest(r: Request, r': Request) {
    && r' == r.(aborted := r'.aborted, cancel := r'.cancel, reply := r'.reply)
    && (r.aborted ==> r'.aborted) && (r.cancel.Some? ==> r'.cancel == r.cancel)
    && (r'.reply == r.reply || (r.reply.Waiting? && r'.reply.Refused?))
  }

  /** What signalling may do to the session: settle the pending request, fail, and begin the cleanup. */
  ghost predicate Signalled(s: State, t: State) {
    && s.WellFormed() && t.WellFormed() && |t.requests| == |s.requests|
    && (forall k :: 0 <= k < |s.requests| ==> SignalledRequest(s.requests[k], t.requests[k]))
    && (forall k :: 0 <= k < |s.requests| && s.pending != Some(k) ==> t.requests[k].reply == s.requests[k].reply)
    && (if t.pending == s.pending then s.pending.Some? ==>
      t.requests[s.pending.value].reply == s.requests[s.pending.value].reply
        else t.pending.None? && !t.requests[s.pending.value].reply.Waiting?)
    && (t.state == s.state || t.state.Failed?)
    && ((t.cleanup == s.cleanup && t.cleanups == s.cleanups)
      || (s.cleanup.Idle? && t.cleanup.JoiningReaders? && t.cleanups == s.cleanups + 1))
    && SameRest(s, t)
  }

  /** Signalling leaves every other field alone. */
  ghost predicate SameRest(s: State, t: State) {
    && t.owned == s.owned && t.pid == s.pid && t.exitConfirmed == s.exitConfirmed && t.spawned == s.spawned
    && t.exited == s.exited
    && t.inflight == s.inflight && t.sequence == s.sequence && t.seen == s.seen && t.answered == s.answered
    && t.cleanupError == s.cleanupError && t.writer == s.writer && t.canceller == s.canceller
    && t.opening == s.opening && t.closing == s.closing && t.closeOutcome == s.closeOutcome
    && t.closeCalled == s.closeCalled
  }

  lemma SignalledTwice(s: State, t: State, u: State)
    requires Signalled(s, t) && Signalled(t, u)
    ensures Signalled(s, u)
  {
  }

  /** One request changes, the others do not. */
  lemma OneSignalled(before: seq<Request>, after: seq<Request>, k: nat, r: Request)
    requires k < |before| && after == before[k := r] && SignalledRequest(before[k], r)
    ensures |after| == |before| && forall j :: 0 <= j < |before| ==> SignalledRequest(before[j], after[j])
  {
  }

  lemma NoneSignalled(requests: seq<Request>)
    ensures forall j :: 0 <= j < |requests| ==> SignalledRequest(requests[j], requests[j])
  {
  }

  lemma RejectIsSignal(s: State, error: Error)
    requires s.WellFormed()
    ensures Signalled(s, RejectPending(s, error))
  {
    hide SignalledRequest;
    match s.pending
    case None => NoneSignalled(s.requests);
    case Some(k) =>
      var r := s.requests[k];
      RefuseIsSignal(r, error);
      OneSignalled(s.requests, RejectPending(s, error).requests, k, r.Refuse(error));
  }

  lemma RefuseIsSignal(r: Request, error: Error)
    ensures SignalledRequest(r, r.Refuse(error)) && !r.Refuse(error).reply.Waiting?
    ensures SignalledRequest(r, r.(aborted := true)) && SignalledRequest(r, r.Cancel(error))
      && r.Cancel(error).reply == r.reply
  {
  }

  lemma WriterIsSignal(s: State)
    requires s.WellFormed()
    ensures Signalled(s, AbortWriter(s))
  {
    hide SignalledRequest;
    match s.writer
    case None => NoneSignalled(s.requests);
    case Some(k) =>
      var r := s.requests[k];
      RefuseIsSignal(r, Aborted);
      OneIsSignal(s, k, r.(aborted := true));
  }

  lemma CancelIsSignal(s: State, error: Error)
    requires s.WellFormed()
    ensures Signalled(s, CancelRequest(s, error))
  {
    hide SignalledRequest;
    match s.canceller
    case None => NoneSignalled(s.requests);
    case Some(k) =>
      var r := s.requests[k];
      RefuseIsSignal(r, error);
      OneIsSignal(s, k, r.Cancel(error));
  }

  lemma RecordIsSignal(s: State, error: Error)
    requires s.WellFormed()
    ensures Signalled(s, RecordFailure(s, error))
  {
  }

  lemma BegunIsSignal(s: State, before: State, after: State)
    requires s.cleanup.Idle? && before == s.(abortListening := false) && Signalled(before, after)
      && after.cleanups == s.cleanups
    ensures Signalled(s, CountCleanup(after))
  {
  }

  lemma SelfSignal(s: State)
    requires s.WellFormed()
    ensures Signalled(s, s)
  {
  }

  lemma RejectCounts(s: State, error: Error)
    requires s.WellFormed()
    ensures RejectPending(s, error).cleanups == s.cleanups
  {
  }

  lemma StartCleanupIsSignal(s: State)
    requires s.WellFormed()
    ensures Signalled(s, StartCleanup(s))
  {
    hide RejectPending, Signalled, CountCleanup;
    if s.cleanup.Idle? {
      var before := s.(abortListening := false);
      var error := if s.failError.Some? then s.failError.value else TransportFailed;
      RejectIsSignal(before, error);
      RejectCounts(before, error);
      BegunIsSignal(s, before, RejectPending(before, error));
    } else {
      SelfSignal(s);
    }
  }

  lemma FailureIsSignal(s: State, error: Error)
    requires s.WellFormed()
    ensures Signalled(s, SignalFailure(s, error))
  {
    hide Signalled, RejectPending, AbortWriter, CancelRequest, RecordFailure, StartCleanup;
    var s0 := AbortWriter(s);
    WriterIsSignal(s);
    var s1 := CancelRequest(s0, error);
    CancelIsSignal(s0, error);
    SignalledTwice(s, s0, s1);
    if s1.state.Closed? && !s1.owned {
      RejectIsSignal(s1, error);
      SignalledTwice(s, s1, RejectPending(s1, error));
    } else {
      var s2 := RecordFailure(s1, error);
      RecordIsSignal(s1, error);
      SignalledTwice(s, s1, s2);
      var s3 := RejectPending(s2, error);
      RejectIsSignal(s2, error);
      SignalledTwice(s, s2, s3);
      StartCleanupIsSignal(s3);
      SignalledTwice(s, s3, StartCleanup(s3));
    }
  }

  lemma SignalledKeepsRequests(s: State, t: State)
    requires Signalled(s, t) && RepliesOk(s) && ResultsOk(s)
    ensures RepliesOk(t) && ResultsOk(t)
  {
  }

  lemma SignalledKeepsNumbers(s: State, t: State)
    requires Signalled(s, t) && NumbersOk(s)
    ensures NumbersOk(t)
  {
  }

  lemma SignalledKeepsOwner(s: State, t: State)
    requires Signalled(s, t) && OwnerOk(s)
    ensures OwnerOk(t)
  {
  }

  lemma SignalledKeepsLive(s: State, t: State)
    requires Signalled(s, t) && LiveOk(s)
    ensures LiveOk(t)
  {
  }

  lemma SignalledKeepsOpened(s: State, t: State)
    requires !s.opening.NotOpened?
    requires Signalled(s, t) && OpenedOk(s)
    ensures OpenedOk(t)
  {
  }

  lemma SignalledKeepsInv(s: State, t: State)
    requires !s.opening.NotOpened?
    requires Signalled(s, t) && Inv(s)
    ensures Inv(t)
  {
    hide RepliesOk, NumbersOk, ResultsOk, OwnerOk, LiveOk, OpenedOk, SameRest;
    SignalledKeepsRequests(s, t);
    SignalledKeepsNumbers(s, t);
    SignalledKeepsOwner(s, t);
    SignalledKeepsLive(s, t);
    SignalledKeepsOpened(s, t);
  }

  lemma FailureKeepsInv(s: State, error: Error)
    requires !s.opening.NotOpened?
    requires Inv(s)
    ensures Inv(SignalFailure(s, error))
  {
    hide Inv, Signalled, SignalFailure;
    InvIsWellFormed(s);
    FailureIsSignal(s, error);
    SignalledKeepsInv(s, SignalFailure(s, error));
  }

  lemma InvIsWellFormed(s: State)
    requires Inv(s)
    ensures s.WellFormed()
    ensures s.opening.NotOpened? ==>
      s.requests == [] && !s.spawned && !s.owned && !s.exited && !s.abortListening && s.state.Closed?
    ensures s.opening.NotOpened? ==> s.cleanup.Idle? && s.closing.NotClosing?
  {
  }

  // ---------------------------------------------------------------- requests

  lemma DropIsSignal(s: State, k: nat, error: Error)
    requires s.WellFormed() && RepliesOk(s) && k < |s.requests|
    ensures Signalled(s, DropOwn(s, k, error)) && !DropOwn(s, k, error).requests[k].reply.Waiting?
  {
    hide SignalledRequest, RepliesOk, SameRest;
    var r := s.requests[k];
    RefuseIsSignal(r, error);
    WaitingIsPending(s, k);
    DropKeepsRest(s, k, error);
    OneSignalled(s.requests, DropOwn(s, k, error).requests, k, r.Refuse(error));
  }

  lemma DropKeepsRest(s: State, k: nat, error: Error)
    requires s.WellFormed() && k < |s.requests|
    ensures SameRest(s, DropOwn(s, k, error))
  {
  }

  lemma WaitingIsPending(s: State, k: nat)
    requires RepliesOk(s) && k < |s.requests|
    ensures s.requests[k].reply.Waiting? <==> s.pending == Some(k)
  {
  }

  lemma OneIsSignal(s: State, k: nat, r: Request)
    requires s.WellFormed() && k < |s.requests| && SignalledRequest(s.requests[k], r) && r.reply == s.requests[k].reply
    ensures Signalled(s, WithRequest(s, k, r))
  {
  }

  lemma MarkIsSignal(s: State, k: nat, error: Error)
    requires s.WellFormed() && k < |s.requests|
    ensures Signalled(s, WithRequest(s, k, s.requests[k].(aborted := true).Cancel(error)))
  {
  }

  /** A request whose reply is settled may leave the race. */
  lemma EndKeepsInv(s: State, k: nat, phase: Phase)
    requires Inv(s) && k < |s.requests| && !s.requests[k].reply.Waiting?
    requires phase.Threw? || (phase.Returned? && s.requests[k].flushed && s.requests[k].reply == Got(phase.value))
    ensures Inv(EndRequest(s, k, phase))
  {
    hide RepliesOk, NumbersOk, ResultsOk, OwnerOk, LiveOk, EndRequest;
    EndKeepsRequests(s, k, phase);
    EndKeepsNumbers(s, k, phase);
    EndKeepsOwner(s, k, phase);
    EndKeepsLive(s, k, phase);
  }

  lemma EndKeepsRequests(s: State, k: nat, phase: Phase)
    requires s.WellFormed() && RepliesOk(s) && ResultsOk(s) && k < |s.requests| && !s.requests[k].reply.Waiting?
    requires phase.Threw? || (phase.Returned? && s.requests[k].flushed && s.requests[k].reply == Got(phase.value))
    ensures RepliesOk(EndRequest(s, k, phase)) && ResultsOk(EndRequest(s, k, phase))
  {
  }

  lemma EndKeepsNumbers(s: State, k: nat, phase: Phase)
    requires s.WellFormed() && NumbersOk(s) && k < |s.requests|
    ensures NumbersOk(EndRequest(s, k, phase))
  {
  }

  lemma EndKeepsOwner(s: State, k: nat, phase: Phase)
    requires s.WellFormed() && OwnerOk(s) && OpenedOk(s) && k < |s.requests|
    ensures OwnerOk(EndRequest(s, k, phase)) && OpenedOk(EndRequest(s, k, phase))
  {
  }

  lemma EndKeepsLive(s: State, k: nat, phase: Phase)
    requires s.WellFormed() && LiveOk(s) && k < |s.requests| && (phase.Threw? || phase.Returned?)
    ensures LiveOk(EndRequest(s, k, phase))
  {
  }

  lemma JoinKeepsInv(s: State, k: nat, error: Error)
    requires Inv(s) && k < |s.requests| && s.requests[k].Live() && !s.requests[k].reply.Waiting?
    ensures Inv(WithRequest(s, k, s.requests[k].(phase := Joining(error))))
  {
    hide LastOf, Ids;
    var t := WithRequest(s, k, s.requests[k].(phase := Joining(error)));
    assert forall j :: 0 <= j < |s.requests| && j != k ==> t.requests[j] == s.requests[j];
    forall j | 0 <= j < |t.requests| && t.requests[j].Live() ensures HasCaller(t, j, t.requests[j]) {
      assert s.requests[j].Live() && HasCaller(s, j, s.requests[j]);
    }
  }

  /** What a teardown does before the request leaves the race is signalling. */
  lemma TeardownSignals(s: State, k: nat, error: Error) returns (t: State)
    requires Inv(s) && k < |s.requests|
    ensures Signalled(s, t) && Inv(t) && !t.requests[k].reply.Waiting?
    ensures Teardown(s, k, error) ==
      if t.cleanup.Idle? then EndRequest(t, k, Threw(error))
        else WithRequest(t, k, t.requests[k].(phase := Joining(error)))
  {
    hide Signalled, SignalFailure, EndRequest, NumbersOk, ResultsOk, OwnerOk, LiveOk;
    var s1 := DropOwn(s, k, error);
    DropIsSignal(s, k, error);
    t := if s1.Connected() then SignalFailure(s1, error)
      else WithRequest(s1, k, s1.requests[k].(aborted := true).Cancel(error));
    if s1.Connected() { FailureIsSignal(s1, error); } else { MarkIsSignal(s1, k, error); }
    SettledStays(s1, t, k);
    SignalledTwice(s, s1, t);
    SignalledKeepsInv(s, t);
  }

  lemma SettledStays(s: State, t: State, k: nat)
    requires Signalled(s, t) && k < |s.requests| && !s.requests[k].reply.Waiting?
    ensures k < |t.requests| && !t.requests[k].reply.Waiting?
  {
  }

  lemma PhaseStays(s: State, t: State, k: nat)
    requires Signalled(s, t) && k < |s.requests|
    ensures k < |t.requests| && t.requests[k].phase == s.requests[k].phase
      && t.requests[k].number == s.requests[k].number
  {
  }

  lemma TeardownKeepsInv(s: State, k: nat, error: Error)
    requires Inv(s) && k < |s.requests| && s.requests[k].Live()
    ensures Inv(Teardown(s, k, error))
  {
    hide Inv, Signalled, Teardown, EndRequest;
    var t := TeardownSignals(s, k, error);
    PhaseStays(s, t, k);
    if t.cleanup.Idle? { EndKeepsInv(t, k, Threw(error)); } else { JoinKeepsInv(t, k, error); }
  }

  /** A write or a timer concerns its own request only. */
  lemma OwnStepKeepsInv(s: State, k: nat, r: Request)
    requires Inv(s) && k < |s.requests| && ResultOk(r)
    requires r.number == s.requests[k].number && r.kind == s.requests[k].kind
    requires r.reply == s.requests[k].reply && r.phase == s.requests[k].phase
    ensures Inv(WithRequest(s, k, r))
  {
    hide LastOf, Ids, ResultOk;
    var t := WithRequest(s, k, r);
    assert forall j :: 0 <= j < |s.requests| && j != k ==> t.requests[j] == s.requests[j];
    forall j | 0 <= j < |t.requests| && t.requests[j].Live() ensures HasCaller(t, j, t.requests[j]) {
      assert s.requests[j].Live() && HasCaller(s, j, s.requests[j]);
    }
  }

  lemma JoinedKeepsInv(s: State)
    requires Inv(s)
    ensures Inv(Joined(s)) && Joined(s).requests == s.requests
  {
  }

  /** The step of each event of a request. */
  lemma RequestStepIs(s: State, k: nat, e: RequestEvent)
    requires s.WellFormed() && k < |s.requests| && RequestCan(s.requests[k], CleanedUp(s), e)
    ensures var r, t := s.requests[k], RequestStep(s, k, e);
      match e
      case RaceWon => t == EndRequest(s, k, Returned(r.reply.value))
      case RaceLost(error) => t == Teardown(s, k, error)
      case RequestCleaned => t == EndRequest(Joined(s), k, Threw(r.phase.error))
      case SignalFired => t == SignalFailure(WithRequest(s, k, r.(aborted := true)), Aborted)
      case _ => t == WithRequest(s, k, OwnStep(r, e))
  {
  }

  lemma RequestStepKeepsInv(s: State, k: nat, e: RequestEvent)
    requires Inv(s) && k < |s.requests| && RequestCan(s.requests[k], CleanedUp(s), e)
    ensures Inv(RequestStep(s, k, e))
  {
    hide Inv, Teardown, EndRequest, SignalFailure, Joined;
    InvIsWellFormed(s);
    RequestFacts(s, k);
    var r := s.requests[k];
    match e
    case RaceWon => EndKeepsInv(s, k, Returned(r.reply.value));
    case RaceLost(error) => TeardownKeepsInv(s, k, error);
    case RequestCleaned =>
      JoinedKeepsInv(s);
      EndKeepsInv(Joined(s), k, Threw(r.phase.error));
    case SignalFired =>
      OwnStepKeepsInv(s, k, r.(aborted := true));
      FailureKeepsInv(WithRequest(s, k, r.(aborted := true)), Aborted);
    case _ =>
      OwnStepIsOk(r, CleanedUp(s), e);
      OwnStepKeepsInv(s, k, OwnStep(r, e));
  }

  lemma OwnStepIsOk(r: Request, cleanedUp: bool, e: RequestEvent)
    requires IsOwn(e) && ResultOk(r) && RequestCan(r, cleanedUp, e)
    ensures var r' := OwnStep(r, e);
      ResultOk(r') && r'.number == r.number && r'.kind == r.kind && r'.reply == r.reply && r'.phase == r.phase
  {
  }

  lemma RequestFacts(s: State, k: nat)
    requires Inv(s) && k < |s.requests|
    ensures ResultOk(s.requests[k]) && (s.requests[k].reply.Waiting? ==> s.requests[k].phase.Racing?)
  {
  }

  // ---------------------------------------------------------------- starting a request

  /** What starting a request does: one more request, pending or refused at once. */
  ghost predicate Started(s: State, t: State, kind: Kind) {
    && s.WellFormed() && t.WellFormed() && |t.requests| == |s.requests| + 1
    && (forall k :: 0 <= k < |s.requests| ==> t.requests[k] == s.requests[k])
    && t.requests[|s.requests|].kind == kind
    && ((t.pending == s.pending && t.writer == s.writer && t.canceller == s.canceller
      && !t.requests[|s.requests|].Live())
        || (t.pending == t.writer == t.canceller == Some(|s.requests|) && t.requests[|s.requests|].Live()))
    && t.opening == s.opening && t.inflight == s.inflight && t.closing == s.closing && t.state == s.state
    && t.closeCalled == s.closeCalled && t.spawned == s.spawned && t.closeOutcome == s.closeOutcome
  }

  /** The new request, the session it is added to, and whether it becomes the pending one. */
  lemma StartCases(s: State, kind: Kind, size: nat, maxFrame: nat, signalled: bool)
    returns (base: State, r: Request, installed: bool)
    requires s.WellFormed()
    ensures base.WellFormed() && base.requests == s.requests
      && (base == s || (base == NextNumber(s) && s.pending.None?))
    ensures StartRequest(s, kind, size, maxFrame, signalled)
      == if installed then AddPending(base, r) else AddRefused(base, r)
    ensures r.kind == kind && ResultOk(r)
    ensures installed ==>
      s.pending.None? && base == NextNumber(s) && r.number == base.sequence && r.reply.Waiting? && r.phase.Racing?
    ensures !installed ==> r.number <= base.sequence && r.reply.Refused? && r.phase.Threw?
  {
    hide AddPending, AddRefused;
    var error := StartError(s, signalled);
    base := if error.Some? then s else NextNumber(s);
    installed := error.None? && 0 < size <= maxFrame;
    r := if error.Some? then NewRequest(0, kind, size, error)
      else if installed then NewRequest(base.sequence, kind, 4 + size, None)
      else NewRequest(base.sequence, kind, size, Some(PayloadSize));
  }

  lemma NextNumberKeeps(s: State)
    requires s.WellFormed() && s.pending.None? && RepliesOk(s) && NumbersOk(s) && ResultsOk(s) && OwnerOk(s)
    ensures RepliesOk(NextNumber(s)) && NumbersOk(NextNumber(s)) && ResultsOk(NextNumber(s)) && OwnerOk(NextNumber(s))
  {
  }

  lemma AddRefusedKeeps(s: State, r: Request)
    requires s.WellFormed() && r.number <= s.sequence && r.reply.Refused? && r.phase.Threw? && ResultOk(r)
    requires RepliesOk(s) && NumbersOk(s) && ResultsOk(s) && OwnerOk(s)
    ensures RepliesOk(AddRefused(s, r)) && NumbersOk(AddRefused(s, r)) && ResultsOk(AddRefused(s, r))
      && OwnerOk(AddRefused(s, r)) && Started(s, AddRefused(s, r), r.kind)
  {
  }

  lemma AddPendingKeeps(s: State, r: Request)
    requires s.WellFormed() && s.pending.None? && r.number == s.sequence && r.reply.Waiting? && r.phase.Racing?
      && ResultOk(r)
    requires forall i :: 0 <= i < |s.answered| ==> s.answered[i] < s.sequence
    requires RepliesOk(s) && NumbersOk(s) && ResultsOk(s) && OwnerOk(s)
    ensures RepliesOk(AddPending(s, r)) && NumbersOk(AddPending(s, r)) && ResultsOk(AddPending(s, r))
      && OwnerOk(AddPending(s, r)) && Started(s, AddPending(s, r), r.kind)
  {
  }

  lemma StartedFrom(s: State, base: State, t: State, kind: Kind)
    requires s.WellFormed() && (base == s || base == NextNumber(s)) && base.WellFormed() && Started(base, t, kind)
    ensures Started(s, t, kind)
  {
  }

  lemma NumberOnly(s: State)
    requires s.WellFormed()
    ensures NextNumber(s).pending == s.pending
  {
  }

  lemma FreshNumber(s: State)
    requires s.WellFormed() && NumbersOk(s)
    ensures forall i :: 0 <= i < |NextNumber(s).answered| ==> NextNumber(s).answered[i] < NextNumber(s).sequence
  {
  }

  lemma StartKeeps(s: State, kind: Kind, size: nat, maxFrame: nat, signalled: bool)
    requires s.WellFormed() && RepliesOk(s) && NumbersOk(s) && ResultsOk(s) && OwnerOk(s)
    ensures var t := StartRequest(s, kind, size, maxFrame, signalled);
      RepliesOk(t) && NumbersOk(t) && ResultsOk(t) && OwnerOk(t) && Started(s, t, kind)
  {
    hide RepliesOk, NumbersOk, ResultsOk, ResultOk, OwnerOk, Started, AddPending, AddRefused, StartRequest, NextNumber;
    var base, r, installed := StartCases(s, kind, size, maxFrame, signalled);
    if s.pending.None? { NextNumberKeeps(s); }
    FreshNumber(s);
    if installed {
      NumberOnly(s);
      AddPendingKeeps(base, r);
    } else {
      AddRefusedKeeps(base, r);
    }
    StartedFrom(s, base, StartRequest(s, kind, size, maxFrame, signalled), kind);
  }

  /** The routine that starts a request waits for it. */
  lemma StartedIsLive(s: State, t: State, u: State, kind: Kind)
    requires LiveOk(s) && Started(s, t, kind) && u.requests == t.requests && u.writer == t.writer
      && u.canceller == t.canceller
    requires (u.state.Open? ==> u.opening.OpenReturned?) && (u.closeCalled ==> !u.state.Starting?)
    requires forall k :: 0 <= k < |s.requests| && s.requests[k].Live() && HasCaller(s, k, s.requests[k]) ==>
      HasCaller(u, k, s.requests[k])
    requires HasCaller(u, |s.requests|, t.requests[|s.requests|])
    requires t.requests[|s.requests|].Live() || t.writer == s.writer
    ensures LiveOk(u)
  {
  }

  lemma CallKeepsInv(s: State, size: nat, maxFrame: nat, signalled: bool)
    requires Inv(s) && s.state.Open? && s.inflight.None?
    ensures Inv(StartRequest(s, Ordinary, size, maxFrame, signalled).(inflight := Some(|s.requests|)))
  {
    hide StartRequest, NumbersOk, OwnerOk, ResultsOk;
    var t := StartRequest(s, Ordinary, size, maxFrame, signalled);
    var u := t.(inflight := Some(|s.requests|));
    StartKeeps(s, Ordinary, size, maxFrame, signalled);
    StartedIsLive(s, t, u, Ordinary);
    RelabelKeeps(t, u);
  }

  /** Numbers, results, replies and ownership do not look at who waits for a request. */
  lemma RelabelKeeps(t: State, u: State)
    requires u == t.(inflight := u.inflight, opening := u.opening, closing := u.closing)
    ensures RepliesOk(t) ==> RepliesOk(u)
    ensures NumbersOk(t) ==> NumbersOk(u)
    ensures ResultsOk(t) ==> ResultsOk(u)
    ensures OwnerOk(t) ==> OwnerOk(u)
  {
  }

  // ---------------------------------------------------------------- frames

  lemma IdsAppend(numbers: seq<nat>, n: nat)
    ensures Ids(numbers + [n]) == Ids(numbers) + [IdOf(n)]
  {
  }

  /** Appending to the window and dropping its oldest entry keeps it the end of the whole history. */
  lemma WindowSlides(history: seq<string>, id: string)
    ensures Remember(LastOf(history, REPLAY_WINDOW), id) == LastOf(history + [id], REPLAY_WINDOW)
  {
  }

  lemma IdsDiffer(m: nat, n: nat)
    requires IdOf(m) == IdOf(n)
    ensures m == n
  {
    hide Decimal.Print;
    assert IdOf(m)[4..] == Decimal.Print(m) && IdOf(n)[4..] == Decimal.Print(n);
    Decimal.ThreeFormsAgree(Decimal.Print(m));
  }

  /** No answered request, in the window or before it, has the pending id. */
  lemma PendingIsNew(s: State)
    requires Inv(s) && s.pending.Some?
    ensures s.pending.value < |s.requests|
    ensures IdOf(s.requests[s.pending.value].number) !in Ids(s.answered)
    ensures IdOf(s.requests[s.pending.value].number) !in s.seen
  {
    hide IdOf, RepliesOk, ResultsOk, OwnerOk, LiveOk;
    var number := s.requests[s.pending.value].number;
    forall i | 0 <= i < |s.answered| ensures Ids(s.answered)[i] != IdOf(number) {
      if IdOf(s.answered[i]) == IdOf(number) { IdsDiffer(s.answered[i], number); }
    }
  }

  /** The window of 32 ids decides every frame as the whole history would, and neither ever finds a duplicate. */
  lemma ReplayWindowSuffices(s: State, frame: Incoming)
    requires Inv(s)
    ensures FrameError(s, frame, s.seen) == FrameError(s, frame, Ids(s.answered))
    ensures FrameError(s, frame, s.seen) != Some(DuplicateId)
  {
    hide Inv, Ids, IdOf;
    InvIsWellFormed(s);
    if s.pending.Some? { PendingIsNew(s); }
  }

  lemma AnswerKeepsInv(s: State, frame: Incoming)
    requires Inv(s) && FrameError(s, frame, s.seen).None?
    ensures Inv(DispatchFrame(s, frame))
  {
    hide LastOf, Ids, IdOf, Remember, HasCaller, OwnerOk;
    var t, k := DispatchFrame(s, frame), s.pending.value;
    assert forall j :: 0 <= j < |s.requests| && j != k ==> t.requests[j] == s.requests[j];
    IdsAppend(s.answered, s.requests[k].number);
    WindowSlides(Ids(s.answered), frame.id);
    AnswerKeepsLive(s, frame);
    AnswerKeepsOwner(s, frame);
  }

  lemma AnswerKeepsLive(s: State, frame: Incoming)
    requires s.WellFormed() && LiveOk(s) && FrameError(s, frame, s.seen).None?
    ensures LiveOk(DispatchFrame(s, frame))
  {
    hide IdOf, Remember;
    var t, k := DispatchFrame(s, frame), s.pending.value;
    forall j | 0 <= j < |t.requests| && t.requests[j].Live() ensures HasCaller(t, j, t.requests[j]) {
      assert t.requests[j] == (if j == k then t.requests[k] else s.requests[j]) && HasCaller(s, j, s.requests[j]);
    }
  }

  lemma AnswerKeepsOwner(s: State, frame: Incoming)
    requires s.WellFormed() && OwnerOk(s) && FrameError(s, frame, s.seen).None?
    ensures OwnerOk(DispatchFrame(s, frame))
  {
  }

  lemma FrameKeepsInv(s: State, frame: Incoming)
    requires !s.opening.NotOpened?
    requires Inv(s)
    ensures Inv(DispatchFrame(s, frame))
  {
    hide Inv, IdOf, SignalFailure, Remember;
    InvIsWellFormed(s);
    if FrameError(s, frame, s.seen).Some? {
      FailureKeepsInv(s, FrameError(s, frame, s.seen).value);
    } else {
      AnswerKeepsInv(s, frame);
    }
  }

  // ---------------------------------------------------------------- the helper's events

  /** Steps that do not touch requests, replies or numbers. */
  lemma SameRequests(s: State, t: State)
    requires t.requests == s.requests && t.pending == s.pending && t.sequence == s.sequence && t.seen == s.seen
      && t.answered == s.answered
    ensures RepliesOk(s) ==> RepliesOk(t)
    ensures NumbersOk(s) ==> NumbersOk(t)
    ensures ResultsOk(s) ==> ResultsOk(t)
  {
  }

  ghost predicate OnlyProcess(s: State, t: State) {
    t == s.(owned := t.owned, pid := t.pid, exitConfirmed := t.exitConfirmed, exited := t.exited, cleanup := t.cleanup,
            cleanupError := t.cleanupError)
  }

  lemma ProcessKeepsInv(s: State, t: State)
    requires !s.opening.NotOpened?
    requires Inv(s) && OnlyProcess(s, t) && t.WellFormed() && OwnerOk(t)
    ensures Inv(t)
  {
  }

  lemma ConfirmKeepsInv(s: State)
    requires !s.opening.NotOpened?
    requires Inv(s) && s.exited
    ensures Inv(ConfirmExit(s))
  {
  }

  lemma NoteKeepsInv(s: State)
    requires !s.opening.NotOpened?
    requires Inv(s) && s.spawned
    ensures Inv(NoteExit(s))
  {
  }

  lemma AfterReadersKeepsInv(s: State)
    requires !s.opening.NotOpened?
    requires Inv(s) && s.cleanup.JoiningReaders?
    ensures Inv(AfterReaders(s))
  {
    hide RepliesOk, NumbersOk, ResultsOk, LiveOk;
    ProcessKeepsInv(s, AfterReaders(s));
  }

  lemma ReapKeepsInv(s: State)
    requires !s.opening.NotOpened?
    requires Inv(s) && s.cleanup.AwaitingExit?
    ensures Inv(GiveUpReaping(s))
    ensures s.exited ==> Inv(Release(s))
  {
    hide RepliesOk, NumbersOk, ResultsOk, LiveOk;
    ProcessKeepsInv(s, GiveUpReaping(s));
    if s.exited { ProcessKeepsInv(s, Release(s)); }
  }

  lemma HelperStepKeepsInv(s: State, e: HelperEvent)
    requires Inv(s) && HelperCan(s, e)
    ensures Inv(HelperStep(s, e))
  {
    hide Inv, SignalFailure, DispatchFrame, AfterReaders, Release, GiveUpReaping, NoteExit;
    InvIsWellFormed(s);
    match e
    case FrameRead(frame) => FrameKeepsInv(s, frame);
    case StdoutEnded => FailureKeepsInv(s, Eof);
    case StdoutThrew => FailureKeepsInv(s, ReadFailed);
    case StderrFlooded => FailureKeepsInv(s, StderrFlood);
    case ProcessExited => NoteKeepsInv(s);
    case ExitSeen =>
      ConfirmKeepsInv(s);
      FailureKeepsInv(ConfirmExit(s), HelperExit);
    case ExitThrew => FailureKeepsInv(s, ExitFailed);
    case ReadersJoined => AfterReadersKeepsInv(s);
    case ExitAwaited => ReapKeepsInv(s);
    case ReapTimedOut => ReapKeepsInv(s);
  }

  // ---------------------------------------------------------------- open and close

  lemma SpawnKeeps(s: State)
    requires Inv(s) && CanOpen(s)
    ensures var t := SpawnHelper(s); RepliesOk(t) && NumbersOk(t) && ResultsOk(t) && OwnerOk(t) && LiveOk(t)
  {
  }

  lemma OpenedKeepsInv(s: State, size: nat, maxFrame: nat)
    requires Inv(s) && CanOpen(s)
    ensures Inv(StartRequest(SpawnHelper(s), Hello, size, maxFrame, false).(opening := Greeting(|s.requests|)))
  {
    hide StartRequest, NumbersOk, OwnerOk, ResultsOk, RepliesOk;
    var s1 := SpawnHelper(s);
    SpawnKeeps(s);
    var t := StartRequest(s1, Hello, size, maxFrame, false);
    StartKeeps(s1, Hello, size, maxFrame, false);
    var u := t.(opening := Greeting(|s.requests|));
    StartedIsLive(s1, t, u, Hello);
    RelabelKeeps(t, u);
  }

  lemma UnopenedKeepsInv(s: State, state: RuntimeState)
    requires Inv(s) && CanOpen(s) && (state.Starting? || state.Failed?)
    ensures Inv(s.(state := state, opening := OpenThrew(TransportFailed)))
  {
  }

  lemma OwnerUnopened(s: State, t: State)
    requires OwnerOk(s)
    requires t == s.(
      state := t.state, opening := t.opening, closing := t.closing, abortListening := t.abortListening,
      closeCalled := t.closeCalled)
    ensures OwnerOk(t)
  {
  }

  /** Once the hello request is over, the opening routine may move on. */
  lemma OpeningMoves(s: State, state: RuntimeState, opening: Opening)
    requires Inv(s) && s.opening.Greeting? && !s.requests[s.opening.hello].Live()
    requires (opening.OpenReturned? && state.Open?) || (opening.OpenJoining? && state == s.state)
    ensures Inv(s.(state := state, opening := opening))
  {
  }

  lemma AfterHelloKeepsInv(s: State, valid: bool)
    requires Inv(s) && s.opening.Greeting? && !s.requests[s.opening.hello].Live()
    ensures Inv(AfterHello(s, valid))
  {
    hide Inv, SignalFailure, StartCleanup, Signalled;
    InvIsWellFormed(s);
    var phase := s.requests[s.opening.hello].phase;
    if phase.Returned? && valid {
      OpeningMoves(s, Open, OpenReturned);
    } else {
      var error := if phase.Threw? then phase.error else VersionMismatch;
      var s1 := SignalFailure(s, error);
      FailureIsSignal(s, error);
      StartCleanupIsSignal(s1);
      SignalledTwice(s, s1, StartCleanup(s1));
      SignalledKeepsInv(s, StartCleanup(s1));
      PhaseStays(s, StartCleanup(s1), s.opening.hello);
      SameOpening(s, StartCleanup(s1));
      OpeningMoves(StartCleanup(s1), StartCleanup(s1).state, OpenJoining(error));
    }
  }

  lemma SameOpening(s: State, t: State)
    requires Signalled(s, t)
    ensures t.opening == s.opening && t.WellFormed() && |t.requests| == |s.requests|
  {
  }

  lemma OpenCleanedKeepsInv(s: State)
    requires Inv(s) && s.opening.OpenJoining?
    ensures Inv(Joined(s).(opening := OpenThrew(s.opening.error)))
  {
    JoinedKeepsInv(s);
    hide NumbersOk, OwnerOk, ResultsOk, RepliesOk, Joined;
    var t := Joined(s);
    var u := t.(opening := OpenThrew(s.opening.error));
    SameRequests(t, u);
    OwnerUnopened(t, u);
    JoinedOpening(s);
    forall k | 0 <= k < |u.requests| && u.requests[k].Live() ensures HasCaller(u, k, u.requests[k]) {
      assert HasCaller(t, k, t.requests[k]);
    }
  }

  lemma JoinedOpening(s: State)
    requires s.WellFormed()
    ensures Joined(s).opening == s.opening && Joined(s).state == s.state
  {
  }

  lemma CallEndedKeepsInv(s: State)
    requires Inv(s) && s.inflight.Some? && !s.requests[s.inflight.value].Live()
    ensures Inv(s.(inflight := None))
  {
  }

  lemma ClosingKeepsInv(s: State)
    requires !s.opening.NotOpened?
    requires Inv(s)
    ensures Inv(s.(state := if s.state.Failed? then Failed else Closing, abortListening := false, closeCalled := true))
  {
  }

  lemma JoinForCloseKeepsInv(s: State, wasFailed: bool)
    requires !s.opening.NotOpened?
    requires Inv(s)
    requires !s.closing.AwaitingCleanup? && (s.closing.AwaitingShutdown? ==> !s.requests[s.closing.shutdown].Live())
    ensures Inv(JoinForClose(s, wasFailed))
  {
    hide NumbersOk, OwnerOk, ResultsOk, RepliesOk, StartCleanup, RejectPending, LiveOk, OpenedOk;
    var s1 := RejectPending(s, BeingClosed);
    var s2 := StartCleanup(s1);
    CleanupSignals(s);
    SignalledKeepsInv(s, s2);
    if s.closing.AwaitingShutdown? { PhaseStays(s, s2, s.closing.shutdown); }
    SameClosing(s, s2);
    RelabelKeeps(s2, s2.(closing := AwaitingCleanup(wasFailed)));
    CloseMoves(s2, AwaitingCleanup(wasFailed));
  }

  lemma CleanupSignals(s: State)
    requires s.WellFormed()
    ensures Signalled(s, StartCleanup(RejectPending(s, BeingClosed)))
  {
    hide Signalled, StartCleanup, RejectPending;
    RejectIsSignal(s, BeingClosed);
    StartCleanupIsSignal(RejectPending(s, BeingClosed));
    SignalledTwice(s, RejectPending(s, BeingClosed), StartCleanup(RejectPending(s, BeingClosed)));
  }

  lemma SameClosing(s: State, t: State)
    requires Signalled(s, t)
    ensures t.closing == s.closing && t.closeCalled == s.closeCalled && t.opening == s.opening
  {
  }

  lemma CloseMoves(s: State, closing: ClosePhase)
    requires !s.opening.NotOpened?
    requires s.WellFormed() && LiveOk(s) && OpenedOk(s) && !closing.AwaitingShutdown?
    requires s.closing.AwaitingShutdown? ==> !s.requests[s.closing.shutdown].Live()
    ensures LiveOk(s.(closing := closing)) && OpenedOk(s.(closing := closing))
  {
  }

  lemma ShutdownKeepsInv(s: State, size: nat, maxFrame: nat, wasFailed: bool)
    requires !s.opening.NotOpened?
    requires Inv(s) && s.closing.NotClosing? && s.closeCalled && !s.state.Open?
    ensures Inv(StartRequest(s, Shutdown, size, maxFrame, false).(closing := AwaitingShutdown(|s.requests|, wasFailed)))
  {
    hide StartRequest, NumbersOk, OwnerOk, ResultsOk, RepliesOk;
    var t := StartRequest(s, Shutdown, size, maxFrame, false);
    StartKeeps(s, Shutdown, size, maxFrame, false);
    var u := t.(closing := AwaitingShutdown(|s.requests|, wasFailed));
    StartedIsLive(s, t, u, Shutdown);
    RelabelKeeps(t, u);
  }

  lemma BeginCloseKeepsInv(s: State, size: nat, maxFrame: nat)
    requires !s.opening.NotOpened?
    requires Inv(s) && s.closing.NotClosing?
    ensures Inv(BeginClose(s, size, maxFrame))
  {
    hide Inv, StartRequest, JoinForClose, RejectPending, Signalled;
    InvIsWellFormed(s);
    var s0 := s.(state := if s.state.Failed? then Failed else Closing, abortListening := false, closeCalled := true);
    ClosingKeepsInv(s);
    var s1 := RejectPending(s0, BeingClosed);
    RejectIsSignal(s0, BeingClosed);
    SignalledKeepsInv(s0, s1);
    SameClosing(s0, s1);
    NeverOpens(s0, s1);
    var wasFailed := s.state.Failed? || s.failError.Some?;
    if !wasFailed && s1.owned && !s1.exited {
      ShutdownKeepsInv(s1, size, maxFrame, wasFailed);
    } else {
      JoinForCloseKeepsInv(s1, wasFailed);
    }
  }

  lemma NeverOpens(s: State, t: State)
    requires Signalled(s, t)
    ensures t.state.Open? ==> s.state.Open?
  {
  }

  lemma FinishOwner(s: State, wasFailed: bool)
    requires s.WellFormed() && OwnerOk(s) && CleanedUp(s)
    ensures OwnerOk(FinishClose(s, wasFailed))
  {
  }

  lemma FinishRest(s: State, wasFailed: bool)
    requires s.WellFormed()
    ensures var t := FinishClose(s, wasFailed);
      && t.requests == s.requests && t.pending == s.pending && t.sequence == s.sequence && t.seen == s.seen
      && t.answered == s.answered
      && t.writer == s.writer && t.canceller == s.canceller && t.opening == s.opening && t.inflight == s.inflight
      && t.closeCalled == s.closeCalled && t.closing.NotClosing? && !t.Connected()
  {
    hide EndClose, Joined;
    JoinedRest(s);
    EndRest(Joined(s), wasFailed);
  }

  lemma JoinedRest(s: State)
    requires s.WellFormed()
    ensures var t := Joined(s); t == s.(cleanupError := t.cleanupError)
  {
  }

  lemma EndRest(s: State, wasFailed: bool)
    requires s.WellFormed()
    ensures var t := EndClose(s, wasFailed);
      && t.requests == s.requests && t.pending == s.pending && t.sequence == s.sequence && t.seen == s.seen
      && t.answered == s.answered
      && t.writer == s.writer && t.canceller == s.canceller && t.opening == s.opening && t.inflight == s.inflight
      && t.closeCalled == s.closeCalled && t.closing.NotClosing? && !t.Connected()
  {
  }

  lemma FinishKeepsInv(s: State, wasFailed: bool)
    requires Inv(s) && CleanedUp(s) && s.closing.AwaitingCleanup? && !s.opening.NotOpened?
    ensures Inv(FinishClose(s, wasFailed))
  {
    hide NumbersOk, OwnerOk, ResultsOk, RepliesOk, FinishClose;
    var t := FinishClose(s, wasFailed);
    FinishOwner(s, wasFailed);
    FinishRest(s, wasFailed);
    SameRequests(s, t);
    forall k | 0 <= k < |t.requests| && t.requests[k].Live() ensures HasCaller(t, k, t.requests[k]) {
      assert HasCaller(s, k, s.requests[k]);
    }
  }

  /** Every step keeps the invariant, whatever it is and whenever it happens. */
  lemma StepKeepsInv(s: State, e: Event, maxFrame: nat)
    requires Inv(s) && Enabled(s, e)
    ensures Inv(Step(s, e, maxFrame))
  {
    hide Inv, StartRequest, JoinForClose, BeginClose, FinishClose, AfterHello, Joined, SignalFailure, RequestStep,
      HelperStep, RequestCan, HelperCan;
    InvIsWellFormed(s);
    match e
    case Opened(size) => OpenedKeepsInv(s, size, maxFrame);
    case OpenStuck => UnopenedKeepsInv(s, Starting);
    case OpenRefused => UnopenedKeepsInv(s, Failed);
    case OpenAnswered(valid) => AfterHelloKeepsInv(s, valid);
    case OpenCleaned => OpenCleanedKeepsInv(s);
    case OpenSignalFired => FailureKeepsInv(s, Aborted);
    case Called(size, signalled) => CallKeepsInv(s, size, maxFrame, signalled);
    case CallEnded => CallEndedKeepsInv(s);
    case CloseCalled(size) => BeginCloseKeepsInv(s, size, maxFrame);
    case ShutdownEnded => JoinForCloseKeepsInv(s, s.closing.wasFailed);
    case CloseCleaned => FinishKeepsInv(s, s.closing.wasFailed);
    case OfRequest(k, request) => RequestStepKeepsInv(s, k, request);
    case OfHelper(helper) => HelperStepKeepsInv(s, helper);
  }
}
