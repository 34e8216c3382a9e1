/** The serial notification dispatcher (codexsdk/notification_dispatch.go). */
module Dispatch {
  import opened Wrappers
  import opened Attribution
  import opened Retention
  import opened ExactRun
  import opened ClientState

  ghost predicate CanTake(s: State) { s.q.disp.Waiting? && s.q.queue != [] }

  ghost function DoTake(s: State): State
    requires CanTake(s)
  {
    s.(q := s.q.(queue := s.q.queue[1..], disp := Holding(s.q.queue[0])))
  }

  /** The entry's evidence is open, or the dispatcher is draining after stop. */
  ghost predicate MayDispatch(s: State) {
    s.q.disp.Holding? && (s.q.disp.e.evidence && !s.q.stopping ==> s.q.disp.e.frame in s.ev.ready)
  }

  /** Every callback for the entry returned without error. */
  ghost function DoDeliver(s: State): State
    requires MayDispatch(s)
  {
    var e := s.q.disp.e;
    var fromEvidence := if e.evidence && e.frame in s.ev.completion then [s.ev.completion[e.frame]] else [];
    LetGo(ReleaseWaiter(s, e.frame, e.evidence), multiset{e.lease})
      .(q := s.q.(delivered := s.q.delivered + {e.no},
                  disp := if s.cfg.handler then Delivered(e, fromEvidence + e.completions) else Waiting))
  }

  ghost predicate CanCallbackFail(s: State) { MayDispatch(s) && s.cfg.handler }

  ghost function DoCallbackFails(s: State, err: Err): State
    requires CanCallbackFail(s)
  {
    s.(q := s.q.(disp := Aborting(s.q.disp.e, Some(err))))
  }

  ghost predicate CanDispatchComplete(s: State) { s.q.disp.Delivered? && s.q.disp.completions != [] }

  ghost function DoDispatchComplete(s: State): State
    requires CanDispatchComplete(s)
  {
    var c := s.q.disp.completions[0];
    SetDispatcher(FinishRun(s, c.run, c.err, ByDispatch(s.q.disp.e.frame)),
                  s.q.disp.(completions := s.q.disp.completions[1..]))
  }

  ghost predicate CanDispatchNext(s: State) { s.q.disp.Delivered? && s.q.disp.completions == [] }

  ghost function DoDispatchNext(s: State): State
    requires CanDispatchNext(s)
  {
    s.(q := s.q.(disp := Waiting, work := s.q.work - 1))
  }

  ghost predicate CanDispatchClaim(s: State) { s.q.disp.Aborting? && s.q.disp.failed.Some? }

  ghost function DoDispatchClaim(s: State): State
    requires CanDispatchClaim(s)
  {
    SetDispatcher(ClaimFailure(s, s.q.disp.failed.value), s.q.disp.(failed := None))
  }

  /** discardCurrentAndQueuedNotifications, for the entry being held. */
  ghost predicate CanDiscardHeld(s: State) {
    || (s.q.disp.Holding? && s.close.cancelled && !s.q.stopping)
    || (s.q.disp.Aborting? && s.q.disp.failed.None? && s.q.queue == [])
  }

  ghost function DoDiscardHeld(s: State): State
    requires CanDiscardHeld(s)
  {
    var e := s.q.disp.e;
    LetGo(ReleaseWaiter(s, e.frame, e.evidence), multiset{e.lease})
      .(q := s.q.(discarded := s.q.discarded + {e.no}, work := SettleWork(s),
                  disp := if s.q.disp.Holding? then Discarding else Exited))
  }

  /** discardAcceptedNotifications by the dispatcher. */
  ghost predicate CanDiscardHead(s: State) {
    && s.q.queue != []
    && (s.q.disp.Discarding? || (s.q.disp.Aborting? && s.q.disp.failed.None?)
        || (s.q.disp.Waiting? && s.close.cancelled && !s.q.stopping))
  }

  ghost predicate CanBeginStopping(s: State) {
    s.close.stopped && !s.q.stopping && (s.q.disp.Waiting? || s.q.disp.Holding?)
  }

  /** finishDispatchStop: evidence still awaited is opened without acceptance. */
  ghost function DoBeginStopping(s: State): State
    requires CanBeginStopping(s)
  {
    if s.q.disp.Holding? && s.q.disp.e.evidence && s.q.disp.e.frame !in s.ev.ready
    then s.(q := s.q.(stopping := true), ev := s.ev.(ready := s.ev.ready + {s.q.disp.e.frame}))
    else s.(q := s.q.(stopping := true))
  }

  predicate Completes(log: seq<Note>, no: nat) { no < |log| && log[no].payload.TurnCompleted? }

  /** Frame `no` of the run waits behind the dispatcher's frame, and nothing before
      it ends the run's evidence. */
  ghost predicate WaitsBehind(s: State, r: RunId, no: nat) {
    && s.q.disp.Holding? && s.q.disp.e.frame < no && Open(s.ev, r, no)
    && forall k: nat :: Open(s.ev, r, k) && k < no && k != s.q.disp.e.frame ==> !Completes(s.log, k)
  }

  /** Stopping opens a frame of a run that still accepts frames, and a later one is
      accepted without it. */
  ghost predicate Skips(s: State, r: RunId) {
    && s.q.disp.Holding? && s.q.disp.e.evidence && Open(s.ev, r, s.q.disp.e.frame)
    && r in s.slots && !s.slots[r].run.terminal && !s.slots[r].run.terminalAdmitted
    && exists no: nat :: WaitsBehind(s, r, no)
  }

  ghost predicate CanDispatcherExit(s: State) {
    s.q.queue == [] && (s.q.disp.Discarding? || (s.q.disp.Waiting? && (s.q.stopping || s.close.cancelled)))
  }

  datatype Action =
    | Take
    | Deliver
    | CallbackFails(err: Err)
    | Complete
    | Next
    | Claim
    | DiscardHeld
    | DiscardHead
    | BeginStopping
    | Exit

  ghost predicate Enabled(s: State, a: Action) {
    match a
    case Take => CanTake(s)
    case Deliver => MayDispatch(s)
    case CallbackFails(_) => CanCallbackFail(s)
    case Complete => CanDispatchComplete(s)
    case Next => CanDispatchNext(s)
    case Claim => CanDispatchClaim(s)
    case DiscardHeld => CanDiscardHeld(s)
    case DiscardHead => CanDiscardHead(s)
    case BeginStopping => CanBeginStopping(s)
    case Exit => CanDispatcherExit(s)
  }

  ghost function Step(s: State, a: Action): State
    requires Enabled(s, a)
  {
    match a
    case Take => DoTake(s)
    case Deliver => DoDeliver(s)
    case CallbackFails(err) => DoCallbackFails(s, err)
    case Complete => DoDispatchComplete(s)
    case Next => DoDispatchNext(s)
    case Claim => DoDispatchClaim(s)
    case DiscardHeld => DoDiscardHeld(s)
    case DiscardHead => DiscardFirst(s)
    case BeginStopping => DoBeginStopping(s)
    case Exit => s.(q := s.q.(disp := Exited))
  }
}
