/** Critical sections of closing: claiming a failure, normal shutdown, the one close
    publisher, and letting go of leases (codexsdk/client.go,
    codexsdk/notification_dispatch.go, codexsdk/lifecycle.go). */
module Closing {
  import opened Wrappers
  import opened Attribution
  import opened Retention
  import opened ExactRun
  import opened ClientState
  import Totals

  ghost function DoBeginShutdown(s: State): State {
    if s.close.closed then s
    else s.(close := s.close.(closed := true, reason := Some(ErrClientClosed), pub := Claimed))
  }

  /** All runs registered under turnMu. */
  ghost function Registered(s: State): set<RunId> {
    (set t, r | t in s.reg.streams && r in s.reg.streams[t] :: r)
    + (set t, r | t in s.reg.attaching && r in s.reg.attaching[t] :: r)
  }

  ghost function Replaying(s: State): set<RunId> { set r | r in s.slots && s.slots[r].caller.Replay? }

  ghost predicate CanSnapshot(s: State, turns: seq<Id>, runs: seq<RunId>, finishing: seq<RunId>) {
    && s.close.pub.Claimed?
    && Enumerates(turns, s.reg.pend.Keys) && Enumerates(runs, Replaying(s)) && Enumerates(finishing, Registered(s))
  }

  ghost predicate Outstanding(ev: Evidence, r: RunId) { exists no :: Open(ev, r, no) }

  /** Frames parked for the run are not yet accepted when the snapshot takes them,
      and a live frame is on its way to it: the run has published its turn, is not
      attached yet, and still accepts frames. */
  ghost predicate Overtakes(s: State, r: RunId) {
    && s.reader.Routed? && ClassOf(s.reader.note).Turn? && r in s.reader.targets
    && r in s.slots && s.slots[r].caller.Window? && !s.slots[r].run.terminal && !s.slots[r].run.terminalAdmitted
    && Outstanding(s.ev, r)
  }

  /** The overtaken frames can still be accepted after the live one. */
  ghost predicate Inverts(s: State, r: RunId) { Overtakes(s, r) && !s.reader.note.payload.TurnCompleted? }

  predicate BeforeCollection(c: Caller) {
    c.Created? || c.RegReplay? || c.Calling? || c.Answered? || c.Window? || c.FinLocked?
  }

  function Marked(x: Slot): Slot {
    x.(taken := x.taken || BeforeCollection(x.caller), copied := x.copied || x.caller.Replay?)
  }

  function MarkAll(m: map<RunId, Slot>): map<RunId, Slot> { map r | r in m :: Marked(m[r]) }

  /** failAll under turnMu: takes parked evidence, retains replaying evidence, lets
      go of everything pending or armed. */
  ghost function DoSnapshot(s: State, turns: seq<Id>, runs: seq<RunId>, finishing: seq<RunId>): State
    requires CanSnapshot(s, turns, runs, finishing)
  {
    var replay := ConcatReplays(s.slots, runs);
    var letGo := Totals.Union(s.reg.threadPend, ListLeases) + Totals.Union(s.reg.attachment, One);
    s.(close := s.close.(pub := Draining(Concat(s.reg.pend, turns), replay, finishing)),
       mem := s.mem.(budget := RetainAll(s.mem.budget, Leases(replay)), dropping := s.mem.dropping + letGo),
       reg := s.reg.(pend := map[], threadPend := map[], attachment := map[], armedThreads := {}, armedTurns := map[]),
       slots := MarkAll(s.slots))
  }

  ghost predicate CanPublishPending(s: State) { s.close.pub.Draining? && s.close.pub.pending != [] }

  ghost function DoPublishPending(s: State): State
    requires CanPublishPending(s)
  {
    var p := s.close.pub.pending[0];
    var s1 := if p.no in s.ev.owner then Resolve(s, p, s.ev.owner[p.no]) else s;
    LetGo(SetPublisher(s1, s.close.pub.(pending := s.close.pub.pending[1..])), multiset{p.lease})
  }

  ghost predicate CanPublishReplay(s: State) {
    s.close.pub.Draining? && s.close.pub.pending == [] && s.close.pub.replay != []
  }

  ghost function DoPublishReplay(s: State): State
    requires CanPublishReplay(s)
  {
    var p := s.close.pub.replay[0];
    var s1 := if p.no in s.ev.owner then Resolve(s, p, s.ev.owner[p.no]) else s;
    LetGo(SetPublisher(s1, s.close.pub.(replay := s.close.pub.replay[1..])), multiset{p.lease})
  }

  ghost predicate CanPublishFinish(s: State) {
    s.close.pub.Draining? && s.close.pub.pending == [] && s.close.pub.replay == [] && s.close.pub.finishing != []
  }

  ghost function DoPublishFinish(s: State): State
    requires CanPublishFinish(s)
  {
    SetPublisher(FinishRun(s, s.close.pub.finishing[0], Cause(s), ByError),
                 s.close.pub.(finishing := s.close.pub.finishing[1..]))
  }

  ghost predicate CanPublishDone(s: State) { s.close.pub == Draining([], [], []) }

  ghost predicate CanStop(s: State) { s.close.pub.Published? && s.close.failure.None? }

  /** discardAcceptedNotifications by the shutdown goroutine. */
  ghost predicate CanDiscardQueued(s: State) { s.q.queue != [] && s.close.cancelled }

  ghost predicate CanDrop(s: State, l: LeaseId) { l in s.mem.dropping }

  ghost function DoDrop(s: State, l: LeaseId): State
    requires CanDrop(s, l)
  {
    s.(mem := s.mem.(budget := Release(s.mem.budget, l), dropping := s.mem.dropping - multiset{l}))
  }

  /** A diagnostic takes a lease; without room the client fails, which is an action
      of its own. */
  ghost function DoReserveDiagnostic(s: State, bytes: nat): State {
    var (b, l) := Reserve(s.mem.budget, 1, bytes);
    if l.None? then s
    else s.(mem := s.mem.(budget := b, diagnostics := s.mem.diagnostics + multiset{l.value}))
  }

  ghost predicate CanKeepDiagnostic(s: State, l: LeaseId) { l in s.mem.diagnostics }

  /** addDiagnosticRetained: a run becomes one more owner of the lease. */
  ghost function DoKeepDiagnostic(s: State, l: LeaseId): State
    requires CanKeepDiagnostic(s, l)
  {
    s.(mem := s.mem.(budget := Retain(s.mem.budget, l), diagnostics := s.mem.diagnostics + multiset{l}))
  }

  ghost function DoLetGoDiagnostic(s: State, l: LeaseId): State
    requires CanKeepDiagnostic(s, l)
  {
    LetGo(s.(mem := s.mem.(diagnostics := s.mem.diagnostics - multiset{l})), multiset{l})
  }

  datatype Action =
    | FailClient(err: Err)
    | BeginShutdown
    | Snapshot(turns: seq<Id>, runs: seq<RunId>, finishing: seq<RunId>)
    | PublishPending
    | PublishReplay
    | PublishFinish
    | PublishDone
    | Cancel
    | Stop
    | DiscardQueued
    | Drop(l: LeaseId)
    | ReserveDiagnostic(bytes: nat)
    | KeepDiagnostic(l: LeaseId)
    | LetGoDiagnostic(l: LeaseId)

  ghost predicate Enabled(s: State, a: Action) {
    match a
    case FailClient(_) => true
    case BeginShutdown => true
    case Snapshot(turns, runs, finishing) => CanSnapshot(s, turns, runs, finishing)
    case PublishPending => CanPublishPending(s)
    case PublishReplay => CanPublishReplay(s)
    case PublishFinish => CanPublishFinish(s)
    case PublishDone => CanPublishDone(s)
    case Cancel => s.close.closed
    case Stop => CanStop(s)
    case DiscardQueued => CanDiscardQueued(s)
    case Drop(l) => CanDrop(s, l)
    case ReserveDiagnostic(_) => true
    case KeepDiagnostic(l) => CanKeepDiagnostic(s, l)
    case LetGoDiagnostic(l) => CanKeepDiagnostic(s, l)
  }

  ghost function Step(s: State, a: Action): State
    requires Enabled(s, a)
  {
    match a
    case FailClient(err) => ClaimFailure(s, err)
    case BeginShutdown => DoBeginShutdown(s)
    case Snapshot(turns, runs, finishing) => DoSnapshot(s, turns, runs, finishing)
    case PublishPending => DoPublishPending(s)
    case PublishReplay => DoPublishReplay(s)
    case PublishFinish => DoPublishFinish(s)
    case PublishDone => s.(close := s.close.(pub := Published))
    case Cancel => s.(close := s.close.(cancelled := true))
    case Stop => s.(close := s.close.(stopped := true))
    case DiscardQueued => DiscardFirst(s)
    case Drop(l) => DoDrop(s, l)
    case ReserveDiagnostic(bytes) => DoReserveDiagnostic(s, bytes)
    case KeepDiagnostic(l) => DoKeepDiagnostic(s, l)
    case LetGoDiagnostic(l) => DoLetGoDiagnostic(s, l)
  }
}
