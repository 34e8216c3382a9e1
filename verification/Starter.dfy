/** Critical sections of the goroutines that start, attach, finish and cancel runs
    (codexsdk/client.go, codexsdk/exact_runner.go). */
module Starter {
  import opened Wrappers
  import opened Attribution
  import opened Retention
  import opened ExactRun
  import opened ClientState

  ghost predicate CanCreateRun(s: State, r: RunId, thread: Id) { r !in s.slots && thread != "" }

  ghost function DoCreateRun(s: State, r: RunId, thread: Id): State
    requires CanCreateRun(s, r, thread)
  {
    s.(slots := s.slots[r := Slot(NewRun(thread), Created, false, None, false, false, false, NotFinished)])
  }

  ghost predicate CanRegister(s: State, r: RunId) { r in s.slots && s.slots[r].caller.Created? }

  /** registerAttachingExactStream under turnMu. */
  ghost function DoRegister(s: State, r: RunId): State
    requires CanRegister(s, r)
  {
    var thread := s.slots[r].run.threadId;
    if s.close.closed then SetCaller(s, r, Refused(ErrClientClosed))
    else if Under(s.reg.attaching, thread) != {} then SetCaller(s, r, Refused(ErrConcurrentTurnStart))
    else
      var list := ListAt(s.reg.threadPend, thread);
      ReleaseAttachment(
        SetCaller(s, r, RegReplay(list, 0, None))
          .(reg := s.reg.(attaching := s.reg.attaching[thread := {r}], threadPend := s.reg.threadPend - {thread},
                          armedThreads := s.reg.armedThreads - {thread})),
        ThreadKey(thread))
  }

  ghost predicate CanFinishRefused(s: State, r: RunId) { r in s.slots && s.slots[r].caller.Refused? }

  /** The starter ends a run whose registration was refused. */
  ghost function DoFinishRefused(s: State, r: RunId): State
    requires CanFinishRefused(s, r)
  {
    FinishRun(SetCaller(s, r, Over), r, Some(s.slots[r].caller.refusal), ByError)
  }

  ghost predicate CanRegisterAccept(s: State, r: RunId) {
    r in s.slots && s.slots[r].caller.RegReplay? && s.slots[r].caller.todo.None?
    && s.slots[r].caller.regNext < |s.slots[r].caller.list|
  }

  ghost function DoRegisterAccept(s: State, r: RunId): State
    requires CanRegisterAccept(s, r)
  {
    var c := s.slots[r].caller;
    var (s1, done) := AcceptRetained(s, r, c.list[c.regNext]);
    SetCaller(s1, r, c.(regNext := c.regNext + 1, todo := done))
  }

  ghost predicate CanRegisterComplete(s: State, r: RunId) {
    r in s.slots && s.slots[r].caller.RegReplay? && s.slots[r].caller.todo.Some?
  }

  /** Completes at once: no callback fence on this path. */
  ghost function DoRegisterComplete(s: State, r: RunId): State
    requires CanRegisterComplete(s, r)
  {
    var c := s.slots[r].caller;
    FinishRun(SetCaller(s, r, c.(todo := None)), c.todo.value.run, c.todo.value.err, ByRegister)
  }

  ghost predicate CanRegisterDone(s: State, r: RunId) {
    r in s.slots && s.slots[r].caller.RegReplay? && s.slots[r].caller.todo.None?
    && s.slots[r].caller.regNext >= |s.slots[r].caller.list|
  }

  ghost function DoRegisterDone(s: State, r: RunId): State
    requires CanRegisterDone(s, r)
  {
    LetGo(SetCaller(s, r, Calling), ListLeases(s.slots[r].caller.list))
  }

  ghost predicate CanAttachLock(s: State, r: RunId) {
    r in s.slots && s.slots[r].caller.Answered? && !s.slots[r].ordered && s.slots[r].arm.Some?
  }

  /** attachExactStreamForTurn: order gate, then setTurn. */
  ghost function DoAttachLock(s: State, r: RunId): State
    requires CanAttachLock(s, r)
  {
    var x := s.slots[r];
    s.(slots := s.slots[r := x.(caller := Window, ordered := true, run := SetTurn(x.run, x.arm.value.turn))])
  }

  ghost predicate CanAttachPublish(s: State, r: RunId) { r in s.slots && s.slots[r].caller.Window? }

  /** attachExactStreamLocked under turnMu. */
  ghost function DoAttachPublish(s: State, r: RunId): State
    requires CanAttachPublish(s, r)
  {
    var x := s.slots[r];
    var turn := x.run.turnId;
    var s1 := ReleaseAttachment(
      s.(reg := s.reg.(armedTurns := s.reg.armedTurns - {turn},
                       attaching := Without(s.reg.attaching, x.run.threadId, r))),
      TurnKey(turn));
    if x.run.terminal then s1.(slots := s.slots[r := x.(caller := Attached, ordered := false)])
    else s1.(reg := s1.reg.(streams := With(s.reg.streams, turn, r), pend := s.reg.pend - {turn}),
             slots := s.slots[r := x.(caller := Replay(ListAt(s.reg.pend, turn), 0, false))])
  }

  ghost predicate CanAttachResolve(s: State, r: RunId) {
    r in s.slots && s.slots[r].caller.Replay? && !s.slots[r].caller.resolved
    && s.slots[r].caller.next < |s.slots[r].caller.list|
  }

  ghost function DoAttachResolve(s: State, r: RunId): State
    requires CanAttachResolve(s, r)
  {
    var c := s.slots[r].caller;
    SetCaller(Resolve(s, c.list[c.next], r), r, c.(resolved := true))
  }

  ghost predicate CanAttachNext(s: State, r: RunId) {
    r in s.slots && s.slots[r].caller.Replay? && s.slots[r].caller.resolved
    && s.slots[r].caller.next < |s.slots[r].caller.list|
  }

  /** Without callbacks the replay itself completes the run; with callbacks the
      dispatcher does. */
  ghost function DoAttachNext(s: State, r: RunId): State
    requires CanAttachNext(s, r)
  {
    var c := s.slots[r].caller;
    var no := c.list[c.next].no;
    var s1 := SetCaller(s, r, c.(next := c.next + 1, resolved := false));
    if !s.cfg.handler && no in s.ev.completion
    then FinishRun(s1, s.ev.completion[no].run, s.ev.completion[no].err, ByReplay)
    else s1
  }

  ghost predicate CanAttachDone(s: State, r: RunId) {
    r in s.slots && s.slots[r].caller.Replay? && !s.slots[r].caller.resolved
    && s.slots[r].caller.next >= |s.slots[r].caller.list|
  }

  ghost function DoAttachDone(s: State, r: RunId): State
    requires CanAttachDone(s, r)
  {
    var x := s.slots[r];
    LetGo(s.(slots := s.slots[r := x.(caller := Attached, ordered := false)]), ListLeases(x.caller.list))
  }

  ghost predicate CanFinishLock(s: State, r: RunId) {
    r in s.slots && (s.slots[r].caller.Calling? || s.slots[r].caller.Answered?) && !s.slots[r].ordered
  }

  ghost function DoFinishLock(s: State, r: RunId): State
    requires CanFinishLock(s, r)
  {
    s.(slots := s.slots[r := s.slots[r].(caller := FinLocked, ordered := true)])
  }

  ghost predicate CanFinishCollect(s: State, r: RunId) { r in s.slots && s.slots[r].caller.FinLocked? }

  predicate OwnedBy(s: State, p: Parked, r: RunId) { p.no in s.ev.owner && s.ev.owner[p.no] == r }

  function Mine(s: State, list: seq<Parked>, r: RunId): seq<Parked> {
    if list == [] then []
    else Mine(s, list[..|list| - 1], r)
         + (if OwnedBy(s, list[|list| - 1], r) then [list[|list| - 1]] else [])
  }

  function Kept(s: State, list: seq<Parked>, r: RunId): seq<Parked> {
    if list == [] then []
    else Kept(s, list[..|list| - 1], r)
         + (if OwnedBy(s, list[|list| - 1], r) then [] else [list[|list| - 1]])
  }

  /** The parked lists without the evidence of a run; no key keeps an empty list. */
  function KeepOthers(s: State, turn: Id, r: RunId): map<Id, seq<Parked>> {
    var kept := Kept(s, ListAt(s.reg.pend, turn), r);
    if kept == [] then s.reg.pend - {turn} else s.reg.pend[turn := kept]
  }

  /** finishAttachingExactStream under turnMu. The source scans every armed turn
      and every parked list for this run; only its own turn can hold any, which
      Registration.FinishScansEverything proves. */
  ghost function DoFinishCollect(s: State, r: RunId): State
    requires CanFinishCollect(s, r)
  {
    var x := s.slots[r];
    var s0 := s.(reg := s.reg.(attaching := Without(s.reg.attaching, x.run.threadId, r)));
    if x.arm.None? then s0.(slots := s.slots[r := x.(caller := FinResolve([], 0))])
    else
      var turn := x.arm.value.turn;
      var s1 := if turn in s.reg.armedTurns && s.reg.armedTurns[turn] == r
                then ReleaseAttachment(s0.(reg := s0.reg.(armedTurns := s.reg.armedTurns - {turn})), TurnKey(turn))
                else s0;
      s1.(slots := s.slots[r := x.(caller := FinResolve(Mine(s, ListAt(s.reg.pend, turn), r), 0),
                                   arm := Some(x.arm.value.(until := Some(|s.log|))))],
                                       reg := s1.reg.(pend := KeepOthers(s, turn, r)))
  }

  ghost predicate CanFinishResolve(s: State, r: RunId) {
    r in s.slots && s.slots[r].caller.FinResolve? && s.slots[r].caller.finNext < |s.slots[r].caller.list|
  }

  ghost function DoFinishResolve(s: State, r: RunId): State
    requires CanFinishResolve(s, r)
  {
    var c := s.slots[r].caller;
    SetCaller(Resolve(s, c.list[c.finNext], r), r, c.(finNext := c.finNext + 1))
  }

  ghost predicate CanFinishUnlock(s: State, r: RunId) {
    r in s.slots && s.slots[r].caller.FinResolve? && s.slots[r].caller.finNext >= |s.slots[r].caller.list|
  }

  ghost function DoFinishUnlock(s: State, r: RunId): State
    requires CanFinishUnlock(s, r)
  {
    s.(slots := s.slots[r := s.slots[r].(caller := FinComplete(s.slots[r].caller.list, 0), ordered := false)])
  }

  /** awaitEvidenceHandler: the frame's dispatch channel is closed, or the close
      cause is published, or there are no callbacks. */
  ghost predicate CanFinishComplete(s: State, r: RunId) {
    && r in s.slots && s.slots[r].caller.FinComplete? && s.slots[r].caller.doneNext < |s.slots[r].caller.list|
    && var no := s.slots[r].caller.list[s.slots[r].caller.doneNext].no;
       no in s.ev.completion ==> !s.cfg.handler || no in s.ev.released || s.close.pub.Published?
  }

  ghost function DoFinishComplete(s: State, r: RunId): State
    requires CanFinishComplete(s, r)
  {
    var c := s.slots[r].caller;
    var no := c.list[c.doneNext].no;
    var s1 := SetCaller(s, r, c.(doneNext := c.doneNext + 1));
    if no in s.ev.completion
    then FinishRun(s1, s.ev.completion[no].run, s.ev.completion[no].err, ByFinish(no))
    else s1
  }

  ghost predicate CanFinishEnd(s: State, r: RunId) {
    r in s.slots && s.slots[r].caller.FinComplete? && s.slots[r].caller.doneNext >= |s.slots[r].caller.list|
  }

  ghost function DoFinishEnd(s: State, r: RunId, err: Err): State
    requires CanFinishEnd(s, r)
  {
    FinishRun(LetGo(SetCaller(s, r, Over), ListLeases(s.slots[r].caller.list)),
              r, Some(err), ByError)
  }

  /** Stream.Close, or a failed server request attributed to the run. */
  ghost predicate CanExternalFinish(s: State, r: RunId) {
    r in s.slots && !s.slots[r].caller.Created? && !s.slots[r].caller.Refused?
  }

  ghost function DoExternalFinish(s: State, r: RunId, err: Err): State
    requires CanExternalFinish(s, r)
  {
    FinishRun(s, r, Some(err), ByError)
  }

  ghost predicate CanUnregister(s: State, r: RunId) { r in s.unreg && r in s.slots }

  ghost function DoUnregister(s: State, r: RunId): State
    requires CanUnregister(s, r)
  {
    var x := s.slots[r];
    s.(unreg := s.unreg - {r}, slots := s.slots[r := x.(gone := true)],
       reg := s.reg.(attaching := Without(s.reg.attaching, x.run.threadId, r),
                     streams := Without(s.reg.streams, x.run.turnId, r)))
  }

  /** The cleanup of an unreachable run lets go of its history's leases. */
  ghost predicate CanCollect(s: State, r: RunId) { r in s.slots && s.slots[r].run.terminal }

  ghost function DoCollect(s: State, r: RunId): State
    requires CanCollect(s, r)
  {
    LetGo(SetRun(s, r, s.slots[r].run.(owners := [])), multiset(s.slots[r].run.owners))
  }

  datatype Action =
    | CreateRun(thread: Id)
    | Register
    | FinishRefused
    | RegisterAccept
    | RegisterComplete
    | RegisterDone
    | AttachLock
    | AttachPublish
    | AttachResolve
    | AttachNext
    | AttachDone
    | FinishLock
    | FinishCollect
    | FinishResolve
    | FinishUnlock
    | FinishComplete
    | FinishEnd(err: Err)
    | ExternalFinish(err: Err)
    | Unregister
    | Collect

  ghost predicate Enabled(s: State, r: RunId, a: Action) {
    match a
    case CreateRun(thread) => CanCreateRun(s, r, thread)
    case Register => CanRegister(s, r)
    case FinishRefused => CanFinishRefused(s, r)
    case RegisterAccept => CanRegisterAccept(s, r)
    case RegisterComplete => CanRegisterComplete(s, r)
    case RegisterDone => CanRegisterDone(s, r)
    case AttachLock => CanAttachLock(s, r)
    case AttachPublish => CanAttachPublish(s, r)
    case AttachResolve => CanAttachResolve(s, r)
    case AttachNext => CanAttachNext(s, r)
    case AttachDone => CanAttachDone(s, r)
    case FinishLock => CanFinishLock(s, r)
    case FinishCollect => CanFinishCollect(s, r)
    case FinishResolve => CanFinishResolve(s, r)
    case FinishUnlock => CanFinishUnlock(s, r)
    case FinishComplete => CanFinishComplete(s, r)
    case FinishEnd(_) => CanFinishEnd(s, r)
    case ExternalFinish(_) => CanExternalFinish(s, r)
    case Unregister => CanUnregister(s, r)
    case Collect => CanCollect(s, r)
  }

  ghost function Step(s: State, r: RunId, a: Action): State
    requires Enabled(s, r, a)
  {
    match a
    case CreateRun(thread) => DoCreateRun(s, r, thread)
    case Register => DoRegister(s, r)
    case FinishRefused => DoFinishRefused(s, r)
    case RegisterAccept => DoRegisterAccept(s, r)
    case RegisterComplete => DoRegisterComplete(s, r)
    case RegisterDone => DoRegisterDone(s, r)
    case AttachLock => DoAttachLock(s, r)
    case AttachPublish => DoAttachPublish(s, r)
    case AttachResolve => DoAttachResolve(s, r)
    case AttachNext => DoAttachNext(s, r)
    case AttachDone => DoAttachDone(s, r)
    case FinishLock => DoFinishLock(s, r)
    case FinishCollect => DoFinishCollect(s, r)
    case FinishResolve => DoFinishResolve(s, r)
    case FinishUnlock => DoFinishUnlock(s, r)
    case FinishComplete => DoFinishComplete(s, r)
    case FinishEnd(err) => DoFinishEnd(s, r, err)
    case ExternalFinish(err) => DoExternalFinish(s, r, err)
    case Unregister => DoUnregister(s, r)
    case Collect => DoCollect(s, r)
  }
}
