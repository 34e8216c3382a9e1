/** Critical sections of the transport reader: routing and enqueueing notifications,
    and binding thread/start and turn/start responses
    (codexsdk/client.go, codexsdk/notification_dispatch.go). */
module Reader {
  import opened Wrappers
  import opened Attribution
  import opened Retention
  import opened ExactRun
  import opened ClientState

  ghost predicate CanRoute(s: State, note: Note, order: seq<RunId>) {
    && s.reader.Idle? && !s.close.closed
    && multiset(order) ==
       if ClassOf(note).Turn? || ClassOf(note).Thread?
       then multiset(StreamTargets(s, note)) + multiset(AttachTargets(s, note))
       else multiset{}
  }

  /** routeNotification up to the release of turnMu. */
  ghost function DoRoute(s: State, note: Note, order: seq<RunId>, bytes: nat): State
    requires CanRoute(s, note, order)
  {
    var no := |s.log|;
    var s0 := s.(log := s.log + [note], reader := Routed(no, note, order, [], false, None));
    if order != [] then s0
    else if ClassOf(note).Thread? && note.threadId in s.reg.armedThreads then
      var (b, l) := Reserve(s.mem.budget, 3, bytes);
      if l.None? then s0.(reader := Routed(no, note, order, [], false, Some(ErrRetention)))
      else ParkThread(s0, note.threadId, Parked(no, note, l.value)).(mem := s.mem.(budget := b))
    else if ClassOf(note).Turn? && Parkable(s, note) then
      var (b, l) := Reserve(s.mem.budget, 4, bytes);
      if l.None? then s0.(reader := Routed(no, note, order, [], false, Some(ErrRetention)))
      else
        ParkTurn(s0, note.turnId, Parked(no, note, l.value))
          .(mem := s.mem.(budget := b), ev := s.ev.(owner := s.ev.owner[no := s.reg.armedTurns[note.turnId]]),
            reader := Routed(no, note, order, [], true, None))
    else s0
  }

  ghost predicate CanReaderAccept(s: State) {
    && s.reader.Routed? && s.reader.targets != []
    && (s.reader.targets[0] in s.slots ==> !s.slots[s.reader.targets[0]].ordered)
  }

  /** acceptOrderedBeforeTerminalCompletion for the next target. */
  ghost function DoReaderAccept(s: State, bytes: nat): State
    requires CanReaderAccept(s)
  {
    var rd := s.reader;
    var r := rd.targets[0];
    var s0 := s.(reader := rd.(targets := rd.targets[1..]));
    if r !in s.slots || !Admissible(s.slots[r].run, rd.note) then s0
    else
      var (b, l) := Reserve(s.mem.budget, 3, bytes);
      if l.None? then
        s0.(reader := s0.reader.(failed := if rd.failed.None? then Some(ErrRetention) else rd.failed))
      else
        var s1 := LetGo(s0, multiset{l.value});
        var (s2, c) := AcceptRetained(s1.(mem := s1.mem.(budget := b)), r, Parked(rd.frame, rd.note, l.value));
        s2.(reader := if c.Some? then s0.reader.(completions := rd.completions + [c.value]) else s0.reader)
  }

  ghost predicate CanReaderClaim(s: State) {
    match s.reader
    case Routed(_, _, targets, _, _, failed) => targets == [] && failed.Some?
    case Failing(_) => true
    case Rejecting(_, _, refusal, _) => refusal.Some?
    case _ => false
  }

  ghost function DoReaderClaim(s: State): State
    requires CanReaderClaim(s)
  {
    match s.reader
    case Routed(_, _, _, _, _, failed) => ClaimFailure(s, failed.value).(reader := s.reader.(failed := None))
    case Failing(err) => ClaimFailure(s, err).(reader := Idle)
    case Rejecting(_, _, refusal, _) => ClaimFailure(s, refusal.value).(reader := s.reader.(refusal := None))
  }

  ghost predicate CanReaderEnqueue(s: State) {
    s.reader.Routed? && s.reader.targets == [] && s.reader.failed.None?
  }

  /** enqueueAcceptedNotification under closeMu. */
  ghost function DoReaderEnqueue(s: State, count: nat, bytes: nat): State
    requires CanReaderEnqueue(s)
  {
    var rd := s.reader;
    var inline := if s.cfg.handler then [] else rd.completions;
    if s.close.closed then s.(reader := Rejecting(rd.frame, rd.evidence, None, inline))
    else
      var (b, l) := Reserve(s.mem.budget, count, bytes);
      if l.None? then s.(reader := Rejecting(rd.frame, rd.evidence, Some(ErrRetention), []))
      else if |s.q.queue| >= s.cfg.capacity then
        s.(reader := Rejecting(rd.frame, rd.evidence, Some(ErrBackpressure), []),
           mem := s.mem.(budget := b, dropping := s.mem.dropping + multiset{l.value}))
      else
        var e := Entry(s.q.admitted, rd.frame, rd.evidence, if s.cfg.handler then rd.completions else [], l.value);
        s.(reader := Completing(inline), mem := s.mem.(budget := b),
           q := s.q.(queue := s.q.queue + [e], admitted := s.q.admitted + 1,
                     entryOf := s.q.entryOf[rd.frame := s.q.admitted],
                     work := s.q.work + (if s.cfg.handler then 1 else 0)))
  }

  ghost predicate CanReaderReject(s: State) {
    s.reader.Rejecting? && s.reader.refusal.None? && s.close.pub.Published?
  }

  ghost function DoReaderReject(s: State): State
    requires CanReaderReject(s)
  {
    ReleaseWaiter(s, s.reader.frame, s.reader.fenced).(reader := Completing(s.reader.rest))
  }

  ghost predicate CanReaderComplete(s: State) { s.reader.Completing? }

  ghost function DoReaderComplete(s: State): State
    requires CanReaderComplete(s)
  {
    var cs := s.reader.inline;
    if cs == [] then s.(reader := Idle)
    else FinishRun(s, cs[0].run, cs[0].err, ByReader).(reader := Completing(cs[1..]))
  }

  ghost predicate CanArmThread(s: State, thread: Id) { s.reader.Idle? && thread != "" }

  ghost function DoArmThread(s: State, thread: Id, bytes: nat): State
    requires CanArmThread(s, thread)
  {
    if s.close.closed then s.(reader := Failing(ErrClientClosed))
    else if ThreadKey(thread) in s.reg.attachment then
      s.(reg := s.reg.(armedThreads := s.reg.armedThreads + {thread}))
    else
      var (b, l) := Reserve(s.mem.budget, 1, bytes);
      if l.None? then s.(reader := Failing(ErrRetention))
      else s.(mem := s.mem.(budget := b),
              reg := s.reg.(attachment := s.reg.attachment[ThreadKey(thread) := l.value],
                            armedThreads := s.reg.armedThreads + {thread}))
  }

  ghost predicate CanArmTurn(s: State, r: RunId, turn: Id) {
    s.reader.Idle? && turn != "" && r in s.slots && s.slots[r].caller.Calling?
  }

  function BindTurn(s: State, r: RunId, turn: Id): State
    requires r in s.slots
  {
    s.(reg := s.reg.(armedTurns := s.reg.armedTurns[turn := r]),
       slots := s.slots[r := s.slots[r].(caller := Answered, arm := Some(Arm(turn, |s.log|, None)))])
  }

  ghost function DoArmTurn(s: State, r: RunId, turn: Id, bytes: nat): State
    requires CanArmTurn(s, r, turn)
  {
    if s.close.closed then s.(reader := Failing(ErrClientClosed))
    else if TurnKey(turn) in s.reg.attachment then BindTurn(s, r, turn)
    else
      var (b, l) := Reserve(s.mem.budget, 1, bytes);
      if l.None? then s.(reader := Failing(ErrRetention))
      else
        BindTurn(s.(reg := s.reg.(attachment := s.reg.attachment[TurnKey(turn) := l.value])), r, turn)
          .(mem := s.mem.(budget := b))
  }

  datatype Action =
    | ArmThread(thread: Id, bytes: nat)
    | ArmTurn(r: RunId, turn: Id, bytes: nat)
    | Route(note: Note, order: seq<RunId>, bytes: nat)
    | Accept(bytes: nat)
    | Claim
    | Enqueue(count: nat, bytes: nat)
    | Reject
    | Complete

  ghost predicate Enabled(s: State, a: Action) {
    match a
    case ArmThread(thread, _) => CanArmThread(s, thread)
    case ArmTurn(r, turn, _) => CanArmTurn(s, r, turn)
    case Route(note, order, _) => CanRoute(s, note, order)
    case Accept(_) => CanReaderAccept(s)
    case Claim => CanReaderClaim(s)
    case Enqueue(_, _) => CanReaderEnqueue(s)
    case Reject => CanReaderReject(s)
    case Complete => CanReaderComplete(s)
  }

  ghost function Step(s: State, a: Action): State
    requires Enabled(s, a)
  {
    match a
    case ArmThread(thread, bytes) => DoArmThread(s, thread, bytes)
    case ArmTurn(r, turn, bytes) => DoArmTurn(s, r, turn, bytes)
    case Route(note, order, bytes) => DoRoute(s, note, order, bytes)
    case Accept(bytes) => DoReaderAccept(s, bytes)
    case Claim => DoReaderClaim(s)
    case Enqueue(count, bytes) => DoReaderEnqueue(s, count, bytes)
    case Reject => DoReaderReject(s)
    case Complete => DoReaderComplete(s)
  }

  /** Routing and arming register nobody. */
  lemma RouteKeepsRuns(s: State, note: Note, order: seq<RunId>, bytes: nat)
    requires CanRoute(s, note, order)
    ensures var t := DoRoute(s, note, order, bytes);
            t.reg.streams == s.reg.streams && t.reg.attaching == s.reg.attaching
  {
    hide CanRoute, Reserve, Parkable, ClassOf, ListAt;
    var t := DoRoute(s, note, order, bytes);
    if order == [] && ClassOf(note).Thread? && note.threadId in s.reg.armedThreads {
      var (b, l) := Reserve(s.mem.budget, 3, bytes);
      assert t.reg.streams == s.reg.streams;
    } else if order == [] && ClassOf(note).Turn? && Parkable(s, note) {
      var (b, l) := Reserve(s.mem.budget, 4, bytes);
      assert t.reg.streams == s.reg.streams;
    }
  }

  lemma ArmKeepsRuns(s: State, r: RunId, turn: Id, bytes: nat)
    requires CanArmTurn(s, r, turn)
    ensures var t := DoArmTurn(s, r, turn, bytes);
            t.reg.streams == s.reg.streams && t.reg.attaching == s.reg.attaching
  {
    hide Reserve;
    if !s.close.closed && TurnKey(turn) !in s.reg.attachment {
      var (b, l) := Reserve(s.mem.budget, 1, bytes);
      assert DoArmTurn(s, r, turn, bytes).reg.streams == s.reg.streams;
    }
  }

  lemma ArmThreadKeepsRuns(s: State, thread: Id, bytes: nat)
    requires CanArmThread(s, thread)
    ensures var t := DoArmThread(s, thread, bytes);
            t.reg.streams == s.reg.streams && t.reg.attaching == s.reg.attaching
  {
    hide Reserve;
    if !s.close.closed && ThreadKey(thread) !in s.reg.attachment {
      var (b, l) := Reserve(s.mem.budget, 1, bytes);
      assert DoArmThread(s, thread, bytes).reg.streams == s.reg.streams;
    }
  }
}
