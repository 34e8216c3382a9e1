/** Where each goroutine stands: the phase of every run, and what every deferred
    completion in flight is owed. */
module Phases {
  import opened Wrappers
  import opened Attribution
  import opened Retention
  import opened ExactRun
  import opened ClientState
  import Reader
  import Starter
  import Closing
  import Dispatch
  import Client
  import Frozen

  type Slots = map<RunId, Slot>

  /** The run has accepted its terminal frame `no`, and `c` carries its outcome. */
  ghost predicate Owed(slots: Slots, c: Completion, no: nat) {
    && c.run in slots && slots[c.run].run.terminalAdmitted
    && EndedBy(slots[c.run].run, no, c.err)
  }

  /** The last accepted frame of the run is the terminal frame `no`. */
  predicate EndedBy(run: Run, no: nat, err: Option<Err>) {
    && run.history != []
    && var last := run.history[|run.history| - 1];
       last.no == no && last.note.payload.TurnCompleted? && err == TerminalError(last.note.payload.status)
  }

  ghost predicate OwedSome(slots: Slots, c: Completion) { exists no :: Owed(slots, c, no) }

  predicate Begun(slots: Slots, r: RunId) { r in slots && !slots[r].caller.Created? }

  predicate TurnBound(c: Caller) { c.Window? || c.Replay? || c.Attached? }

  /** The order gate is held in exactly four phases; the turn id is published
      exactly once the turn is bound for good; a run that was never registered
      has nothing. */
  predicate Phased(x: Slot) {
    && (x.ordered <==> x.caller.Window? || x.caller.Replay? || x.caller.FinLocked? || x.caller.FinResolve?)
    && (TurnBound(x.caller) ==> x.arm.Some? && x.run.turnId == x.arm.value.turn)
    && (!TurnBound(x.caller) ==> x.run.turnId == "")
    && (x.arm.Some? ==> x.arm.value.turn != "" && !x.caller.Created? && !x.caller.Refused? && !x.caller.RegReplay? && !x.caller.Calling?)
    && (x.caller.Answered? ==> x.arm.Some?)
    && (x.caller.Created? ==> !x.run.terminal && !x.run.terminalAdmitted && x.run.history == [])
    && (x.gone ==> x.run.terminal)
  }

  ghost predicate ReaderOwed(rd: ClientState.Reader, slots: Slots) {
    match rd
    case Routed(frame, _, targets, completions, _, _) =>
      && (forall r <- targets :: Begun(slots, r))
      && (forall c <- completions :: Owed(slots, c, frame))
    case Rejecting(frame, _, _, rest) => forall c <- rest :: Owed(slots, c, frame)
    case Completing(inline) => forall c <- inline :: OwedSome(slots, c)
    case _ => true
  }

  ghost predicate EntryOwed(e: Entry, slots: Slots) { forall c <- e.completions :: Owed(slots, c, e.frame) }

  ghost predicate DispatcherOwed(d: Dispatcher, slots: Slots) {
    match d
    case Holding(e) => EntryOwed(e, slots)
    case Aborting(e, _) => EntryOwed(e, slots)
    case Delivered(e, completions) => forall c <- completions :: Owed(slots, c, e.frame)
    case _ => true
  }

  ghost predicate EvidenceOwed(ev: Evidence, slots: Slots) {
    && (forall no <- ev.completion :: Owed(slots, ev.completion[no], no))
    && (forall no <- ev.owner :: Begun(slots, ev.owner[no]))
  }

  ghost predicate CallersOwed(slots: Slots) {
    forall r <- slots :: slots[r].caller.RegReplay? && slots[r].caller.todo.Some? ==>
                           OwedSome(slots, slots[r].caller.todo.value)
  }

  ghost predicate RegistryBegun(reg: Registry, slots: Slots) {
    && (forall t <- reg.streams, r <- reg.streams[t] :: Begun(slots, r))
    && (forall t <- reg.attaching, r <- reg.attaching[t] :: Begun(slots, r))
    && (forall t <- reg.armedTurns :: Begun(slots, reg.armedTurns[t]))
  }

  ghost predicate UnregisteredOwed(unreg: set<RunId>, slots: Slots) {
    forall r <- unreg :: Begun(slots, r) && slots[r].run.terminal
  }

  ghost predicate PublisherOwed(pub: Publisher, slots: Slots) {
    pub.Draining? ==> forall r <- pub.finishing :: Begun(slots, r)
  }

  ghost predicate EntriesOwed(queue: seq<Entry>, slots: Slots) { forall e <- queue :: EntryOwed(e, slots) }

  ghost predicate AllPhased(slots: Slots) { forall r <- slots :: Phased(slots[r]) }

  ghost predicate Parts(
    slots: Slots, reg: Registry, rd: ClientState.Reader, queue: seq<Entry>, disp: Dispatcher,
    ev: Evidence, unreg: set<RunId>, pub: Publisher)
  {
    && AllPhased(slots)
    && RegistryBegun(reg, slots)
    && ReaderOwed(rd, slots)
    && EntriesOwed(queue, slots)
    && DispatcherOwed(disp, slots)
    && EvidenceOwed(ev, slots)
    && CallersOwed(slots)
    && UnregisteredOwed(unreg, slots)
    && PublisherOwed(pub, slots)
  }

  ghost predicate PhaseInv(s: State) {
    Parts(s.slots, s.reg, s.reader, s.q.queue, s.q.disp, s.ev, s.unreg, s.close.pub)
  }

  /** Runs evolve and no run goes back to being created. */
  ghost predicate Moves(a: Slots, b: Slots) {
    forall r <- a :: r in b && Evolves(a[r].run, b[r].run) && (b[r].caller.Created? ==> a[r].caller.Created?)
  }

  lemma Carried(a: Slots, b: Slots)
    requires Moves(a, b)
    ensures forall c, no :: Owed(a, c, no) ==> Owed(b, c, no)
    ensures forall c :: OwedSome(a, c) ==> OwedSome(b, c)
    ensures forall r :: Begun(a, r) ==> Begun(b, r)
  {
    forall c, no | Owed(a, c, no) ensures Owed(b, c, no) {
      assert Evolves(a[c.run].run, b[c.run].run);
    }
    forall c | OwedSome(a, c) ensures OwedSome(b, c) {
      var no :| Owed(a, c, no);
      assert Owed(b, c, no);
    }
  }

  // ------------------------------------------------------------ shared steps

  lemma MovesSame(a: Slots)
    ensures Moves(a, a)
  {
  }

  lemma MovesOne(a: Slots, r: RunId, x: Slot)
    requires r in a && Evolves(a[r].run, x.run) && (x.caller.Created? ==> a[r].caller.Created?)
    ensures Moves(a, a[r := x])
  {
  }

  /** A slot changes; everything else stays owed. */
  lemma SlotChanges(s: State, r: RunId, x: Slot)
    requires PhaseInv(s) && r in s.slots
    requires Evolves(s.slots[r].run, x.run) && Phased(x) && (x.caller.Created? ==> s.slots[r].caller.Created?)
    requires x.caller.RegReplay? && x.caller.todo.Some? ==>
               (s.slots[r].caller.RegReplay? && s.slots[r].caller.todo == x.caller.todo)
               || OwedSome(s.slots[r := x], x.caller.todo.value)
    ensures Moves(s.slots, s.slots[r := x])
    ensures PhaseInv(s.(slots := s.slots[r := x]))
  {
    hide Begun, UnregisteredOwed;
    hide Owed, OwedSome, Phased, Moves, Evolves;
    MovesOne(s.slots, r, x);
    Carried(s.slots, s.slots[r := x]);
    UnregisteredStays(s, r, x);
  }

  lemma UnregisteredStays(s: State, r: RunId, x: Slot)
    requires UnregisteredOwed(s.unreg, s.slots) && r in s.slots
    requires Evolves(s.slots[r].run, x.run) && (x.caller.Created? ==> s.slots[r].caller.Created?)
    ensures UnregisteredOwed(s.unreg, s.slots[r := x])
  {
  }

  lemma PhasedAt(s: State, r: RunId)
    requires PhaseInv(s) && r in s.slots
    ensures Phased(s.slots[r])
    ensures s.slots[r].caller.RegReplay? && s.slots[r].caller.todo.Some? ==>
              OwedSome(s.slots, s.slots[r].caller.todo.value)
  {
  }

  lemma ReaderChanges(s: State, rd: ClientState.Reader)
    requires PhaseInv(s) && ReaderOwed(rd, s.slots)
    ensures PhaseInv(s.(reader := rd))
  {
  }

  lemma RegistryChanges(s: State, reg: Registry)
    requires PhaseInv(s) && RegistryBegun(reg, s.slots)
    ensures PhaseInv(s.(reg := reg))
  {
  }

  lemma QueueChanges(s: State, q: Queue)
    requires PhaseInv(s) && EntriesOwed(q.queue, s.slots) && DispatcherOwed(q.disp, s.slots)
    ensures PhaseInv(s.(q := q))
  {
  }

  lemma EvidenceChanges(s: State, ev: Evidence)
    requires PhaseInv(s) && EvidenceOwed(ev, s.slots)
    ensures PhaseInv(s.(ev := ev))
  {
  }

  lemma PublisherChanges(s: State, pub: Publisher)
    requires PhaseInv(s) && PublisherOwed(pub, s.slots)
    ensures PhaseInv(SetPublisher(s, pub))
  {
  }

  /** The parts on their own. */
  lemma Known(s: State)
    requires PhaseInv(s)
    ensures AllPhased(s.slots) && RegistryBegun(s.reg, s.slots) && ReaderOwed(s.reader, s.slots)
    ensures EntriesOwed(s.q.queue, s.slots) && DispatcherOwed(s.q.disp, s.slots) && EvidenceOwed(s.ev, s.slots)
    ensures CallersOwed(s.slots) && UnregisteredOwed(s.unreg, s.slots) && PublisherOwed(s.close.pub, s.slots)
  {
  }

  lemma StaysPhased(x: Slot, y: Slot)
    requires Phased(x) && !x.caller.Created? && (y.gone ==> y.run.terminal)
    requires y.caller == x.caller && y.arm == x.arm && y.ordered == x.ordered && y.run.turnId == x.run.turnId
    ensures Phased(y)
  {
  }

  lemma FinishPhases(s: State, r: RunId, err: Option<Err>, via: Via)
    requires PhaseInv(s) && (r in s.slots ==> Begun(s.slots, r))
    ensures PhaseInv(FinishRun(s, r, err, via)) && Moves(s.slots, FinishRun(s, r, err, via).slots)
  {
    hide Parts, Owed, OwedSome, Phased, Moves;
    MovesSame(s.slots);
    if r in s.slots && !s.slots[r].run.terminal {
      var x := s.slots[r].(run := Finish(s.slots[r].run, Cause(s), err), via := via);
      PhasedAt(s, r);
      StaysPhased(s.slots[r], x);
      SlotChanges(s, r, x);
      Terminated(s.(slots := s.slots[r := x]), r);
    }
  }

  lemma Terminated(s: State, r: RunId)
    requires PhaseInv(s) && Begun(s.slots, r) && s.slots[r].run.terminal
    ensures PhaseInv(s.(unreg := s.unreg + {r}))
  {
    hide AllPhased, RegistryBegun, ReaderOwed, EntriesOwed, DispatcherOwed, EvidenceOwed, CallersOwed, PublisherOwed;
  }

  lemma AcceptPhases(s: State, r: RunId, p: Parked)
    requires PhaseInv(s) && Begun(s.slots, r)
    ensures var (s', c) := AcceptRetained(s, r, p);
            PhaseInv(s') && Moves(s.slots, s'.slots) && (c.Some? ==> Owed(s'.slots, c.value, p.no))
  {
    hide Parts, Retain, OwedSome, Phased, Moves;
    MovesSame(s.slots);
    if Admissible(s.slots[r].run, p.note) {
      var (run, a) := Accept(s.slots[r].run, Frame(p.no, p.note), p.lease);
      var x := s.slots[r].(run := run);
      PhasedAt(s, r);
      assert x.gone ==> x.run.terminal by { GoneEnded(s.slots[r]); }
      StaysPhased(s.slots[r], x);
      SlotChanges(s, r, x);
    }
  }

  lemma GoneEnded(x: Slot)
    requires Phased(x)
    ensures x.gone ==> x.run.terminal
  {
  }

  lemma ResolvePhases(s: State, p: Parked, r: RunId)
    requires PhaseInv(s) && Begun(s.slots, r)
    ensures PhaseInv(Resolve(s, p, r)) && Moves(s.slots, Resolve(s, p, r).slots)
  {
    hide Parts, Owed, OwedSome, AcceptRetained;
    var (s1, c) := AcceptRetained(s, r, p);
    AcceptFrame(s, r, p);
    AcceptPhases(s, r, p);
    Known(s1);
    EvidenceChanges(s1, Resolve(s, p, r).ev);
  }

  // ------------------------------------------------------------------- reader

  lemma TargetsBegun(s: State, note: Note, order: seq<RunId>)
    requires PhaseInv(s) && Reader.CanRoute(s, note, order)
    ensures forall r <- order :: Begun(s.slots, r)
  {
    hide AllPhased, ReaderOwed, EntriesOwed, DispatcherOwed, EvidenceOwed, CallersOwed, PublisherOwed;
    forall r <- order ensures Begun(s.slots, r) {
      assert r in multiset(order);
    }
  }

  lemma RoutePhases(s: State, note: Note, order: seq<RunId>, bytes: nat)
    requires PhaseInv(s) && Reader.CanRoute(s, note, order)
    ensures PhaseInv(Reader.DoRoute(s, note, order, bytes))
  {
    hide Reader.CanRoute, Begun, Matches;
    hide Parts, Owed, Reserve, ReaderOwed, EntriesOwed, DispatcherOwed, CallersOwed, AllPhased;
    hide UnregisteredOwed, PublisherOwed;
    TargetsBegun(s, note, order);
    Known(s);
    var s' := Reader.DoRoute(s, note, order, bytes);
    RoutedOwed(s, note, order, s'.reader);
    ReaderChanges(s, s'.reader);
    RegistryChanges(s.(reader := s'.reader), s'.reg);
    EvidenceChanges(s.(reader := s'.reader, reg := s'.reg), s'.ev);
  }

  lemma RoutedOwed(s: State, note: Note, order: seq<RunId>, rd: ClientState.Reader)
    requires forall r <- order :: Begun(s.slots, r)
    requires rd.Routed? && rd.targets == order && rd.completions == []
    ensures ReaderOwed(rd, s.slots)
  {
  }

  lemma ReaderAcceptPhases(s: State, bytes: nat)
    requires PhaseInv(s) && Reader.CanReaderAccept(s)
    ensures PhaseInv(Reader.DoReaderAccept(s, bytes))
  {
    hide Parts, Owed, OwedSome, Reserve, AcceptRetained, Admissible, Moves;
    Known(s);
    var rd := s.reader;
    var r := rd.targets[0];
    var l := Reserve(s.mem.budget, 3, bytes).1;
    if r in s.slots && Admissible(s.slots[r].run, rd.note) && l.Some? {
      var s1 := LetGo(s.(reader := rd.(targets := rd.targets[1..])), multiset{l.value});
      var s2 := s1.(mem := s1.mem.(budget := Reserve(s.mem.budget, 3, bytes).0));
      var p := Parked(rd.frame, rd.note, l.value);
      ReaderChanges(s, s2.reader);
      AcceptFrame(s2, r, p);
      AcceptPhases(s2, r, p);
      var s3 := AcceptRetained(s2, r, p).0;
      Carried(s.slots, s3.slots);
      ReaderChanges(s3, Reader.DoReaderAccept(s, bytes).reader);
    } else {
      ReaderChanges(s, Reader.DoReaderAccept(s, bytes).reader);
    }
  }

  lemma BindPhases(s: State, r: RunId, turn: Id)
    requires PhaseInv(s) && Reader.CanArmTurn(s, r, turn)
    ensures PhaseInv(Reader.BindTurn(s, r, turn))
  {
    hide Parts, Owed, OwedSome, Moves;
    var x := s.slots[r].(caller := Answered, arm := Some(Arm(turn, |s.log|, None)));
    PhasedAt(s, r);
    SlotChanges(s, r, x);
    var s1 := s.(slots := s.slots[r := x]);
    Known(s1);
    RegistryChanges(s1, Reader.BindTurn(s, r, turn).reg);
  }

  lemma EnqueuePhases(s: State, count: nat, bytes: nat)
    requires PhaseInv(s) && Reader.CanReaderEnqueue(s)
    ensures PhaseInv(Reader.DoReaderEnqueue(s, count, bytes))
  {
    hide Parts, Owed, Reserve, RegistryBegun, EvidenceOwed, DispatcherOwed, CallersOwed;
    Known(s);
    var s' := Reader.DoReaderEnqueue(s, count, bytes);
    assert forall c <- s.reader.completions :: OwedSome(s.slots, c);
    ReaderChanges(s, s'.reader);
    QueueChanges(s.(reader := s'.reader), s'.q);
  }

  lemma ReaderCompletePhases(s: State)
    requires PhaseInv(s) && Reader.CanReaderComplete(s)
    ensures PhaseInv(Reader.DoReaderComplete(s))
  {
    hide Parts, Owed, Moves, FinishRun;
    Known(s);
    var s' := Reader.DoReaderComplete(s);
    if s.reader.inline == [] {
      ReaderChanges(s, s'.reader);
    } else {
      var c := s.reader.inline[0];
      OwedBegun(s.slots, c);
      FinishPhases(s, c.run, c.err, ByReader);
      var s1 := FinishRun(s, c.run, c.err, ByReader);
      Carried(s.slots, s1.slots);
      ReaderChanges(s1, s'.reader);
    }
  }

  lemma OwedBegun(slots: Slots, c: Completion)
    requires OwedSome(slots, c) && AllPhased(slots)
    ensures Begun(slots, c.run)
  {
  }

  lemma ClaimPhases(s: State, err: Err)
    requires PhaseInv(s)
    ensures PhaseInv(ClaimFailure(s, err))
  {
    hide Parts;
    PublisherChanges(s, Claimed);
  }

  lemma ReaderPhases(s: State, a: Reader.Action)
    requires PhaseInv(s) && Reader.Enabled(s, a)
    ensures PhaseInv(Reader.Step(s, a))
  {
    hide Parts, Owed, Reserve, FinishRun;
    hide Reader.DoRoute, Reader.DoReaderAccept, Reader.BindTurn, Reader.CanRoute, Reader.CanReaderAccept;
    hide Reader.DoReaderEnqueue, Reader.DoReaderComplete;
    Known(s);
    match a
    case ArmTurn(r, turn, bytes) =>
      BindPhases(s, r, turn);
      var l := Reserve(s.mem.budget, 1, bytes).1;
      if l.Some? {
        var s1 := s.(reg := s.reg.(attachment := s.reg.attachment[TurnKey(turn) := l.value]));
        RegistryChanges(s, s1.reg);
        BindPhases(s1, r, turn);
      }
      ReaderChanges(s, Failing(ErrClientClosed));
      ReaderChanges(s, Failing(ErrRetention));
    case ArmThread(thread, bytes) =>
      RegistryChanges(s, Reader.Step(s, a).reg);
      ReaderChanges(s, Reader.Step(s, a).reader);
    case Route(note, order, bytes) => RoutePhases(s, note, order, bytes);
    case Accept(bytes) => ReaderAcceptPhases(s, bytes);
    case Claim =>
      var s' := Reader.Step(s, a);
      ReaderChanges(s, s'.reader);
      PublisherChanges(s.(reader := s'.reader), s'.close.pub);
    case Enqueue(count, bytes) => EnqueuePhases(s, count, bytes);
    case Reject =>
      var s' := Reader.Step(s, a);
      assert forall c <- s.reader.rest :: OwedSome(s.slots, c);
      ReaderChanges(s, s'.reader);
      EvidenceChanges(s.(reader := s'.reader), s'.ev);
    case Complete => ReaderCompletePhases(s);
  }

  // ----------------------------------------------------------------- starters

  lemma CreatePhases(s: State, r: RunId, thread: Id)
    requires PhaseInv(s) && Starter.CanCreateRun(s, r, thread)
    ensures PhaseInv(Starter.DoCreateRun(s, r, thread))
  {
    hide Phased;
    hide Owed, OwedSome, Moves;
    var s' := Starter.DoCreateRun(s, r, thread);
    CreateMoves(s.slots, r, s'.slots[r]);
    Carried(s.slots, s'.slots);
    assert Phased(s'.slots[r]) by { CreatedPhased(s'.slots[r], thread); }
  }

  lemma CreateMoves(a: Slots, r: RunId, x: Slot)
    requires r !in a
    ensures Moves(a, a[r := x])
  {
  }

  lemma CreatedPhased(x: Slot, thread: Id)
    requires x == Slot(NewRun(thread), Created, false, None, false, false, false, NotFinished)
    ensures Phased(x)
  {
  }

  /** A starter moves on without touching its run's evidence. */
  lemma CallerPhases(s: State, r: RunId, x: Slot)
    requires PhaseInv(s) && r in s.slots && x.run == s.slots[r].run && !x.caller.Created?
    requires Phased(s.slots[r]) ==> Phased(x)
    requires x.caller.RegReplay? ==> x.caller.todo.None? || x.caller == s.slots[r].caller
    ensures PhaseInv(s.(slots := s.slots[r := x])) && Begun(s.slots[r := x], r)
  {
    hide Parts, Owed, OwedSome, Phased, Moves;
    PhasedAt(s, r);
    SlotChanges(s, r, x);
  }

  lemma RegisterPhases(s: State, r: RunId)
    requires PhaseInv(s) && Starter.CanRegister(s, r)
    ensures PhaseInv(Starter.DoRegister(s, r))
  {
    hide Parts, Owed, OwedSome, Moves;
    var thread := s.slots[r].run.threadId;
    CallerPhases(s, r, s.slots[r].(caller := Refused(ErrClientClosed)));
    CallerPhases(s, r, s.slots[r].(caller := Refused(ErrConcurrentTurnStart)));
    if !s.close.closed && Under(s.reg.attaching, thread) == {} {
      var c := RegReplay(ListAt(s.reg.threadPend, thread), 0, None);
      CallerPhases(s, r, s.slots[r].(caller := c));
      Known(SetCaller(s, r, c));
      RegistryChanges(SetCaller(s, r, c), Starter.DoRegister(s, r).reg);
    }
  }

  lemma RegisterAcceptPhases(s: State, r: RunId)
    requires PhaseInv(s) && Starter.CanRegisterAccept(s, r)
    ensures PhaseInv(Starter.DoRegisterAccept(s, r))
  {
    hide Parts, Owed, Moves, Phased, AcceptRetained;
    var c := s.slots[r].caller;
    var p := c.list[c.regNext];
    AcceptPhases(s, r, p);
    var (s1, done) := AcceptRetained(s, r, p);
    AcceptSlot(s, r, p);
    PhasedAt(s1, r);
    var x := s1.slots[r].(caller := c.(regNext := c.regNext + 1, todo := done));
    CallerStaysPhased(s1.slots[r], x);
    if done.Some? {
      assert Owed(s1.slots, done.value, p.no);
      OwedKept(s1.slots, r, x, done.value, p.no);
    }
    SlotChanges(s1, r, x);
  }

  /** Acceptance changes nothing of the slot but its run. */
  lemma AcceptSlot(s: State, r: RunId, p: Parked)
    requires r in s.slots
    ensures r in AcceptRetained(s, r, p).0.slots
    ensures var x := AcceptRetained(s, r, p).0.slots[r]; x == s.slots[r].(run := x.run)
  {
  }

  lemma CallerStaysPhased(x: Slot, y: Slot)
    requires Phased(x) && x.caller.RegReplay? && y.caller.RegReplay? && y == x.(caller := y.caller)
    ensures Phased(y)
  {
  }

  lemma OwedKept(slots: Slots, r: RunId, x: Slot, c: Completion, no: nat)
    requires Owed(slots, c, no) && r in slots && x.run == slots[r].run
    ensures OwedSome(slots[r := x], c)
  {
    assert Owed(slots[r := x], c, no);
  }

  lemma AttachPhases(s: State, r: RunId, a: Starter.Action)
    requires PhaseInv(s) && Starter.Enabled(s, r, a)
    requires a.AttachLock? || a.AttachResolve? || a.AttachDone?
    ensures PhaseInv(Starter.Step(s, r, a))
  {
    hide Parts, Owed, OwedSome, Moves, FinishRun, Resolve;
    PhasedAt(s, r);
    match a
    case AttachLock => SlotChanges(s, r, Starter.Step(s, r, a).slots[r]);
    case AttachResolve =>
      var c := s.slots[r].caller;
      var s1 := Resolve(s, c.list[c.next], r);
      ResolvePhases(s, c.list[c.next], r);
      ResolveSlot(s, c.list[c.next], r);
      CallerPhases(s1, r, s1.slots[r].(caller := c.(resolved := true)));
    case AttachDone =>
      CallerPhases(s, r, Starter.Step(s, r, a).slots[r]);
    case _ =>
  }

  lemma ResolveSlot(s: State, p: Parked, r: RunId)
    requires r in s.slots
    ensures r in Resolve(s, p, r).slots
    ensures var x := Resolve(s, p, r).slots[r]; x == s.slots[r].(run := x.run)
  {
  }

  lemma AttachPublishPhases(s: State, r: RunId)
    requires PhaseInv(s) && Starter.CanAttachPublish(s, r)
    ensures PhaseInv(Starter.DoAttachPublish(s, r))
  {
    hide Parts, Owed, OwedSome, Moves;
    var s' := Starter.DoAttachPublish(s, r);
    PhasedAt(s, r);
    CallerPhases(s, r, s'.slots[r]);
    var s1 := s.(slots := s'.slots);
    Known(s1);
    RegistryChanges(s1, s'.reg);
  }

  lemma AttachNextPhases(s: State, r: RunId)
    requires PhaseInv(s) && Starter.CanAttachNext(s, r)
    ensures PhaseInv(Starter.DoAttachNext(s, r))
  {
    hide Parts, Owed, OwedSome, Moves, FinishRun;
    var c := s.slots[r].caller;
    var no := c.list[c.next].no;
    var s1 := SetCaller(s, r, c.(next := c.next + 1, resolved := false));
    CallerPhases(s, r, s1.slots[r]);
    if no in s.ev.completion { CompletionFinishes(s1, no, ByReplay); }
  }

  lemma CompletionFinishes(s: State, no: nat, via: Via)
    requires PhaseInv(s) && no in s.ev.completion
    ensures PhaseInv(FinishRun(s, s.ev.completion[no].run, s.ev.completion[no].err, via))
  {
    hide Parts, Owed, Moves, FinishRun;
    Known(s);
    OwedBegun(s.slots, s.ev.completion[no]);
    FinishPhases(s, s.ev.completion[no].run, s.ev.completion[no].err, via);
  }

  lemma FinishCollectPhases(s: State, r: RunId)
    requires PhaseInv(s) && Starter.CanFinishCollect(s, r)
    ensures PhaseInv(Starter.DoFinishCollect(s, r))
  {
    hide Parts, Owed, OwedSome, Moves, Starter.Mine, Starter.KeepOthers;
    var s' := Starter.DoFinishCollect(s, r);
    CallerPhases(s, r, s'.slots[r]);
    var s1 := s.(slots := s'.slots);
    Known(s1);
    RegistryChanges(s1, s'.reg);
  }

  lemma FinishingPhases(s: State, r: RunId, a: Starter.Action)
    requires PhaseInv(s) && Starter.Enabled(s, r, a)
    requires a.FinishLock? || a.FinishResolve? || a.FinishUnlock? || a.FinishComplete? || a.FinishEnd?
    ensures PhaseInv(Starter.Step(s, r, a))
  {
    hide Parts, Owed, OwedSome, Moves, FinishRun, Resolve;
    var c := s.slots[r].caller;
    match a
    case FinishLock => CallerPhases(s, r, Starter.Step(s, r, a).slots[r]);
    case FinishResolve =>
      var s1 := Resolve(s, c.list[c.finNext], r);
      ResolvePhases(s, c.list[c.finNext], r);
      ResolveSlot(s, c.list[c.finNext], r);
      CallerPhases(s1, r, s1.slots[r].(caller := c.(finNext := c.finNext + 1)));
    case FinishUnlock => CallerPhases(s, r, Starter.Step(s, r, a).slots[r]);
    case FinishComplete =>
      var s1 := SetCaller(s, r, c.(doneNext := c.doneNext + 1));
      CallerPhases(s, r, s1.slots[r]);
      if c.list[c.doneNext].no in s.ev.completion {
        CompletionFinishes(s1, c.list[c.doneNext].no, ByFinish(c.list[c.doneNext].no));
      }
    case FinishEnd(err) =>
      CallerPhases(s, r, s.slots[r].(caller := Over));
      FinishPhases(LetGo(SetCaller(s, r, Over), ListLeases(c.list)), r, Some(err), ByError);
    case _ =>
  }

  lemma UnregisterPhases(s: State, r: RunId)
    requires PhaseInv(s) && Starter.CanUnregister(s, r)
    ensures PhaseInv(Starter.DoUnregister(s, r))
  {
    hide Parts, Owed, OwedSome, Moves;
    Known(s);
    var s' := Starter.DoUnregister(s, r);
    CallerPhases(s, r, s'.slots[r]);
    var s1 := s.(slots := s'.slots);
    Known(s1);
    RegistryChanges(s1, s'.reg);
    Unregistered(s1.(reg := s'.reg), r);
  }

  lemma Unregistered(s: State, r: RunId)
    requires PhaseInv(s)
    ensures PhaseInv(s.(unreg := s.unreg - {r}))
  {
    hide AllPhased, RegistryBegun, ReaderOwed, EntriesOwed, DispatcherOwed, EvidenceOwed, CallersOwed, PublisherOwed;
  }

  lemma StarterPhases(s: State, r: RunId, a: Starter.Action)
    requires PhaseInv(s) && Starter.Enabled(s, r, a)
    ensures PhaseInv(Starter.Step(s, r, a))
  {
    hide Parts, Owed, FinishRun, Moves;
    match a
    case CreateRun(thread) => CreatePhases(s, r, thread);
    case Register => RegisterPhases(s, r);
    case FinishRefused =>
      CallerPhases(s, r, s.slots[r].(caller := Over));
      FinishPhases(SetCaller(s, r, Over), r, Some(s.slots[r].caller.refusal), ByError);
    case RegisterAccept => RegisterAcceptPhases(s, r);
    case RegisterComplete =>
      PhasedAt(s, r);
      Known(s);
      var c := s.slots[r].caller;
      CallerPhases(s, r, s.slots[r].(caller := c.(todo := None)));
      Known(SetCaller(s, r, c.(todo := None)));
      OwedBegun(s.slots, c.todo.value);
      FinishPhases(SetCaller(s, r, c.(todo := None)), c.todo.value.run, c.todo.value.err, ByRegister);
    case RegisterDone => CallerPhases(s, r, s.slots[r].(caller := Calling));
    case AttachLock => AttachPhases(s, r, a);
    case AttachPublish => AttachPublishPhases(s, r);
    case AttachResolve => AttachPhases(s, r, a);
    case AttachNext => AttachNextPhases(s, r);
    case AttachDone => AttachPhases(s, r, a);
    case FinishLock => FinishingPhases(s, r, a);
    case FinishCollect => FinishCollectPhases(s, r);
    case FinishResolve => FinishingPhases(s, r, a);
    case FinishUnlock => FinishingPhases(s, r, a);
    case FinishComplete => FinishingPhases(s, r, a);
    case FinishEnd(_) => FinishingPhases(s, r, a);
    case ExternalFinish(err) => FinishPhases(s, r, Some(err), ByError);
    case Unregister => UnregisterPhases(s, r);
    case Collect => CollectPhases(s, r);
  }

  lemma CollectPhases(s: State, r: RunId)
    requires PhaseInv(s) && Starter.CanCollect(s, r)
    ensures PhaseInv(Starter.DoCollect(s, r))
  {
    hide Parts, Owed, OwedSome, Moves;
    PhasedAt(s, r);
    SlotChanges(s, r, Starter.DoCollect(s, r).slots[r]);
  }

  // ------------------------------------------------- closing and the dispatcher

  lemma SnapshotPhases(s: State, turns: seq<Id>, runs: seq<RunId>, finishing: seq<RunId>)
    requires PhaseInv(s) && Closing.CanSnapshot(s, turns, runs, finishing)
    ensures PhaseInv(Closing.DoSnapshot(s, turns, runs, finishing))
  {
    hide Owed, OwedSome, Moves, Concat, ConcatReplays, RetainAll, Leases, Closing.Overtakes;
    var s' := Closing.DoSnapshot(s, turns, runs, finishing);
    assert forall r <- finishing :: Begun(s.slots, r) by {
      forall r <- finishing ensures Begun(s.slots, r) { assert r in multiset(finishing); }
    }
    MarkMoves(s.slots);
    Carried(s.slots, s'.slots);
  }

  lemma MarkMoves(a: Slots)
    ensures Moves(a, Closing.MarkAll(a))
    ensures AllPhased(a) ==> AllPhased(Closing.MarkAll(a))
  {
  }

  lemma PublishPhases(s: State, p: Parked, pub: Publisher)
    requires PhaseInv(s) && s.close.pub.Draining? && pub.Draining? && pub.finishing == s.close.pub.finishing
    ensures PhaseInv(SetPublisher(if p.no in s.ev.owner then Resolve(s, p, s.ev.owner[p.no]) else s, pub))
  {
    hide Parts, Owed, OwedSome, Moves, Resolve;
    Known(s);
    MovesSame(s.slots);
    var s1 := if p.no in s.ev.owner then Resolve(s, p, s.ev.owner[p.no]) else s;
    if p.no in s.ev.owner { ResolvePhases(s, p, s.ev.owner[p.no]); }
    Carried(s.slots, s1.slots);
    PublisherChanges(s1, pub);
  }

  lemma PublishFinishPhases(s: State)
    requires PhaseInv(s) && Closing.CanPublishFinish(s)
    ensures PhaseInv(Closing.DoPublishFinish(s))
  {
    hide Parts, Owed, OwedSome, Moves, FinishRun;
    Known(s);
    var s1 := FinishRun(s, s.close.pub.finishing[0], Cause(s), ByError);
    FinishPhases(s, s.close.pub.finishing[0], Cause(s), ByError);
    Carried(s.slots, s1.slots);
    PublisherChanges(s1, s.close.pub.(finishing := s.close.pub.finishing[1..]));
  }

  lemma DiscardPhases(s: State)
    requires PhaseInv(s) && s.q.queue != []
    ensures PhaseInv(DiscardFirst(s))
  {
    hide Parts, Owed;
    Known(s);
    var s' := DiscardFirst(s);
    QueueChanges(s, s'.q);
    EvidenceChanges(s.(q := s'.q), s'.ev);
  }

  lemma CloserPhases(s: State, a: Closing.Action)
    requires PhaseInv(s) && Closing.Enabled(s, a)
    ensures PhaseInv(Closing.Step(s, a))
  {
    hide Parts, Owed, OwedSome, Moves, FinishRun, Resolve, Release, DiscardFirst;
    hide Closing.CanSnapshot, Closing.DoSnapshot, Closing.DoPublishFinish;
    match a
    case Snapshot(turns, runs, finishing) => SnapshotPhases(s, turns, runs, finishing);
    case PublishPending => PublishPhases(s, s.close.pub.pending[0], s.close.pub.(pending := s.close.pub.pending[1..]));
    case PublishReplay => PublishPhases(s, s.close.pub.replay[0], s.close.pub.(replay := s.close.pub.replay[1..]));
    case PublishFinish => PublishFinishPhases(s);
    case DiscardQueued => DiscardPhases(s);
    case FailClient(err) => ClaimPhases(s, err);
    case BeginShutdown => if !s.close.closed { PublisherChanges(s, Claimed); }
    case PublishDone => PublisherChanges(s, Published);
    case _ =>
  }

  lemma DeliverPhases(s: State)
    requires PhaseInv(s) && Dispatch.MayDispatch(s)
    ensures PhaseInv(Dispatch.DoDeliver(s))
  {
    hide Parts, Owed;
    Known(s);
    var s' := Dispatch.DoDeliver(s);
    QueueChanges(s, s'.q);
    EvidenceChanges(s.(q := s'.q), s'.ev);
  }

  lemma DispatchCompletePhases(s: State)
    requires PhaseInv(s) && Dispatch.CanDispatchComplete(s)
    ensures PhaseInv(Dispatch.DoDispatchComplete(s))
  {
    hide Parts, Owed, Moves, FinishRun;
    Known(s);
    var c := s.q.disp.completions[0];
    var s1 := FinishRun(s, c.run, c.err, ByDispatch(s.q.disp.e.frame));
    assert Owed(s.slots, c, s.q.disp.e.frame);
    OwedBegun(s.slots, c);
    FinishPhases(s, c.run, c.err, ByDispatch(s.q.disp.e.frame));
    Carried(s.slots, s1.slots);
    Known(s1);
    QueueChanges(s1, Dispatch.DoDispatchComplete(s).q);
  }

  lemma DispatcherPhases(s: State, a: Dispatch.Action)
    requires PhaseInv(s) && Dispatch.Enabled(s, a)
    ensures PhaseInv(Dispatch.Step(s, a))
  {
    hide Parts, Owed, OwedSome, Moves, FinishRun, DiscardFirst, Dispatch.DoDeliver, Dispatch.DoDispatchComplete;
    Known(s);
    var s' := Dispatch.Step(s, a);
    match a
    case Take => QueueChanges(s, s'.q);
    case Deliver => DeliverPhases(s);
    case CallbackFails(err) => QueueChanges(s, s'.q);
    case Complete => DispatchCompletePhases(s);
    case Next => QueueChanges(s, s'.q);
    case Claim =>
      ClaimPhases(s, s.q.disp.failed.value);
      QueueChanges(ClaimFailure(s, s.q.disp.failed.value), s'.q);
    case DiscardHeld =>
      QueueChanges(s, s'.q);
      EvidenceChanges(s.(q := s'.q), s'.ev);
    case DiscardHead => DiscardPhases(s);
    case BeginStopping =>
      QueueChanges(s, s'.q);
      EvidenceChanges(s.(q := s'.q), s'.ev);
    case Exit => QueueChanges(s, s'.q);
  }

  // --------------------------------------------------------------- whole runs

  lemma {:induction false} AlwaysPhased(states: seq<State>, actions: seq<Client.Action>, i: nat)
    requires Client.IsRun(states, actions) && i < |states|
    ensures PhaseInv(states[i])
  {
    hide Parts;
    hide Reader.Enabled, Reader.Step, Starter.Enabled, Starter.Step;
    hide Closing.Enabled, Closing.Step, Dispatch.Enabled, Dispatch.Step;
    if i == 0 {
      InitPhased(states[0]);
    } else {
      var s := states[i - 1];
      AlwaysPhased(states, actions, i - 1);
      match actions[i - 1]
      case ByReader(a) => ReaderPhases(s, a);
      case ByStarter(r, a) => StarterPhases(s, r, a);
      case ByCloser(a) => CloserPhases(s, a);
      case ByDispatcher(a) => DispatcherPhases(s, a);
    }
  }

  lemma InitPhased(s: State)
    requires Client.IsInit(s)
    ensures PhaseInv(s)
  {
  }
}
