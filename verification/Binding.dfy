/** What a turn id binds: frames are parked for, offered to, and accepted by runs
    whose turn/start response named their turn, and a binding is for good. */
module Binding {
  import opened Wrappers
  import opened Attribution
  import opened Retention
  import opened ExactRun
  import opened ClientState
  import opened Phases
  import opened Registration
  import Reader
  import Starter
  import Closing
  import Dispatch
  import Client
  import Provenance

  predicate IsTurn(f: Frame) { ClassOf(f.note).Turn? }

  /** A run accepts no turn frame before its turn is bound, and afterwards only
      frames of that turn. */
  ghost predicate HistoryBound(x: Slot) {
    forall f <- x.run.history :: IsTurn(f) ==> x.arm.Some? && f.note.turnId == x.arm.value.turn
  }

  /** A starter's list holds frames of its run's turn. */
  ghost predicate ListBound(x: Slot) {
    x.caller.Replay? || x.caller.FinResolve? ==>
      forall p <- x.caller.list :: x.arm.Some? && p.note.turnId == x.arm.value.turn
  }

  ghost predicate SlotsBound(slots: Slots) { forall r <- slots :: HistoryBound(slots[r]) && ListBound(slots[r]) }

  /** The frame belongs to the turn bound to the run. */
  predicate OfTurn(slots: Slots, r: RunId, note: Note) {
    BoundTo(slots, r, note.turnId) && BelongsTo(note, slots[r].run.threadId, note.turnId)
  }

  /** Evidence belongs to a run its turn is bound to. */
  ghost predicate OwnersBound(log: seq<Note>, slots: Slots, owner: map<nat, RunId>) {
    forall n <- owner :: n < |log| && ClassOf(log[n]).Turn? && OfTurn(slots, owner[n], log[n])
  }

  /** A live turn frame is offered to runs that have published its turn. */
  ghost predicate OffersBound(rd: ClientState.Reader, slots: Slots) {
    rd.Routed? && ClassOf(rd.note).Turn? ==>
      forall r <- rd.targets :: OfTurn(slots, r, rd.note) && TurnBound(slots[r].caller)
  }

  ghost predicate BindingInv(s: State) {
    SlotsBound(s.slots) && OwnersBound(s.log, s.slots, s.ev.owner) && OffersBound(s.reader, s.slots)
  }

  predicate SameTurn(slots: Slots, q: RunId, r: RunId) {
    && q in slots && r in slots && slots[q].arm.Some? && slots[r].arm.Some?
    && slots[q].arm.value.turn == slots[r].arm.value.turn
  }

  /** Another run was bound to the same turn id. */
  ghost predicate Shared(slots: Slots, r: RunId) { exists q :: q != r && SameTurn(slots, q, r) }

  predicate SameArm(x: Slot, y: Slot) {
    y.run.threadId == x.run.threadId && (x.arm.Some? ==> y.arm.Some? && y.arm.value.turn == x.arm.value.turn)
  }

  /** Runs stay, and so do their bindings. */
  ghost predicate ArmsKept(a: Slots, b: Slots) { forall r <- a :: r in b && SameArm(a[r], b[r]) }

  /** Nothing is bound. */
  ghost predicate ArmsOnly(a: Slots, b: Slots) { forall r <- b :: b[r].arm.Some? ==> BoundTo(a, r,
          b[r].arm.value.turn) }

  ghost predicate ArmsSame(a: Slots, b: Slots) { ArmsKept(a, b) && ArmsOnly(a, b) }

  lemma SharedStays(a: Slots, b: Slots, r: RunId)
    requires ArmsKept(a, b) && Shared(a, r)
    ensures Shared(b, r)
  {
    var q :| q != r && SameTurn(a, q, r);
    assert SameTurn(b, q, r);
  }

  lemma SharedBefore(a: Slots, b: Slots, r: RunId)
    requires ArmsOnly(a, b) && Shared(b, r)
    ensures Shared(a, r)
  {
    var q :| q != r && SameTurn(b, q, r);
    assert SameTurn(a, q, r);
  }

  lemma Unshared(slots: Slots, q: RunId, r: RunId)
    requires !Shared(slots, r) && SameTurn(slots, q, r)
    ensures q == r
  {
  }

  lemma Known(s: State)
    requires BindingInv(s)
    ensures SlotsBound(s.slots) && OwnersBound(s.log, s.slots, s.ev.owner) && OffersBound(s.reader, s.slots)
  {
  }

  lemma SlotAt(s: State, r: RunId)
    requires BindingInv(s) && r in s.slots
    ensures HistoryBound(s.slots[r]) && ListBound(s.slots[r])
  {
  }

  // ------------------------------------------------------------ shared steps

  /** A slot changes; its binding stays. */
  lemma SlotChanges(s: State, r: RunId, y: Slot)
    requires BindingInv(s) && r in s.slots && SameArm(s.slots[r], y)
    requires TurnBound(s.slots[r].caller) ==> TurnBound(y.caller)
    requires HistoryBound(y) && ListBound(y)
    ensures BindingInv(s.(slots := s.slots[r := y])) && ArmsKept(s.slots, s.slots[r := y])
    ensures (y.arm.Some? ==> s.slots[r].arm.Some?) ==> ArmsSame(s.slots, s.slots[r := y])
  {
    hide HistoryBound, ListBound;
  }

  /** A starter moves on with the list it has, or without one. */
  lemma Moves(s: State, r: RunId, y: Slot)
    requires BindingInv(s) && r in s.slots && y.arm == s.slots[r].arm && y.run.history == s.slots[r].run.history
    requires y.run.threadId == s.slots[r].run.threadId
    requires TurnBound(s.slots[r].caller) ==> TurnBound(y.caller)
    requires y.caller.Replay? ==> s.slots[r].caller.Replay? && y.caller.list == s.slots[r].caller.list
    requires y.caller.FinResolve? ==> s.slots[r].caller.FinResolve? && y.caller.list == s.slots[r].caller.list
    ensures BindingInv(s.(slots := s.slots[r := y])) && ArmsSame(s.slots, s.slots[r := y])
  {
    hide BindingInv;
    SlotAt(s, r);
    SlotChanges(s, r, y);
  }

  lemma Same(a: Slots)
    ensures ArmsSame(a, a)
  {
  }

  lemma Then(a: Slots, b: Slots, c: Slots)
    requires ArmsSame(a, b) && ArmsSame(b, c)
    ensures ArmsSame(a, c)
  {
  }

  lemma FinishBinds(s: State, r: RunId, err: Option<Err>, via: Via)
    requires BindingInv(s)
    ensures BindingInv(FinishRun(s, r, err, via)) && ArmsSame(s.slots, FinishRun(s, r, err, via).slots)
  {
    hide BindingInv;
    if r in s.slots && !s.slots[r].run.terminal {
      Moves(s, r, FinishRun(s, r, err, via).slots[r]);
      Elsewhere(s.(slots := FinishRun(s, r, err, via).slots), FinishRun(s, r, err, via));
    }
  }

  /** A step that touches neither runs, frames, owners nor offers. */
  lemma Elsewhere(s: State, s': State)
    requires BindingInv(s) && s'.slots == s.slots && s'.log == s.log && s'.ev.owner == s.ev.owner
    requires s'.reader == s.reader || !s'.reader.Routed? || s'.reader.targets == []
    ensures BindingInv(s')
  {
    hide HistoryBound, ListBound;
  }

  lemma AcceptBinds(s: State, r: RunId, p: Parked)
    requires BindingInv(s) && (r in s.slots && ClassOf(p.note).Turn? ==> BoundTo(s.slots, r, p.note.turnId))
    ensures BindingInv(AcceptRetained(s, r, p).0) && ArmsSame(s.slots, AcceptRetained(s, r, p).0.slots)
  {
    hide BindingInv, Retain;
    Same(s.slots);
    if r in s.slots && Admissible(s.slots[r].run, p.note) {
      SlotAt(s, r);
      var s' := AcceptRetained(s, r, p).0;
      SlotChanges(s, r, s'.slots[r]);
      Elsewhere(s.(slots := s'.slots), s');
    }
  }

  lemma ResolveBinds(s: State, p: Parked, r: RunId)
    requires BindingInv(s) && (r in s.slots && ClassOf(p.note).Turn? ==> BoundTo(s.slots, r, p.note.turnId))
    ensures BindingInv(Resolve(s, p, r)) && ArmsSame(s.slots, Resolve(s, p, r).slots)
  {
    hide BindingInv, AcceptRetained;
    Same(s.slots);
    if p.no !in s.ev.ready {
      AcceptBinds(s, r, p);
      AcceptFrame(s, r, p);
      Elsewhere(AcceptRetained(s, r, p).0, Resolve(s, p, r));
    }
  }

  // ------------------------------------------------------------------- reader

  lemma TargetsBound(s: State, note: Note, order: seq<RunId>)
    requires RegistryInv(s) && PhaseInv(s) && Reader.CanRoute(s, note, order) && ClassOf(note).Turn?
    ensures forall r <- order :: OfTurn(s.slots, r, note) && TurnBound(s.slots[r].caller)
  {
    hide LiveRegistered, ArmedOk, KeysOk, ParkedOk, Emptied, PhaseInv;
    forall r <- order ensures OfTurn(s.slots, r, note) && TurnBound(s.slots[r].caller) {
      assert r in multiset(order);
      assert r in s.slots && s.slots[r].run.turnId == note.turnId && Matches(s, r, note);
      PhasedAt(s, r);
    }
  }

  /** Routing parks a turn frame, in one list and for one owner, or changes neither
      lists nor owners. */
  lemma RouteShape(s: State, note: Note, order: seq<RunId>, bytes: nat)
    requires Reader.CanRoute(s, note, order)
    ensures var s' := Reader.DoRoute(s, note, order, bytes);
            && s'.slots == s.slots && s'.close == s.close && s'.log == s.log + [note]
            && s'.reg.armedTurns == s.reg.armedTurns && s'.ev == s.ev.(owner := s'.ev.owner)
            && s'.reader.Routed? && s'.reader.frame == |s.log| && s'.reader.note == note && s'.reader.targets == order
            && (|| (s'.reg.pend == s.reg.pend && s'.ev.owner == s.ev.owner
                    && (ClassOf(note).Turn? && Parkable(s, note) && order == [] ==> s'.reader.failed.Some?))
                || (ClassOf(note).Turn? && Parkable(s, note) && order == []
                    && s'.ev.owner == s.ev.owner[|s.log| := s.reg.armedTurns[note.turnId]]
                    && exists l :: s'.reg.pend == ParkTurn(s, note.turnId, Parked(|s.log|, note, l)).reg.pend))
  {
    hide Reserve, Reader.CanRoute, Matches;
    var l := Reserve(s.mem.budget, 4, bytes).1;
    var s' := Reader.DoRoute(s, note, order, bytes);
    if l.Some? && s'.ev.owner != s.ev.owner {
      assert s'.reg.pend == ParkTurn(s, note.turnId, Parked(|s.log|, note, l.value)).reg.pend;
    }
  }

  lemma ParksBound(s: State, note: Note)
    requires RegistryInv(s) && PhaseInv(s) && Parkable(s, note) && ClassOf(note).Turn?
    ensures OfTurn(s.slots, s.reg.armedTurns[note.turnId], note)
  {
    hide StreamsOk, AttachingOk, LiveRegistered, KeysOk, ParkedOk, Emptied, PhaseInv;
    var q := s.reg.armedTurns[note.turnId];
    assert BoundTo(s.slots, q, note.turnId);
    PhasedAt(s, q);
  }

  lemma RouteBinds(s: State, note: Note, order: seq<RunId>, bytes: nat)
    requires BindingInv(s) && RegistryInv(s) && PhaseInv(s) && Reader.CanRoute(s, note, order)
    ensures BindingInv(Reader.DoRoute(s, note, order, bytes))
    ensures Reader.DoRoute(s, note, order, bytes).slots == s.slots
  {
    hide PhaseInv, Reader.CanRoute, Reader.DoRoute, SlotsBound, Matches, StreamsOk, AttachingOk, LiveRegistered, KeysOk;
    hide ParkedOk, Emptied;
    if ClassOf(note).Turn? { TargetsBound(s, note, order); }
    if ClassOf(note).Turn? && Parkable(s, note) { ParksBound(s, note); }
    RouteShape(s, note, order, bytes);
  }

  lemma ReaderAcceptBinds(s: State, bytes: nat)
    requires BindingInv(s) && Reader.CanReaderAccept(s)
    ensures BindingInv(Reader.DoReaderAccept(s, bytes))
    ensures ArmsSame(s.slots, Reader.DoReaderAccept(s, bytes).slots)
  {
    hide HistoryBound, ListBound, Reserve, AcceptRetained, Admissible;
    var rd := s.reader;
    var r := rd.targets[0];
    var rest := rd.(targets := rd.targets[1..]);
    Same(s.slots);
    var l := Reserve(s.mem.budget, 3, bytes).1;
    if r in s.slots && Admissible(s.slots[r].run, rd.note) && l.Some? {
      var s1 := LetGo(s.(reader := rest), multiset{l.value});
      var s2 := s1.(mem := s1.mem.(budget := Reserve(s.mem.budget, 3, bytes).0));
      var p := Parked(rd.frame, rd.note, l.value);
      AcceptFrame(s2, r, p);
      AcceptBinds(s2, r, p);
    }
  }

  lemma ArmBinds(s: State, r: RunId, turn: Id, bytes: nat)
    requires BindingInv(s) && PhaseInv(s) && Reader.CanArmTurn(s, r, turn)
    ensures BindingInv(Reader.DoArmTurn(s, r, turn, bytes))
    ensures ArmsKept(s.slots, Reader.DoArmTurn(s, r, turn, bytes).slots)
    ensures s.close.closed ==> Reader.DoArmTurn(s, r, turn, bytes).slots == s.slots
  {
    hide BindingInv, PhaseInv, Reserve;
    PhasedAt(s, r);
    SlotAt(s, r);
    Same(s.slots);
    var y := s.slots[r].(caller := Answered, arm := Some(Arm(turn, |s.log|, None)));
    SlotChanges(s, r, y);
    var s' := Reader.DoArmTurn(s, r, turn, bytes);
    Elsewhere(if s'.slots == s.slots then s else s.(slots := s.slots[r := y]), s');
  }

  lemma ReaderBinds(s: State, a: Reader.Action)
    requires BindingInv(s) && RegistryInv(s) && PhaseInv(s) && Reader.Enabled(s, a)
    ensures BindingInv(Reader.Step(s, a)) && ArmsKept(s.slots, Reader.Step(s, a).slots)
    ensures s.close.closed || !a.ArmTurn? ==> ArmsSame(s.slots, Reader.Step(s, a).slots)
  {
    hide BindingInv, RegistryInv, PhaseInv, Reserve, FinishRun, Reader.CanRoute, Reader.CanReaderAccept;
    hide Reader.CanArmTurn;
    hide Reader.DoRoute, Reader.DoReaderAccept, Reader.DoArmTurn;
    Same(s.slots);
    match a
    case Route(note, order, bytes) => RouteBinds(s, note, order, bytes);
    case Accept(bytes) => ReaderAcceptBinds(s, bytes);
    case ArmTurn(r, turn, bytes) => ArmBinds(s, r, turn, bytes);
    case Complete =>
      var cs := s.reader.inline;
      if cs == [] {
        Elsewhere(s, Reader.Step(s, a));
      } else {
        FinishBinds(s, cs[0].run, cs[0].err, ByReader);
        Elsewhere(FinishRun(s, cs[0].run, cs[0].err, ByReader), Reader.Step(s, a));
      }
    case _ => Elsewhere(s, Reader.Step(s, a));
  }

  // ----------------------------------------------------------------- starters

  lemma CreateBinds(s: State, r: RunId, thread: Id)
    requires BindingInv(s) && Starter.CanCreateRun(s, r, thread)
    ensures BindingInv(Starter.DoCreateRun(s, r, thread)) && ArmsSame(s.slots, Starter.DoCreateRun(s, r, thread).slots)
  {
    hide HistoryBound, ListBound;
    NewBound(Slot(NewRun(thread), Created, false, None, false, false, false, NotFinished));
  }

  lemma NewBound(x: Slot)
    requires x.run.history == [] && x.caller.Created?
    ensures HistoryBound(x) && ListBound(x)
  {
  }

  lemma RegisterAcceptBinds(s: State, r: RunId)
    requires BindingInv(s) && Provenance.ProvenanceInv(s) && Starter.CanRegisterAccept(s, r)
    ensures BindingInv(Starter.DoRegisterAccept(s, r)) && ArmsSame(s.slots, Starter.DoRegisterAccept(s, r).slots)
  {
    hide Provenance.ProvenanceInv, BindingInv, AcceptRetained, ArmsSame;
    Provenance.ReplaysThread(s, r);
    var c := s.slots[r].caller;
    var p := c.list[c.regNext];
    AcceptBinds(s, r, p);
    AcceptFrame(s, r, p);
    AcceptSlot(s, r, p);
    var (s1, done) := AcceptRetained(s, r, p);
    Moves(s1, r, s1.slots[r].(caller := c.(regNext := c.regNext + 1, todo := done)));
    Then(s.slots, s1.slots, Starter.DoRegisterAccept(s, r).slots);
  }

  /** The starter of a run resolves a frame of its list. */
  lemma ResolvesThenBinds(s: State, r: RunId, p: Parked, c: Caller)
    requires BindingInv(s) && r in s.slots
    requires (s.slots[r].caller.Replay? && c.Replay?) || (s.slots[r].caller.FinResolve? && c.FinResolve?)
    requires c.list == s.slots[r].caller.list && p in c.list
    ensures r in Resolve(s, p, r).slots
    ensures BindingInv(SetCaller(Resolve(s, p, r), r, c)) && ArmsSame(s.slots, SetCaller(Resolve(s, p, r), r, c).slots)
  {
    hide BindingInv, Resolve;
    SlotAt(s, r);
    ResolveBinds(s, p, r);
    ResolveFrame(s, p, r);
    ResolveSlot(s, p, r);
    var s1 := Resolve(s, p, r);
    Moves(s1, r, s1.slots[r].(caller := c));
    Then(s.slots, s1.slots, SetCaller(s1, r, c).slots);
  }

  lemma ParkedBound(s: State, r: RunId, turn: Id)
    requires RegistryInv(s)
    ensures forall p <- ListAt(s.reg.pend, turn) :: p.note.turnId == turn
    ensures forall p <- Starter.Mine(s, ListAt(s.reg.pend, turn), r) :: p.note.turnId == turn
  {
    assert forall p <- ListAt(s.reg.pend, turn) :: p.note.turnId == turn;
    hide RegistryInv;
    MineIn(s, ListAt(s.reg.pend, turn), r);
  }

  lemma {:induction false} MineIn(s: State, list: seq<Parked>, r: RunId)
    ensures forall p <- Starter.Mine(s, list, r) :: p in list
    decreases |list|
  {
    if list == [] {
    } else {
      MineIn(s, list[..|list| - 1], r);
    }
  }

  lemma AttachPublishBinds(s: State, r: RunId)
    requires BindingInv(s) && RegistryInv(s) && PhaseInv(s) && Starter.CanAttachPublish(s, r)
    ensures BindingInv(Starter.DoAttachPublish(s, r)) && ArmsSame(s.slots, Starter.DoAttachPublish(s, r).slots)
  {
    hide BindingInv, RegistryInv, PhaseInv, Without, With;
    var s' := Starter.DoAttachPublish(s, r);
    PhasedAt(s, r);
    SlotAt(s, r);
    ParkedBound(s, r, s.slots[r].run.turnId);
    SlotChanges(s, r, s'.slots[r]);
    Elsewhere(s.(slots := s'.slots), s');
  }

  lemma FinishCollectBinds(s: State, r: RunId)
    requires BindingInv(s) && RegistryInv(s) && Starter.CanFinishCollect(s, r)
    ensures BindingInv(Starter.DoFinishCollect(s, r)) && ArmsSame(s.slots, Starter.DoFinishCollect(s, r).slots)
  {
    hide BindingInv, RegistryInv, Without, Starter.Mine, Starter.KeepOthers;
    var s' := Starter.DoFinishCollect(s, r);
    SlotAt(s, r);
    if s.slots[r].arm.Some? { ParkedBound(s, r, s.slots[r].arm.value.turn); }
    SlotChanges(s, r, s'.slots[r]);
    Elsewhere(s.(slots := s'.slots), s');
  }

  lemma StepsAside(s: State, r: RunId, c: Caller, done: Option<Completion>, via: Via)
    requires BindingInv(s) && r in s.slots && (TurnBound(s.slots[r].caller) ==> TurnBound(c))
    requires c.Replay? ==> s.slots[r].caller.Replay? && c.list == s.slots[r].caller.list
    requires c.FinResolve? ==> s.slots[r].caller.FinResolve? && c.list == s.slots[r].caller.list
    ensures var s1 := SetCaller(s, r, c); BindingInv(s1) && ArmsSame(s.slots, s1.slots)
    ensures var s1 := SetCaller(s, r, c);
            done.Some? ==> var s2 := FinishRun(s1, done.value.run, done.value.err, via); BindingInv(s2) && ArmsSame(s.slots, s2.slots)
  {
    hide BindingInv, FinishRun;
    var s1 := SetCaller(s, r, c);
    Moves(s, r, s.slots[r].(caller := c));
    if done.Some? {
      FinishBinds(s1, done.value.run, done.value.err, via);
      Then(s.slots, s1.slots, FinishRun(s1, done.value.run, done.value.err, via).slots);
    }
  }

  lemma LetsGo(s: State, ls: multiset<LeaseId>)
    requires BindingInv(s)
    ensures BindingInv(LetGo(s, ls))
  {
  }

  lemma CompletionAt(m: map<nat, Completion>, no: nat) returns (c: Option<Completion>)
    ensures c == if no in m then Some(m[no]) else None
  {
    c := if no in m then Some(m[no]) else None;
  }

  predicate MovesAlong(a: Starter.Action) {
    || a.Register? || a.RegisterDone? || a.AttachLock? || a.AttachDone? || a.FinishLock? || a.FinishUnlock?
    || a.Unregister? || a.Collect?
  }

  /** The steps in which a starter only moves along. */
  lemma StarterMoves(s: State, r: RunId, a: Starter.Action)
    requires BindingInv(s) && PhaseInv(s) && Starter.Enabled(s, r, a)
    requires MovesAlong(a)
    ensures BindingInv(Starter.Step(s, r, a)) && ArmsSame(s.slots, Starter.Step(s, r, a).slots)
  {
    hide BindingInv, PhaseInv;
    var s' := Starter.Step(s, r, a);
    MoveShape(s, r, a);
    hide Starter.Enabled, Starter.Step;
    Moves(s, r, s'.slots[r]);
    Elsewhere(s.(slots := s'.slots), s');
  }

  lemma RegisterMoves(s: State, r: RunId)
    ensures Starter.CanRegister(s, r) ==>
              var s' := Starter.DoRegister(s, r);
              && r in s'.slots && s'.slots == s.slots[r := s'.slots[r]]
              && s'.log == s.log && s'.ev == s.ev && s'.reader == s.reader && s'.close == s.close && s'.q == s.q
              && s'.slots[r] == s.slots[r].(caller := s'.slots[r].caller)
              && (s'.slots[r].caller.Refused? || s'.slots[r].caller.RegReplay?)
  {
    hide ReleaseAttachment;
    if Starter.CanRegister(s, r) {
      var thread := s.slots[r].run.threadId;
      ReleaseAttachmentFrame(
        SetCaller(s, r, RegReplay(ListAt(s.reg.threadPend, thread), 0, None))
          .(reg := s.reg.(attaching := s.reg.attaching[thread := {r}], threadPend := s.reg.threadPend - {thread},
                          armedThreads := s.reg.armedThreads - {thread})), ThreadKey(thread));
    }
  }

  lemma MoveShape(s: State, r: RunId, a: Starter.Action)
    requires Starter.Enabled(s, r, a)
    requires MovesAlong(a)
    ensures var s' := Starter.Step(s, r, a);
            && r in s.slots && r in s'.slots && s'.slots == s.slots[r := s'.slots[r]]
            && s'.log == s.log && s'.ev == s.ev && s'.reader == s.reader && s'.close == s.close && s'.q == s.q
            && s'.slots[r].arm == s.slots[r].arm && s'.slots[r].run.threadId == s.slots[r].run.threadId
            && s'.slots[r].run.history == s.slots[r].run.history
            && var c := s'.slots[r].caller;
               c == s.slots[r].caller
               || (!c.Replay? && !c.FinResolve? && (TurnBound(s.slots[r].caller) ==> TurnBound(c)))
  {
    hide ListLeases, Without, FinishRun, Resolve, AcceptRetained, Starter.DoRegister;
    hide Starter.DoCreateRun, Starter.DoFinishRefused, Starter.DoRegisterAccept, Starter.DoRegisterComplete;
    hide Starter.DoAttachPublish, Starter.DoAttachResolve, Starter.DoAttachNext, Starter.DoFinishCollect;
    hide Starter.DoFinishResolve, Starter.DoFinishComplete, Starter.DoFinishEnd, Starter.DoExternalFinish;
    RegisterMoves(s, r);
  }

  lemma FinishEndBinds(s: State, r: RunId, err: Err)
    requires BindingInv(s) && Starter.CanFinishEnd(s, r)
    ensures BindingInv(Starter.DoFinishEnd(s, r, err)) && ArmsSame(s.slots, Starter.DoFinishEnd(s, r, err).slots)
  {
    hide BindingInv, FinishRun;
    StepsAside(s, r, Over, None, ByError);
    var s1 := LetGo(SetCaller(s, r, Over), ListLeases(s.slots[r].caller.list));
    LetsGo(SetCaller(s, r, Over), ListLeases(s.slots[r].caller.list));
    FinishBinds(s1, r, Some(err), ByError);
    Then(s.slots, s1.slots, Starter.DoFinishEnd(s, r, err).slots);
  }

  lemma StarterBinds(s: State, r: RunId, a: Starter.Action)
    requires BindingInv(s) && RegistryInv(s) && PhaseInv(s) && Provenance.ProvenanceInv(s) && Starter.Enabled(s, r, a)
    ensures BindingInv(Starter.Step(s, r, a)) && ArmsSame(s.slots, Starter.Step(s, r, a).slots)
  {
    hide BindingInv, RegistryInv, PhaseInv, Provenance.ProvenanceInv, FinishRun, Resolve;
    hide Starter.DoRegister, Starter.DoRegisterAccept, Starter.DoAttachPublish, Starter.DoFinishCollect;
    hide Starter.CanRegisterAccept, Starter.DoFinishEnd;
    match a
    case CreateRun(thread) => CreateBinds(s, r, thread);
    case FinishRefused => StepsAside(s, r, Over, Some(Completion(r, Some(s.slots[r].caller.refusal))), ByError);
    case RegisterAccept => RegisterAcceptBinds(s, r);
    case RegisterComplete => StepsAside(s, r, s.slots[r].caller.(todo := None), s.slots[r].caller.todo, ByRegister);
    case AttachPublish => AttachPublishBinds(s, r);
    case AttachResolve =>
      var c := s.slots[r].caller;
      ResolvesThenBinds(s, r, c.list[c.next], c.(resolved := true));
    case AttachNext =>
      var c := s.slots[r].caller;
      var done := CompletionAt(s.ev.completion, c.list[c.next].no);
      StepsAside(s, r, c.(next := c.next + 1, resolved := false), done, ByReplay);
    case FinishCollect => FinishCollectBinds(s, r);
    case FinishResolve =>
      var c := s.slots[r].caller;
      ResolvesThenBinds(s, r, c.list[c.finNext], c.(finNext := c.finNext + 1));
    case FinishComplete =>
      var c := s.slots[r].caller;
      var done := CompletionAt(s.ev.completion, c.list[c.doneNext].no);
      StepsAside(s, r, c.(doneNext := c.doneNext + 1), done, ByFinish(c.list[c.doneNext].no));
    case FinishEnd(err) => FinishEndBinds(s, r, err);
    case ExternalFinish(err) => FinishBinds(s, r, Some(err), ByError);
    case _ => StarterMoves(s, r, a);
  }

  // ------------------------------------------------- closing and the dispatcher

  lemma SnapshotBinds(s: State, turns: seq<Id>, runs: seq<RunId>, finishing: seq<RunId>)
    requires BindingInv(s) && Closing.CanSnapshot(s, turns, runs, finishing)
    ensures BindingInv(Closing.DoSnapshot(s, turns, runs, finishing))
    ensures ArmsSame(s.slots, Closing.DoSnapshot(s, turns, runs, finishing).slots)
  {
    hide Concat, ConcatReplays, RetainAll, Leases, Closing.CanSnapshot;
  }

  /** The owner of published evidence is bound. */
  lemma PublishBinds(s: State, p: Parked)
    requires BindingInv(s) && Provenance.TurnFrame(s.log, p)
    ensures var s1 := if p.no in s.ev.owner then Resolve(s, p, s.ev.owner[p.no]) else s;
            BindingInv(s1) && ArmsSame(s.slots, s1.slots)
  {
    Same(s.slots);
    if p.no in s.ev.owner {
      Known(s);
      assert BoundTo(s.slots, s.ev.owner[p.no], s.log[p.no].turnId);
      hide BindingInv;
      ResolveBinds(s, p, s.ev.owner[p.no]);
    }
  }

  lemma PublishedFrame(s: State, p: Parked)
    requires Provenance.ProvenanceInv(s) && s.close.pub.Draining?
    requires p in s.close.pub.pending || p in s.close.pub.replay
    ensures Provenance.TurnFrame(s.log, p)
  {
  }

  lemma CloserBinds(s: State, a: Closing.Action)
    requires BindingInv(s) && Provenance.ProvenanceInv(s) && Closing.Enabled(s, a)
    ensures BindingInv(Closing.Step(s, a)) && ArmsSame(s.slots, Closing.Step(s, a).slots)
  {
    hide BindingInv, FinishRun, Resolve, Release, Closing.DoSnapshot, Closing.CanSnapshot;
    hide Provenance.ProvenanceInv, Provenance.TurnFrame;
    Same(s.slots);
    match a
    case Snapshot(turns, runs, finishing) => SnapshotBinds(s, turns, runs, finishing);
    case PublishPending =>
      var p := s.close.pub.pending[0];
      PublishedFrame(s, p);
      PublishBinds(s, p);
      Elsewhere(if p.no in s.ev.owner then Resolve(s, p, s.ev.owner[p.no]) else s, Closing.Step(s, a));
    case PublishReplay =>
      var p := s.close.pub.replay[0];
      PublishedFrame(s, p);
      PublishBinds(s, p);
      Elsewhere(if p.no in s.ev.owner then Resolve(s, p, s.ev.owner[p.no]) else s, Closing.Step(s, a));
    case PublishFinish =>
      FinishBinds(s, s.close.pub.finishing[0], Cause(s), ByError);
      Elsewhere(FinishRun(s, s.close.pub.finishing[0], Cause(s), ByError), Closing.Step(s, a));
    case _ => Elsewhere(s, Closing.Step(s, a));
  }

  lemma DispatcherBinds(s: State, a: Dispatch.Action)
    requires BindingInv(s) && Dispatch.Enabled(s, a)
    ensures BindingInv(Dispatch.Step(s, a)) && ArmsSame(s.slots, Dispatch.Step(s, a).slots)
  {
    hide BindingInv, FinishRun;
    Same(s.slots);
    match a
    case Complete =>
      var c := s.q.disp.completions[0];
      FinishBinds(s, c.run, c.err, ByDispatch(s.q.disp.e.frame));
      Elsewhere(FinishRun(s, c.run, c.err, ByDispatch(s.q.disp.e.frame)), Dispatch.Step(s, a));
    case _ => Elsewhere(s, Dispatch.Step(s, a));
  }

  // --------------------------------------------------------------- whole runs

  lemma StepBinds(s: State, a: Client.Action)
    requires BindingInv(s) && RegistryInv(s) && PhaseInv(s) && Provenance.ProvenanceInv(s) && Client.Enabled(s, a)
    ensures BindingInv(Client.Step(s, a)) && ArmsKept(s.slots, Client.Step(s, a).slots)
    ensures s.close.closed ==> ArmsSame(s.slots, Client.Step(s, a).slots)
  {
    hide BindingInv, PhaseInv, RegistryInv, Provenance.ProvenanceInv;
    hide Reader.Enabled, Reader.Step, Starter.Enabled, Starter.Step;
    hide Closing.Enabled, Closing.Step, Dispatch.Enabled, Dispatch.Step;
    match a
    case ByReader(b) => ReaderBinds(s, b);
    case ByStarter(r, b) => StarterBinds(s, r, b);
    case ByCloser(b) => CloserBinds(s, b);
    case ByDispatcher(b) => DispatcherBinds(s, b);
  }

  lemma {:induction false} AlwaysBound(states: seq<State>, actions: seq<Client.Action>, i: nat)
    requires Client.IsRun(states, actions) && i < |states|
    ensures BindingInv(states[i])
  {
    hide BindingInv, PhaseInv, RegistryInv, Provenance.ProvenanceInv, Client.Enabled, Client.Step;
    if i == 0 {
      InitBound(states[0]);
    } else {
      AlwaysBound(states, actions, i - 1);
      AlwaysPhased(states, actions, i - 1);
      Provenance.AlwaysGenuine(states, actions, i - 1);
      AlwaysAgrees(states, actions, i - 1);
      StepBinds(states[i - 1], actions[i - 1]);
    }
  }

  lemma InitBound(s: State)
    requires Client.IsInit(s)
    ensures BindingInv(s)
  {
  }

  /** A run whose turn was never bound has accepted no turn frame. */
  lemma UnboundAcceptsNoTurnFrame(states: seq<State>, actions: seq<Client.Action>, i: nat, r: RunId)
    requires Client.IsRun(states, actions) && i < |states| && r in states[i].slots && states[i].slots[r].arm.None?
    ensures TurnNos(states[i].slots[r].run.history) == []
  {
    hide Client.IsRun, BindingInv;
    AlwaysBound(states, actions, i);
    SlotAt(states[i], r);
    var history := states[i].slots[r].run.history;
    assert forall k :: 0 <= k < |history| ==> history[k] in history;
    NoTurnFrames(history);
  }

  lemma {:induction false} NoTurnFrames(history: seq<Frame>)
    requires forall k :: 0 <= k < |history| ==> !IsTurn(history[k])
    ensures TurnNos(history) == []
    decreases |history|
  {
    if history == [] {
    } else {
      NoTurnFrames(history[..|history| - 1]);
    }
  }
}
