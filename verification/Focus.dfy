/** How the client's steps look from one run whose turn id is its own: the steps of
    everybody else leave its slot, its parked frames, its evidence and what it is
    offered alone. */
module Focus {
  import opened Wrappers
  import opened Attribution
  import opened Retention
  import opened ExactRun
  import opened ClientState
  import opened Phases
  import opened Registration
  import opened Binding
  import Reader
  import Starter
  import Closing
  import Dispatch
  import Frozen
  import Provenance

  /** The parked frames of a run's turn. */
  function ParkedOf(pend: map<Id, seq<Parked>>, x: Slot): seq<Parked> {
    if x.arm.Some? then ListAt(pend, x.arm.value.turn) else []
  }

  predicate Owns(ev: Evidence, f: RunId, no: nat) { no in ev.owner && ev.owner[no] == f }

  /** The run's evidence, and what of it is open, is the same. */
  ghost predicate SameFrames(a: Evidence, b: Evidence, f: RunId) {
    forall n :: (Owns(b, f, n) <==> Owns(a, f, n)) && (Open(b, f, n) <==> Open(a, f, n))
  }

  /** The run may end, lose its registration or let go of its leases. */
  predicate Rests(x: Slot, y: Slot) {
    && y == x.(run := y.run, via := y.via, gone := y.gone)
    && y.run.history == x.run.history && y.run.turnId == x.run.turnId && y.run.threadId == x.run.threadId
    && y.run.terminalAdmitted == x.run.terminalAdmitted && (x.run.terminal ==> y.run.terminal)
  }

  /** The publisher may move past a frame that is not open evidence of the run. */
  predicate Dropped(f: RunId, a: seq<Parked>, b: seq<Parked>, ev: Evidence) {
    b == a || (a != [] && b == a[1..] && !Open(ev, f, a[0].no))
  }

  predicate PublisherSeen(f: RunId, a: Publisher, b: Publisher, ev: Evidence) {
    && (b.Draining? || b.Published? <==> a.Draining? || a.Published?)
    && (b.Draining? ==> a.Draining? && Dropped(f, a.pending, b.pending, ev) && Dropped(f, a.replay, b.replay, ev))
    && (a.Draining? && !b.Draining? ==> a.pending == [] && a.replay == [])
  }

  predicate Offered(rd: ClientState.Reader, f: RunId) { rd.Routed? && ClassOf(rd.note).Turn? && f in rd.targets }

  /** The run is offered nothing new. */
  predicate OffersSeen(f: RunId, a: ClientState.Reader, b: ClientState.Reader) {
    Offered(b, f) ==> Offered(a, f) && b.frame == a.frame && b.note == a.note
  }

  /** The newest frame is still to be offered to the run, or lost to a failure. */
  predicate Coming(f: RunId, rd: ClientState.Reader, closed: bool) {
    closed || (rd.Routed? && (f in rd.targets || rd.failed.Some?))
  }

  predicate OwnsArmed(f: RunId, x: Slot, armedTurns: map<Id, RunId>) {
    x.arm.Some? && x.arm.value.turn in armedTurns && armedTurns[x.arm.value.turn] == f
  }

  ghost predicate Seen(s: State, s': State, f: RunId) {
    && f in s.slots && f in s'.slots && Rests(s.slots[f], s'.slots[f])
    && ParkedOf(s'.reg.pend, s'.slots[f]) == ParkedOf(s.reg.pend, s.slots[f])
    && (OwnsArmed(f, s.slots[f], s.reg.armedTurns) ==> OwnsArmed(f, s'.slots[f], s'.reg.armedTurns))
    && SameFrames(s.ev, s'.ev, f) && PublisherSeen(f, s.close.pub, s'.close.pub, s'.ev)
    && OffersSeen(f, s.reader, s'.reader) && s'.log == s.log && (s.q.stopping ==> s'.q.stopping)
    && (s.close.closed ==> s'.close.closed)
    && (Coming(f, s.reader, s.close.closed) ==> Coming(f, s'.reader, s'.close.closed))
  }

  // ------------------------------------------------------------ shared steps

  /** A step of others that leaves parked lists, evidence and the publisher alone. */
  lemma SeenApart(s: State, s': State, f: RunId)
    requires f in s.slots && f in s'.slots && Rests(s.slots[f], s'.slots[f])
    requires s'.reg.pend == s.reg.pend && s'.reg.armedTurns == s.reg.armedTurns && s'.log == s.log
    requires s'.ev.owner == s.ev.owner && s'.ev.ready == s.ev.ready
    requires s'.close == s.close && s'.reader == s.reader && (s.q.stopping ==> s'.q.stopping)
    ensures Seen(s, s', f)
  {
  }

  lemma SeenFinish(s: State, r: RunId, err: Option<Err>, via: Via, f: RunId)
    requires f in s.slots
    ensures Seen(s, FinishRun(s, r, err, via), f)
  {
    SeenApart(s, FinishRun(s, r, err, via), f);
  }

  lemma SeenThen(s: State, s': State, s'': State, f: RunId)
    requires Seen(s, s', f) && Seen(s', s'', f)
    requires s''.close.pub == s'.close.pub || s'.close.pub == s.close.pub
    ensures Seen(s, s'', f)
  {
    hide ParkedOf, OwnsArmed, Coming, Offered;
  }

  /** Somebody else accepts a frame. */
  lemma SeenAccept(s: State, q: RunId, p: Parked, f: RunId)
    requires f in s.slots && q != f
    ensures Seen(s, AcceptRetained(s, q, p).0, f) && AcceptRetained(s, q, p).0.slots[f] == s.slots[f]
  {
    hide Retain, Accept, Admissible;
    SeenApart(s, AcceptRetained(s, q, p).0, f);
  }

  lemma SeenReady(s: State, s': State, f: RunId, no: nat)
    requires f in s.slots && !Owns(s.ev, f, no) && s' == s.(ev := s'.ev)
    requires s'.ev.owner == s.ev.owner && s'.ev.ready == s.ev.ready + {no}
    ensures Seen(s, s', f)
  {
    assert forall n :: (Owns(s'.ev, f, n) <==> Owns(s.ev, f, n)) && (Open(s'.ev, f, n) <==> Open(s.ev, f, n));
    hide ParkedOf, OwnsArmed, Coming, Offered, Open, Owns;
  }

  /** Somebody else's evidence is resolved. */
  lemma SeenResolve(s: State, p: Parked, q: RunId, f: RunId)
    requires f in s.slots && q != f && !Owns(s.ev, f, p.no)
    ensures Seen(s, Resolve(s, p, q), f)
  {
    hide AcceptRetained, Seen;
    SeenApart(s, s, f);
    if p.no !in s.ev.ready {
      var s1 := AcceptRetained(s, q, p).0;
      AcceptFrame(s, q, p);
      SeenAccept(s, q, p, f);
      SeenReady(s1, Resolve(s, p, q), f, p.no);
      SeenThen(s, s1, Resolve(s, p, q), f);
    }
  }

  /** Somebody else's slot changes, and then what the run cannot see. */
  lemma SeenSlot(s: State, q: RunId, y: Slot, s': State, f: RunId)
    requires f in s.slots && q != f && s'.slots == s.slots[q := y]
    requires s'.reg.pend == s.reg.pend && s'.reg.armedTurns == s.reg.armedTurns && s'.log == s.log
    requires s'.ev == s.ev && s'.close == s.close && s'.reader == s.reader && s'.q == s.q
    ensures Seen(s, s', f)
  {
    SeenApart(s, s', f);
  }

  /** A frame of another run's list is not the run's. */
  lemma NotOurs(s: State, q: RunId, f: RunId, p: Parked)
    requires BindingInv(s) && Provenance.ProvenanceInv(s) && f in s.slots && !Shared(s.slots, f)
    requires q in s.slots && q != f && (s.slots[q].caller.Replay? || s.slots[q].caller.FinResolve?)
    requires p in s.slots[q].caller.list
    ensures !Owns(s.ev, f, p.no)
  {
    hide Provenance.ProvenanceInv, BindingInv;
    Binding.Known(s);
    Binding.SlotAt(s, q);
    Provenance.SlotAt(s, q);
    assert Provenance.TurnFrame(s.log, p);
    if Owns(s.ev, f, p.no) {
      assert BoundTo(s.slots, f, s.log[p.no].turnId);
      Unshared(s.slots, q, f);
    }
  }

  // ------------------------------------------------------- other runs' starters

  lemma SeenListStep(s: State, q: RunId, p: Parked, c: Caller, f: RunId)
    requires BindingInv(s) && Provenance.ProvenanceInv(s) && f in s.slots && !Shared(s.slots, f)
    requires q in s.slots && q != f && (s.slots[q].caller.Replay? || s.slots[q].caller.FinResolve?)
    requires p in s.slots[q].caller.list
    ensures q in Resolve(s, p, q).slots && Seen(s, SetCaller(Resolve(s, p, q), q, c), f)
  {
    hide BindingInv, Provenance.ProvenanceInv, Resolve, Seen;
    NotOurs(s, q, f, p);
    SeenResolve(s, p, q, f);
    ResolveFrame(s, p, q);
    var s1 := Resolve(s, p, q);
    SeenSlot(s1, q, s1.slots[q].(caller := c), SetCaller(s1, q, c), f);
    SeenThen(s, s1, SetCaller(s1, q, c), f);
  }

  /** Another run's turn is disarmed, or its parked list taken. */
  lemma SeenRegistry(s: State, s': State, q: RunId, turn: Id, f: RunId)
    requires f in s.slots && q != f && !Shared(s.slots, f) && BoundTo(s.slots, q, turn)
    requires q in s'.slots && s'.slots == s.slots[q := s'.slots[q]]
    requires forall t :: t != turn ==> ListAt(s'.reg.pend, t) == ListAt(s.reg.pend, t)
    requires s'.reg.armedTurns == s.reg.armedTurns || s'.reg.armedTurns == s.reg.armedTurns - {turn}
    requires s'.log == s.log && s'.ev == s.ev && s'.close == s.close && s'.reader == s.reader && s'.q == s.q
    ensures Seen(s, s', f)
  {
    if s.slots[f].arm.Some? && s.slots[f].arm.value.turn == turn { Unshared(s.slots, q, f); }
  }

  lemma SeenAttachPublish(s: State, q: RunId, f: RunId)
    requires PhaseInv(s) && f in s.slots && q != f && !Shared(s.slots, f) && Starter.CanAttachPublish(s, q)
    ensures Seen(s, Starter.DoAttachPublish(s, q), f)
  {
    PhasedAt(s, q);
    hide PhaseInv, Seen, Without, With;
    SeenRegistry(s, Starter.DoAttachPublish(s, q), q, s.slots[q].run.turnId, f);
  }

  lemma SeenFinishCollect(s: State, q: RunId, f: RunId)
    requires f in s.slots && q != f && !Shared(s.slots, f) && Starter.CanFinishCollect(s, q)
    ensures Seen(s, Starter.DoFinishCollect(s, q), f)
  {
    hide Seen, Without, Starter.Mine, Starter.Kept;
    var s' := Starter.DoFinishCollect(s, q);
    if s.slots[q].arm.Some? {
      SeenRegistry(s, s', q, s.slots[q].arm.value.turn, f);
    } else {
      SeenSlot(s, q, s'.slots[q], s', f);
    }
  }

  lemma SeenRegisterAccept(s: State, q: RunId, f: RunId)
    requires f in s.slots && q != f && Starter.CanRegisterAccept(s, q)
    ensures Seen(s, Starter.DoRegisterAccept(s, q), f)
  {
    hide Seen, AcceptRetained;
    var c := s.slots[q].caller;
    var (s1, done) := AcceptRetained(s, q, c.list[c.regNext]);
    AcceptFrame(s, q, c.list[c.regNext]);
    SeenAccept(s, q, c.list[c.regNext], f);
    var s' := Starter.DoRegisterAccept(s, q);
    SeenSlot(s1, q, s'.slots[q], s', f);
    SeenThen(s, s1, s', f);
  }

  /** A starter moves on and completes a run, perhaps this one. */
  lemma SeenSteps(s: State, q: RunId, c: Caller, done: Option<Completion>, via: Via, f: RunId)
    requires f in s.slots && q in s.slots && q != f
    ensures var s1 := SetCaller(s, q, c);
            Seen(s, s1, f) && (done.Some? ==> Seen(s, FinishRun(s1, done.value.run, done.value.err, via), f))
  {
    hide Seen, FinishRun;
    var s1 := SetCaller(s, q, c);
    SeenSlot(s, q, s1.slots[q], s1, f);
    if done.Some? {
      SeenFinish(s1, done.value.run, done.value.err, via, f);
      SeenThen(s, s1, FinishRun(s1, done.value.run, done.value.err, via), f);
    }
  }

  lemma SeenFinishEnd(s: State, q: RunId, err: Err, f: RunId)
    requires f in s.slots && q != f && Starter.CanFinishEnd(s, q)
    ensures Seen(s, Starter.DoFinishEnd(s, q, err), f)
  {
    hide Seen, FinishRun, ListLeases;
    var s1 := LetGo(SetCaller(s, q, Over), ListLeases(s.slots[q].caller.list));
    SeenSlot(s, q, s1.slots[q], s1, f);
    SeenFinish(s1, q, Some(err), ByError, f);
    SeenThen(s, s1, Starter.DoFinishEnd(s, q, err), f);
  }

  lemma SeenStarter(s: State, q: RunId, a: Starter.Action, f: RunId)
    requires PhaseInv(s) && BindingInv(s) && Provenance.ProvenanceInv(s)
    requires f in s.slots && q != f && !Shared(s.slots, f) && Starter.Enabled(s, q, a)
    ensures Seen(s, Starter.Step(s, q, a), f)
  {
    hide PhaseInv, BindingInv, Provenance.ProvenanceInv, Seen, FinishRun, Resolve, ListLeases;
    hide Starter.DoRegisterAccept, Starter.DoAttachPublish, Starter.DoFinishCollect, Starter.CanRegisterAccept;
    hide Starter.DoRegister, Starter.DoUnregister, Starter.DoFinishEnd;
    match a
    case CreateRun(_) => SeenSlot(s, q, Starter.Step(s, q, a).slots[q], Starter.Step(s, q, a), f);
    case Register => SeenMove(s, q, a, f);
    case FinishRefused => SeenSteps(s, q, Over, Some(Completion(q, Some(s.slots[q].caller.refusal))), ByError, f);
    case RegisterAccept => SeenRegisterAccept(s, q, f);
    case RegisterComplete => SeenSteps(s, q, s.slots[q].caller.(todo := None), s.slots[q].caller.todo, ByRegister, f);
    case RegisterDone => SeenMove(s, q, a, f);
    case AttachLock => SeenMove(s, q, a, f);
    case AttachPublish => SeenAttachPublish(s, q, f);
    case AttachResolve =>
      var c := s.slots[q].caller;
      SeenListStep(s, q, c.list[c.next], c.(resolved := true), f);
    case AttachNext =>
      var c := s.slots[q].caller;
      var done := CompletionAt(s.ev.completion, c.list[c.next].no);
      SeenSteps(s, q, c.(next := c.next + 1, resolved := false), done, ByReplay, f);
    case AttachDone => SeenMove(s, q, a, f);
    case FinishLock => SeenMove(s, q, a, f);
    case FinishCollect => SeenFinishCollect(s, q, f);
    case FinishResolve =>
      var c := s.slots[q].caller;
      SeenListStep(s, q, c.list[c.finNext], c.(finNext := c.finNext + 1), f);
    case FinishUnlock => SeenMove(s, q, a, f);
    case FinishComplete =>
      var c := s.slots[q].caller;
      var done := CompletionAt(s.ev.completion, c.list[c.doneNext].no);
      SeenSteps(s, q, c.(doneNext := c.doneNext + 1), done, ByFinish(c.list[c.doneNext].no), f);
    case FinishEnd(err) => SeenFinishEnd(s, q, err, f);
    case ExternalFinish(err) => SeenFinish(s, q, Some(err), ByError, f);
    case Unregister => SeenMove(s, q, a, f);
    case Collect => SeenMove(s, q, a, f);
  }

  lemma SeenMove(s: State, q: RunId, a: Starter.Action, f: RunId)
    requires f in s.slots && q != f && Starter.Enabled(s, q, a)
    requires MovesAlong(a)
    ensures Seen(s, Starter.Step(s, q, a), f)
  {
    hide Starter.Enabled, Starter.Step, Seen;
    MoveShape(s, q, a);
    MoveRegistry(s, q, a);
    SeenSlot(s, q, Starter.Step(s, q, a).slots[q], Starter.Step(s, q, a), f);
  }

  lemma MoveRegistry(s: State, q: RunId, a: Starter.Action)
    requires Starter.Enabled(s, q, a)
    requires MovesAlong(a)
    ensures var t := Starter.Step(s, q, a).reg; t.pend == s.reg.pend && t.armedTurns == s.reg.armedTurns
  {
    hide ListLeases, Without, FinishRun, Resolve, AcceptRetained;
    hide Starter.DoCreateRun, Starter.DoFinishRefused, Starter.DoRegisterAccept, Starter.DoRegisterComplete;
    hide Starter.DoAttachPublish, Starter.DoAttachResolve, Starter.DoAttachNext, Starter.DoFinishCollect;
    hide Starter.DoFinishResolve, Starter.DoFinishComplete, Starter.DoFinishEnd, Starter.DoExternalFinish;
  }

  // ------------------------------------------------------------------- reader

  /** The reader goes on after every run was offered the frame. */
  lemma SeenReads(s: State, s': State, f: RunId)
    requires f in s.slots && f in s'.slots && Rests(s.slots[f], s'.slots[f])
    requires s'.reg.pend == s.reg.pend && s'.reg.armedTurns == s.reg.armedTurns && s'.log == s.log
    requires s'.ev.owner == s.ev.owner && s'.ev.ready == s.ev.ready
    requires s'.close.pub == s.close.pub || (s.close.pub.NoPublisher? && s'.close.pub.Claimed?)
    requires s.close.closed ==> s'.close.closed
    requires s.reader.Routed? ==> s.reader.targets == [] && (s.reader.failed.Some? ==> s'.close.closed)
    requires s'.reader.Routed? ==> s'.reader.targets == []
    requires s.q.stopping ==> s'.q.stopping
    ensures Seen(s, s', f)
  {
  }

  lemma SeenClaim(s: State, f: RunId)
    requires Frozen.CloseInv(s) && f in s.slots && Reader.CanReaderClaim(s)
    ensures Seen(s, Reader.DoReaderClaim(s), f)
  {
    hide Seen;
    SeenReads(s, Reader.DoReaderClaim(s), f);
  }

  lemma SeenEnqueue(s: State, count: nat, bytes: nat, f: RunId)
    requires f in s.slots && Reader.CanReaderEnqueue(s)
    ensures Seen(s, Reader.DoReaderEnqueue(s, count, bytes), f)
  {
    hide Seen, Reserve;
    SeenReads(s, Reader.DoReaderEnqueue(s, count, bytes), f);
  }

  lemma SeenArmThread(s: State, thread: Id, bytes: nat, f: RunId)
    requires f in s.slots && Reader.CanArmThread(s, thread)
    ensures Seen(s, Reader.DoArmThread(s, thread, bytes), f)
  {
    hide Seen, Reserve;
    SeenReads(s, Reader.DoArmThread(s, thread, bytes), f);
  }

  lemma SeenComplete(s: State, f: RunId)
    requires f in s.slots && Reader.CanReaderComplete(s)
    ensures Seen(s, Reader.DoReaderComplete(s), f)
  {
    hide Seen;
    SeenReads(s, Reader.DoReaderComplete(s), f);
  }

  /** Another run's turn is bound, or nothing is. */
  lemma SeenArmTurn(s: State, q: RunId, turn: Id, bytes: nat, f: RunId)
    requires f in s.slots && Reader.CanArmTurn(s, q, turn)
    requires q != f || Reader.DoArmTurn(s, q, turn, bytes).slots == s.slots
    requires !Shared(Reader.DoArmTurn(s, q, turn, bytes).slots, f)
    ensures Seen(s, Reader.DoArmTurn(s, q, turn, bytes), f)
  {
    hide Reserve;
    var s' := Reader.DoArmTurn(s, q, turn, bytes);
    if s'.reader.Idle? {
      assert s'.slots[q].arm == Some(Arm(turn, |s.log|, None));
      assert q != f;
      if s.slots[f].arm.Some? && s.slots[f].arm.value.turn == turn { Unshared(s'.slots, q, f); }
    }
  }

  /** The routed frame is offered to another run. */
  lemma SeenReaderAccept(s: State, bytes: nat, f: RunId)
    requires f in s.slots && Reader.CanReaderAccept(s) && s.reader.targets[0] != f
    ensures Seen(s, Reader.DoReaderAccept(s, bytes), f)
  {
    hide Reserve, AcceptRetained, Admissible, ParkedOf, OwnsArmed;
    var rd := s.reader;
    var q := rd.targets[0];
    var l := Reserve(s.mem.budget, 3, bytes).1;
    if q in s.slots && Admissible(s.slots[q].run, rd.note) && l.Some? {
      var s1 := LetGo(s.(reader := rd.(targets := rd.targets[1..])), multiset{l.value});
      var s2 := s1.(mem := s1.mem.(budget := Reserve(s.mem.budget, 3, bytes).0));
      var p := Parked(rd.frame, rd.note, l.value);
      AcceptFrame(s2, q, p);
      SeenAccept(s2, q, p, f);
    }
  }

  lemma SeenReader(s: State, a: Reader.Action, f: RunId)
    requires Frozen.CloseInv(s) && f in s.slots && Reader.Enabled(s, a)
    requires !a.Route? && (a.Accept? ==> s.reader.targets[0] != f)
    requires a.ArmTurn? ==> a.r != f || Reader.Step(s, a).slots == s.slots
    requires !Shared(Reader.Step(s, a).slots, f)
    ensures Seen(s, Reader.Step(s, a), f)
  {
    hide Seen, Reserve, FinishRun, Reader.DoReaderClaim, Reader.DoReaderEnqueue, Reader.DoArmThread;
    hide Reader.DoReaderComplete;
    hide Reader.DoRoute, Reader.CanRoute, Reader.DoArmTurn, Reader.DoReaderAccept, Frozen.CloseInv;
    match a
    case ArmThread(thread, bytes) => SeenArmThread(s, thread, bytes, f);
    case ArmTurn(q, turn, bytes) => SeenArmTurn(s, q, turn, bytes, f);
    case Accept(bytes) => SeenReaderAccept(s, bytes, f);
    case Claim => SeenClaim(s, f);
    case Enqueue(count, bytes) => SeenEnqueue(s, count, bytes, f);
    case Reject => SeenReads(s, Reader.Step(s, a), f);
    case Complete => SeenComplete(s, f);
    case _ =>
  }

  // ------------------------------------------------- closing and the dispatcher

  /** Steps that change neither runs nor evidence: closing, queueing, leases. */
  lemma SeenCloses(s: State, s': State, f: RunId)
    requires f in s.slots && s'.slots == s.slots && s'.reg == s.reg && s'.log == s.log && s'.reader == s.reader
    requires s'.ev.owner == s.ev.owner && s'.ev.ready == s.ev.ready
    requires s'.close.pub == s.close.pub || (s.close.pub.NoPublisher? && s'.close.pub.Claimed?)
    requires (s.close.closed ==> s'.close.closed) && (s.q.stopping ==> s'.q.stopping)
    ensures Seen(s, s', f)
  {
  }

  lemma SeenClaimFailure(s: State, err: Err, f: RunId)
    requires Frozen.CloseInv(s) && f in s.slots
    ensures Seen(s, ClaimFailure(s, err), f) && Seen(s, Closing.DoBeginShutdown(s), f)
  {
    hide Seen;
    SeenCloses(s, ClaimFailure(s, err), f);
    SeenCloses(s, Closing.DoBeginShutdown(s), f);
  }

  /** The publisher moves past a frame. */
  lemma SeenAdvance(s: State, pub: Publisher, f: RunId)
    requires f in s.slots && PublisherSeen(f, s.close.pub, pub, s.ev)
    ensures Seen(s, SetPublisher(s, pub), f)
  {
  }

  /** The publisher resolves another run's frame, or one that is nobody's. */
  lemma SeenPublish(s: State, p: Parked, pub: Publisher, ls: multiset<LeaseId>, f: RunId)
    requires f in s.slots && !Owns(s.ev, f, p.no) && s.close.pub.Draining? && pub.Draining?
    requires || (s.close.pub.pending != [] && p == s.close.pub.pending[0]
                 && pub == s.close.pub.(pending := s.close.pub.pending[1..]))
             || (s.close.pub.replay != [] && p == s.close.pub.replay[0]
                 && pub == s.close.pub.(replay := s.close.pub.replay[1..]))
    ensures var s1 := if p.no in s.ev.owner then Resolve(s, p, s.ev.owner[p.no]) else s;
            Seen(s, LetGo(SetPublisher(s1, pub), ls), f)
  {
    hide Seen, Resolve;
    var s1 := if p.no in s.ev.owner then Resolve(s, p, s.ev.owner[p.no]) else s;
    SeenApart(s, s, f);
    if p.no in s.ev.owner {
      SeenResolve(s, p, s.ev.owner[p.no], f);
      ResolveFrame(s, p, s.ev.owner[p.no]);
    }
    StillNotOurs(s, s1, f, p.no);
    SeenAdvance(s1, pub, f);
    SeenThen(s, s1, SetPublisher(s1, pub), f);
    SeenCloses(SetPublisher(s1, pub), LetGo(SetPublisher(s1, pub), ls), f);
    SeenThen(s, SetPublisher(s1, pub), LetGo(SetPublisher(s1, pub), ls), f);
  }

  lemma StillNotOurs(s: State, s1: State, f: RunId, no: nat)
    requires Seen(s, s1, f) && !Owns(s.ev, f, no)
    ensures !Open(s1.ev, f, no)
  {
    assert !Owns(s1.ev, f, no);
  }

  lemma SeenPublishFinish(s: State, f: RunId)
    requires f in s.slots && Closing.CanPublishFinish(s)
    ensures Seen(s, Closing.DoPublishFinish(s), f)
  {
    hide Seen, FinishRun;
    var s1 := FinishRun(s, s.close.pub.finishing[0], Cause(s), ByError);
    SeenFinish(s, s.close.pub.finishing[0], Cause(s), ByError, f);
    FinishFrame(s, s.close.pub.finishing[0], Cause(s), ByError);
    SeenInSlots(s, s1, f);
    SeenAdvance(s1, s.close.pub.(finishing := s.close.pub.finishing[1..]), f);
    SeenThen(s, s1, Closing.DoPublishFinish(s), f);
  }

  lemma SeenInSlots(s: State, s1: State, f: RunId)
    requires Seen(s, s1, f)
    ensures f in s1.slots
  {
  }

  lemma FinishFrame(s: State, r: RunId, err: Option<Err>, via: Via)
    ensures var t := FinishRun(s, r, err, via); t == s.(slots := t.slots, unreg := t.unreg)
  {
  }

  lemma SeenCloser(s: State, a: Closing.Action, f: RunId)
    requires Frozen.CloseInv(s) && f in s.slots && Closing.Enabled(s, a) && !a.Snapshot?
    requires a.PublishPending? ==> !Owns(s.ev, f, s.close.pub.pending[0].no)
    requires a.PublishReplay? ==> !Owns(s.ev, f, s.close.pub.replay[0].no)
    ensures Seen(s, Closing.Step(s, a), f)
  {
    hide Seen, FinishRun, Resolve, Release, Closing.DoSnapshot, Closing.CanSnapshot, Frozen.CloseInv;
    hide Closing.DoPublishFinish;
    match a
    case FailClient(err) => SeenClaimFailure(s, err, f);
    case BeginShutdown => SeenClaimFailure(s, ErrClientClosed, f);
    case Snapshot(_, _, _) =>
    case PublishPending =>
      var p := s.close.pub.pending[0];
      SeenPublish(s, p, s.close.pub.(pending := s.close.pub.pending[1..]), multiset{p.lease}, f);
    case PublishReplay =>
      var p := s.close.pub.replay[0];
      SeenPublish(s, p, s.close.pub.(replay := s.close.pub.replay[1..]), multiset{p.lease}, f);
    case PublishFinish => SeenPublishFinish(s, f);
    case PublishDone => SeenAdvance(s, Published, f);
    case DiscardQueued => SeenCloses(s, Closing.Step(s, a), f);
    case _ => SeenCloses(s, Closing.Step(s, a), f);
  }

  lemma SeenDispatcherCompletes(s: State, f: RunId)
    requires f in s.slots && Dispatch.CanDispatchComplete(s)
    ensures Seen(s, Dispatch.DoDispatchComplete(s), f)
  {
    hide Seen, FinishRun;
    var c := s.q.disp.completions[0];
    var s1 := FinishRun(s, c.run, c.err, ByDispatch(s.q.disp.e.frame));
    SeenFinish(s, c.run, c.err, ByDispatch(s.q.disp.e.frame), f);
    SeenInSlots(s, s1, f);
    SeenCloses(s1, Dispatch.DoDispatchComplete(s), f);
    SeenThen(s, s1, Dispatch.DoDispatchComplete(s), f);
  }

  lemma SeenDispatcher(s: State, a: Dispatch.Action, f: RunId)
    requires Frozen.CloseInv(s) && f in s.slots && Dispatch.Enabled(s, a)
    requires a.BeginStopping? && s.q.disp.Holding? ==> !Open(s.ev, f, s.q.disp.e.frame)
    ensures Seen(s, Dispatch.Step(s, a), f)
  {
    hide Seen, FinishRun, Frozen.CloseInv, Dispatch.DoDispatchComplete;
    match a
    case Complete => SeenDispatcherCompletes(s, f);
    case Claim =>
      SeenClaimFailure(s, s.q.disp.failed.value, f);
      SeenCloses(ClaimFailure(s, s.q.disp.failed.value), Dispatch.Step(s, a), f);
      SeenThen(s, ClaimFailure(s, s.q.disp.failed.value), Dispatch.Step(s, a), f);
    case BeginStopping => SeenStop(s, f);
    case _ => SeenCloses(s, Dispatch.Step(s, a), f);
  }

  lemma SeenStop(s: State, f: RunId)
    requires f in s.slots && Dispatch.CanBeginStopping(s)
    requires s.q.disp.Holding? ==> !Open(s.ev, f, s.q.disp.e.frame)
    ensures Seen(s, Dispatch.DoBeginStopping(s), f)
  {
    var ev := Dispatch.DoBeginStopping(s).ev;
    assert forall n :: (Owns(ev, f, n) <==> Owns(s.ev, f, n)) && (Open(ev, f, n) <==> Open(s.ev, f, n));
    hide Owns, Open, ParkedOf, OwnsArmed;
  }

  // ------------------------------------------------------ accepting one frame

  /** The run after accepting a frame, if it may. */
  function Taking(x: Slot, p: Parked): Slot {
    if Admissible(x.run, p.note) then x.(run := Accept(x.run, Frame(p.no, p.note), p.lease).0) else x
  }

  lemma TakesFrame(x: Slot, p: Parked)
    ensures var y := Taking(x, p);
            y == x.(run := y.run) && y.run.threadId == x.run.threadId && y.run.terminal == x.run.terminal
            && y.run.turnId == x.run.turnId && (x.run.terminalAdmitted ==> y.run.terminalAdmitted)
            && y.run.history == (if Admissible(x.run, p.note) then x.run.history + [Frame(p.no, p.note)]
                else x.run.history)
            && (Admissible(x.run, p.note) ==> y.run.terminalAdmitted == p.note.payload.TurnCompleted?)
            && (Admissible(x.run, p.note) ==> !x.run.terminal && !x.run.terminalAdmitted)
  {
  }

  /** What resolving does, slot by slot. */
  lemma ResolveShape(s: State, p: Parked, r: RunId)
    requires r in s.slots && p.no !in s.ev.ready
    ensures var s1 := Resolve(s, p, r);
            && s1.slots == s.slots[r := Taking(s.slots[r], p)]
            && s1.ev.owner == s.ev.owner && s1.ev.ready == s.ev.ready + {p.no}
            && s1.log == s.log && s1.reader == s.reader && s1.close == s.close && s1.reg == s.reg && s1.q == s.q
  {
    hide Retain, Admissible, Accept;
    assert s.slots[r := s.slots[r]] == s.slots;
  }

  lemma ResolveNoop(s: State, p: Parked, r: RunId)
    requires p.no in s.ev.ready
    ensures Resolve(s, p, r) == s
  {
  }

  /** What the reader's acceptance does. */
  lemma ReaderAcceptShape(s: State, bytes: nat)
    requires Reader.CanReaderAccept(s)
    ensures var s' := Reader.DoReaderAccept(s, bytes); var rd := s.reader; var r := rd.targets[0];
            && s'.log == s.log && s'.ev == s.ev && s'.close == s.close && s'.reg == s.reg
            && s'.reader.Routed? && s'.reader.frame == rd.frame && s'.reader.note == rd.note
                && s'.reader.targets == rd.targets[1..]
            && (rd.failed.Some? ==> s'.reader.failed.Some?)
            && (r !in s.slots ==> s'.slots == s.slots)
            && (r in s.slots ==>
                  || (s'.reader.failed.Some? && s'.slots == s.slots)
                  || exists l :: s'.slots == s.slots[r := Taking(s.slots[r], Parked(rd.frame, rd.note, l))])
  {
    hide Retain, Accept, Admissible;
    var rd := s.reader;
    var r := rd.targets[0];
    var s' := Reader.DoReaderAccept(s, bytes);
    if r in s.slots {
      assert s.slots[r := s.slots[r]] == s.slots;
      if !Admissible(s.slots[r].run, rd.note) {
        assert s'.slots == s.slots[r := Taking(s.slots[r], Parked(rd.frame, rd.note, 0))];
      } else if Reserve(s.mem.budget, 3, bytes).1.Some? {
        var l := Reserve(s.mem.budget, 3, bytes).1.value;
        assert s'.slots == s.slots[r := Taking(s.slots[r], Parked(rd.frame, rd.note, l))];
      }
    }
  }
}
