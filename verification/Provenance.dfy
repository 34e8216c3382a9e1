/** Every retained copy of a notification, wherever it is held, is the frame that
    was ingested at its position. */
module Provenance {
  import opened Wrappers
  import opened Attribution
  import opened Retention
  import opened ExactRun
  import opened ClientState
  import Reader
  import Starter
  import Closing
  import Dispatch
  import Client

  type Slots = map<RunId, Slot>

  predicate Genuine(log: seq<Note>, no: nat, note: Note) { no < |log| && log[no] == note }

  predicate TurnFrame(log: seq<Note>, p: Parked) { Genuine(log, p.no, p.note) && ClassOf(p.note).Turn? }

  /** Only thread-scoped frames wait for a thread to be attached. */
  predicate ThreadFrame(log: seq<Note>, p: Parked) { Genuine(log, p.no, p.note) && p.note.turnId == "" }

  ghost predicate TurnFrames(log: seq<Note>, list: seq<Parked>) { forall p <- list :: TurnFrame(log, p) }

  ghost predicate ThreadFrames(log: seq<Note>, list: seq<Parked>) { forall p <- list :: ThreadFrame(log, p) }

  ghost predicate HistoryOk(log: seq<Note>, history: seq<Frame>) { forall f <- history :: Genuine(log, f.no, f.note) }

  ghost predicate CallerOk(log: seq<Note>, c: Caller) {
    match c
    case RegReplay(list, _, _) => ThreadFrames(log, list)
    case Replay(list, _, _) => TurnFrames(log, list)
    case FinResolve(list, _) => TurnFrames(log, list)
    case FinComplete(list, _) => TurnFrames(log, list)
    case _ => true
  }

  ghost predicate SlotOk(log: seq<Note>, x: Slot) { HistoryOk(log, x.run.history) && CallerOk(log, x.caller) }

  ghost predicate SlotsOk(log: seq<Note>, slots: Slots) { forall r <- slots :: SlotOk(log, slots[r]) }

  ghost predicate PendOk(log: seq<Note>, pend: map<Id, seq<Parked>>) { forall t <- pend :: TurnFrames(log, pend[t]) }

  /** What waits for a thread names that thread and no turn. */
  ghost predicate ThreadPendOk(log: seq<Note>, pend: map<Id, seq<Parked>>) {
    forall t <- pend ::
      ThreadFrames(log, pend[t]) && forall p <- pend[t] :: ClassOf(p.note).Thread? && p.note.threadId == t
  }

  ghost predicate PublisherOk(log: seq<Note>, pub: Publisher) {
    pub.Draining? ==> TurnFrames(log, pub.pending) && TurnFrames(log, pub.replay)
  }

  /** The reader handles the frame it ingested last. */
  ghost predicate ReaderOk(log: seq<Note>, rd: ClientState.Reader) {
    && (rd.Routed? ==> rd.frame + 1 == |log| && log[rd.frame] == rd.note)
    && (rd.Rejecting? ==> rd.frame + 1 == |log|)
  }

  ghost predicate EvidenceOk(log: seq<Note>, ev: Evidence) {
    && (forall no <- ev.owner :: no < |log|)
    && ev.completion.Keys <= ev.ready
  }

  ghost predicate Parts(
    log: seq<Note>, slots: Slots, pend: map<Id, seq<Parked>>, threadPend: map<Id, seq<Parked>>,
    pub: Publisher, rd: ClientState.Reader, ev: Evidence)
  {
    && SlotsOk(log, slots) && PendOk(log, pend) && ThreadPendOk(log, threadPend)
    && PublisherOk(log, pub) && ReaderOk(log, rd) && EvidenceOk(log, ev)
  }

  ghost predicate ProvenanceInv(s: State) {
    Parts(s.log, s.slots, s.reg.pend, s.reg.threadPend, s.close.pub, s.reader, s.ev)
  }

  lemma Known(s: State)
    requires ProvenanceInv(s)
    ensures SlotsOk(s.log, s.slots) && PendOk(s.log, s.reg.pend) && ThreadPendOk(s.log, s.reg.threadPend)
    ensures PublisherOk(s.log, s.close.pub) && ReaderOk(s.log, s.reader) && EvidenceOk(s.log, s.ev)
  {
  }

  // ------------------------------------------------------------ shared steps

  lemma SlotChanges(s: State, r: RunId, x: Slot)
    requires ProvenanceInv(s) && SlotOk(s.log, x)
    ensures ProvenanceInv(s.(slots := s.slots[r := x]))
  {
    hide SlotOk, PendOk, ThreadPendOk, PublisherOk, ReaderOk, EvidenceOk;
  }

  lemma SlotAt(s: State, r: RunId)
    requires ProvenanceInv(s) && r in s.slots
    ensures SlotOk(s.log, s.slots[r])
  {
  }

  lemma FinishOk(s: State, r: RunId, err: Option<Err>, via: Via)
    requires ProvenanceInv(s)
    ensures ProvenanceInv(FinishRun(s, r, err, via))
  {
    hide Parts, HistoryOk, CallerOk;
    if r in s.slots && !s.slots[r].run.terminal {
      SlotAt(s, r);
      SlotChanges(s, r, FinishRun(s, r, err, via).slots[r]);
    }
  }

  lemma AcceptOk(s: State, r: RunId, p: Parked)
    requires ProvenanceInv(s) && Genuine(s.log, p.no, p.note)
    ensures ProvenanceInv(AcceptRetained(s, r, p).0)
  {
    hide Parts, CallerOk, Retain, Admissible;
    if r in s.slots && Admissible(s.slots[r].run, p.note) {
      SlotAt(s, r);
      SlotChanges(s, r, AcceptRetained(s, r, p).0.slots[r]);
    }
  }

  lemma ResolveOk(s: State, p: Parked, r: RunId)
    requires ProvenanceInv(s) && Genuine(s.log, p.no, p.note)
    ensures ProvenanceInv(Resolve(s, p, r))
  {
    hide AcceptRetained, SlotsOk, PendOk, ThreadPendOk, PublisherOk, ReaderOk;
    AcceptFrame(s, r, p);
    AcceptOk(s, r, p);
  }

  // ------------------------------------------------------------------- reader

  lemma LogGrows(s: State, note: Note)
    requires ProvenanceInv(s)
    ensures var log := s.log + [note];
            SlotsOk(log, s.slots) && PendOk(log, s.reg.pend) && ThreadPendOk(log, s.reg.threadPend)
            && PublisherOk(log, s.close.pub) && EvidenceOk(log, s.ev)
  {
    var log := s.log + [note];
    assert forall no, n :: Genuine(s.log, no, n) ==> Genuine(log, no, n);
    hide Genuine;
    forall list | TurnFrames(s.log, list) ensures TurnFrames(log, list) {}
    forall list | ThreadFrames(s.log, list) ensures ThreadFrames(log, list) {}
    forall h | HistoryOk(s.log, h) ensures HistoryOk(log, h) {}
    hide TurnFrames, ThreadFrames, HistoryOk;
  }

  lemma RouteOk(s: State, note: Note, order: seq<RunId>, bytes: nat)
    requires ProvenanceInv(s) && Reader.CanRoute(s, note, order)
    ensures ProvenanceInv(Reader.DoRoute(s, note, order, bytes))
  {
    LogGrows(s, note);
    hide Reserve, SlotsOk, PublisherOk, Parkable, Reader.CanRoute;
  }

  lemma ReaderAcceptOk(s: State, bytes: nat)
    requires ProvenanceInv(s) && Reader.CanReaderAccept(s)
    ensures ProvenanceInv(Reader.DoReaderAccept(s, bytes))
  {
    hide Reserve, AcceptRetained, SlotsOk, PendOk, ThreadPendOk, PublisherOk, EvidenceOk, Admissible;
    var rd := s.reader;
    var r := rd.targets[0];
    var l := Reserve(s.mem.budget, 3, bytes).1;
    if r in s.slots && Admissible(s.slots[r].run, rd.note) && l.Some? {
      var s1 := LetGo(s.(reader := rd.(targets := rd.targets[1..])), multiset{l.value});
      var s2 := s1.(mem := s1.mem.(budget := Reserve(s.mem.budget, 3, bytes).0));
      AcceptFrame(s2, r, Parked(rd.frame, rd.note, l.value));
      AcceptOk(s2, r, Parked(rd.frame, rd.note, l.value));
    }
  }

  lemma ArmTurnOk(s: State, r: RunId, turn: Id, bytes: nat)
    requires ProvenanceInv(s) && Reader.CanArmTurn(s, r, turn)
    ensures ProvenanceInv(Reader.DoArmTurn(s, r, turn, bytes))
  {
    hide Reserve, SlotsOk, SlotOk, PendOk, ThreadPendOk, PublisherOk, EvidenceOk, HistoryOk;
    SlotAt(s, r);
    var x := s.slots[r].(caller := Answered, arm := Some(Arm(turn, |s.log|, None)));
    AnsweredOk(s, s.slots[r], x);
    SlotChanges(s, r, x);
  }

  lemma AnsweredOk(s: State, x: Slot, y: Slot)
    requires SlotOk(s.log, x) && y.run == x.run && y.caller.Answered?
    ensures SlotOk(s.log, y)
  {
  }

  lemma RejectOk(s: State)
    requires ProvenanceInv(s) && Reader.CanReaderReject(s)
    ensures ProvenanceInv(Reader.DoReaderReject(s))
  {
    hide SlotsOk, PendOk, ThreadPendOk, PublisherOk;
  }

  lemma ReaderStepOk(s: State, a: Reader.Action)
    requires ProvenanceInv(s) && Reader.Enabled(s, a)
    ensures ProvenanceInv(Reader.Step(s, a))
  {
    hide Reserve, FinishRun, SlotsOk, PendOk, ThreadPendOk, TurnFrames, EvidenceOk;
    hide Reader.DoRoute, Reader.DoReaderAccept, Reader.CanRoute, Reader.CanReaderAccept, Reader.DoArmTurn;
    match a
    case ArmTurn(r, turn, bytes) => ArmTurnOk(s, r, turn, bytes);
    case Reject => RejectOk(s);
    case Route(note, order, bytes) => RouteOk(s, note, order, bytes);
    case Accept(bytes) => ReaderAcceptOk(s, bytes);
    case Complete =>
      if s.reader.inline != [] { FinishOk(s, s.reader.inline[0].run, s.reader.inline[0].err, ByReader); }
    case _ =>
  }

  // ----------------------------------------------------------------- starters

  lemma CallerMoves(s: State, r: RunId, x: Slot)
    requires ProvenanceInv(s) && r in s.slots && x.run.history == s.slots[r].run.history && CallerOk(s.log, x.caller)
    ensures ProvenanceInv(s.(slots := s.slots[r := x]))
  {
    hide Parts, HistoryOk, CallerOk;
    SlotAt(s, r);
    SlotChanges(s, r, x);
  }

  lemma RegisterOk(s: State, r: RunId)
    requires ProvenanceInv(s) && Starter.CanRegister(s, r)
    ensures ProvenanceInv(Starter.DoRegister(s, r))
  {
    hide SlotsOk, PendOk, PublisherOk, ReaderOk, EvidenceOk, ThreadFrames;
    var thread := s.slots[r].run.threadId;
    CallerMoves(s, r, s.slots[r].(caller := Refused(ErrClientClosed)));
    CallerMoves(s, r, s.slots[r].(caller := Refused(ErrConcurrentTurnStart)));
    assert ThreadFrames(s.log, []) by { NoFrames(s.log); }
    CallerMoves(s, r, s.slots[r].(caller := RegReplay(ListAt(s.reg.threadPend, thread), 0, None)));
  }

  lemma NoFrames(log: seq<Note>)
    ensures ThreadFrames(log, []) && TurnFrames(log, [])
  {
  }

  /** Registration replays frames that name no turn. */
  lemma ReplaysThread(s: State, r: RunId)
    requires ProvenanceInv(s) && Starter.CanRegisterAccept(s, r)
    ensures var p := s.slots[r].caller.list[s.slots[r].caller.regNext]; ThreadFrame(s.log, p) && p.note.turnId == ""
  {
    hide ProvenanceInv, HistoryOk;
    SlotAt(s, r);
  }

  lemma RegisterAcceptOk(s: State, r: RunId)
    requires ProvenanceInv(s) && Starter.CanRegisterAccept(s, r)
    ensures ProvenanceInv(Starter.DoRegisterAccept(s, r))
  {
    hide Parts, AcceptRetained;
    var c := s.slots[r].caller;
    SlotAt(s, r);
    assert ThreadFrame(s.log, c.list[c.regNext]);
    var (s1, done) := AcceptRetained(s, r, c.list[c.regNext]);
    AcceptFrame(s, r, c.list[c.regNext]);
    AcceptOk(s, r, c.list[c.regNext]);
    CallerMoves(s1, r, s1.slots[r].(caller := c.(regNext := c.regNext + 1, todo := done)));
  }

  lemma AttachPublishOk(s: State, r: RunId)
    requires ProvenanceInv(s) && Starter.CanAttachPublish(s, r)
    ensures ProvenanceInv(Starter.DoAttachPublish(s, r))
  {
    hide SlotsOk, ThreadPendOk, PublisherOk, ReaderOk, EvidenceOk, TurnFrames, Without, With;
    NoFrames(s.log);
    CallerMoves(s, r, Starter.DoAttachPublish(s, r).slots[r]);
  }

  lemma ListMoves(s: State, r: RunId, p: Parked, c: Caller)
    requires ProvenanceInv(s) && r in s.slots && Genuine(s.log, p.no, p.note) && CallerOk(s.log, c)
    ensures r in Resolve(s, p, r).slots && ProvenanceInv(SetCaller(Resolve(s, p, r), r, c))
  {
    hide Parts, Resolve, CallerOk;
    ResolveOk(s, p, r);
    ResolveFrame(s, p, r);
    var s1 := Resolve(s, p, r);
    CallerMoves(s1, r, s1.slots[r].(caller := c));
  }

  lemma {:induction false} MineGenuine(s: State, list: seq<Parked>, r: RunId)
    requires TurnFrames(s.log, list)
    ensures TurnFrames(s.log, Starter.Mine(s, list, r)) && TurnFrames(s.log, Starter.Kept(s, list, r))
    decreases |list|
  {
    if list == [] {
    } else {
      MineGenuine(s, list[..|list| - 1], r);
      hide TurnFrame;
    }
  }

  lemma FinishCollectOk(s: State, r: RunId)
    requires ProvenanceInv(s) && Starter.CanFinishCollect(s, r)
    ensures ProvenanceInv(Starter.DoFinishCollect(s, r))
  {
    hide SlotsOk, ThreadPendOk, PublisherOk, ReaderOk, EvidenceOk, TurnFrames, Without, Starter.Mine, Starter.Kept;
    NoFrames(s.log);
    var x := s.slots[r];
    if x.arm.Some? { MineGenuine(s, ListAt(s.reg.pend, x.arm.value.turn), r); }
    CallerMoves(s, r, Starter.DoFinishCollect(s, r).slots[r]);
  }

  lemma NextOk(s: State, r: RunId, c: Caller, no: nat, via: Via)
    requires ProvenanceInv(s) && r in s.slots && CallerOk(s.log, c)
    ensures ProvenanceInv(SetCaller(s, r, c))
    ensures no in s.ev.completion ==>
              ProvenanceInv(FinishRun(SetCaller(s, r, c), s.ev.completion[no].run, s.ev.completion[no].err, via))
  {
    hide Parts, CallerOk, FinishRun;
    CallerMoves(s, r, s.slots[r].(caller := c));
    if no in s.ev.completion { FinishOk(SetCaller(s, r, c), s.ev.completion[no].run, s.ev.completion[no].err, via); }
  }

  lemma StarterStepOk(s: State, r: RunId, a: Starter.Action)
    requires ProvenanceInv(s) && Starter.Enabled(s, r, a)
    ensures ProvenanceInv(Starter.Step(s, r, a))
  {
    hide Parts, FinishRun, Resolve, HistoryOk;
    hide Starter.DoRegister, Starter.DoRegisterAccept, Starter.DoAttachPublish, Starter.DoFinishCollect;
    hide Starter.CanRegisterAccept;
    if r in s.slots { SlotAt(s, r); }
    match a
    case CreateRun(thread) => CreateOk(s, r, thread);
    case Register => RegisterOk(s, r);
    case FinishRefused =>
      CallerMoves(s, r, s.slots[r].(caller := Over));
      FinishOk(SetCaller(s, r, Over), r, Some(s.slots[r].caller.refusal), ByError);
    case RegisterAccept => RegisterAcceptOk(s, r);
    case RegisterComplete =>
      var c := s.slots[r].caller;
      CallerMoves(s, r, s.slots[r].(caller := c.(todo := None)));
      FinishOk(SetCaller(s, r, c.(todo := None)), c.todo.value.run, c.todo.value.err, ByRegister);
    case RegisterDone => CallerMoves(s, r, s.slots[r].(caller := Calling));
    case AttachLock => CallerMoves(s, r, Starter.Step(s, r, a).slots[r]);
    case AttachPublish => AttachPublishOk(s, r);
    case AttachResolve =>
      var c := s.slots[r].caller;
      assert TurnFrame(s.log, c.list[c.next]);
      ListMoves(s, r, c.list[c.next], c.(resolved := true));
    case AttachNext =>
      var c := s.slots[r].caller;
      NextOk(s, r, c.(next := c.next + 1, resolved := false), c.list[c.next].no, ByReplay);
    case AttachDone => CallerMoves(s, r, Starter.Step(s, r, a).slots[r]);
    case FinishLock => CallerMoves(s, r, Starter.Step(s, r, a).slots[r]);
    case FinishCollect => FinishCollectOk(s, r);
    case FinishResolve =>
      var c := s.slots[r].caller;
      assert TurnFrame(s.log, c.list[c.finNext]);
      ListMoves(s, r, c.list[c.finNext], c.(finNext := c.finNext + 1));
    case FinishUnlock => CallerMoves(s, r, Starter.Step(s, r, a).slots[r]);
    case FinishComplete =>
      var c := s.slots[r].caller;
      NextOk(s, r, c.(doneNext := c.doneNext + 1), c.list[c.doneNext].no, ByFinish(c.list[c.doneNext].no));
    case FinishEnd(err) =>
      CallerMoves(s, r, s.slots[r].(caller := Over));
      FinishOk(LetGo(SetCaller(s, r, Over), ListLeases(s.slots[r].caller.list)), r, Some(err), ByError);
    case ExternalFinish(err) => FinishOk(s, r, Some(err), ByError);
    case Unregister => CallerMoves(s, r, Starter.Step(s, r, a).slots[r]);
    case Collect => CallerMoves(s, r, Starter.Step(s, r, a).slots[r]);
  }

  lemma CreateOk(s: State, r: RunId, thread: Id)
    requires ProvenanceInv(s) && Starter.CanCreateRun(s, r, thread)
    ensures ProvenanceInv(Starter.DoCreateRun(s, r, thread))
  {
    hide Parts;
    SlotChanges(s, r, Starter.DoCreateRun(s, r, thread).slots[r]);
  }

  // ------------------------------------------------- closing and the dispatcher

  lemma {:induction false} ConcatGenuine(log: seq<Note>, pend: map<Id, seq<Parked>>, keys: seq<Id>)
    requires PendOk(log, pend)
    ensures TurnFrames(log, Concat(pend, keys))
  {
    if keys == [] {
    } else {
      ConcatGenuine(log, pend, keys[1..]);
      hide TurnFrame;
    }
  }

  lemma {:induction false} ReplaysGenuine(log: seq<Note>, slots: Slots, rs: seq<RunId>)
    requires SlotsOk(log, slots)
    ensures TurnFrames(log, ConcatReplays(slots, rs))
  {
    if rs == [] {
    } else {
      ReplaysGenuine(log, slots, rs[1..]);
      assert rs[0] in slots ==> SlotOk(log, slots[rs[0]]);
      hide TurnFrame;
    }
  }

  lemma SnapshotOk(s: State, turns: seq<Id>, runs: seq<RunId>, finishing: seq<RunId>)
    requires ProvenanceInv(s) && Closing.CanSnapshot(s, turns, runs, finishing)
    ensures ProvenanceInv(Closing.DoSnapshot(s, turns, runs, finishing))
  {
    hide Concat, ConcatReplays, RetainAll, Leases, TurnFrames, ThreadFrames, HistoryOk, CallerOk;
    hide Closing.Overtakes, Closing.CanSnapshot, ReaderOk, EvidenceOk;
    ConcatGenuine(s.log, s.reg.pend, turns);
    ReplaysGenuine(s.log, s.slots, runs);
    assert SlotsOk(s.log, Closing.MarkAll(s.slots));
    hide SlotsOk, Closing.MarkAll;
  }

  lemma PublishOk(s: State, p: Parked, pub: Publisher)
    requires ProvenanceInv(s) && Genuine(s.log, p.no, p.note) && PublisherOk(s.log, pub)
    ensures ProvenanceInv(SetPublisher(if p.no in s.ev.owner then Resolve(s, p, s.ev.owner[p.no]) else s, pub))
  {
    hide Resolve, SlotsOk, PendOk, ThreadPendOk, PublisherOk, ReaderOk, EvidenceOk;
    if p.no in s.ev.owner {
      ResolveOk(s, p, s.ev.owner[p.no]);
      ResolveFrame(s, p, s.ev.owner[p.no]);
    }
  }

  lemma CloserStepOk(s: State, a: Closing.Action)
    requires ProvenanceInv(s) && Closing.Enabled(s, a)
    ensures ProvenanceInv(Closing.Step(s, a))
  {
    hide FinishRun, Resolve, Release, SlotsOk, PendOk, ThreadPendOk, ReaderOk;
    hide Closing.CanSnapshot, Closing.DoSnapshot;
    match a
    case Snapshot(turns, runs, finishing) => SnapshotOk(s, turns, runs, finishing);
    case PublishPending =>
      assert TurnFrame(s.log, s.close.pub.pending[0]);
      PublishOk(s, s.close.pub.pending[0], s.close.pub.(pending := s.close.pub.pending[1..]));
    case PublishReplay =>
      assert TurnFrame(s.log, s.close.pub.replay[0]);
      PublishOk(s, s.close.pub.replay[0], s.close.pub.(replay := s.close.pub.replay[1..]));
    case PublishFinish => FinishOk(s, s.close.pub.finishing[0], Cause(s), ByError);
    case _ =>
  }

  lemma DispatcherStepOk(s: State, a: Dispatch.Action)
    requires ProvenanceInv(s) && Dispatch.Enabled(s, a)
    ensures ProvenanceInv(Dispatch.Step(s, a))
  {
    hide FinishRun, SlotsOk, PendOk, ThreadPendOk, ReaderOk;
    match a
    case Complete =>
      var c := s.q.disp.completions[0];
      FinishOk(s, c.run, c.err, ByDispatch(s.q.disp.e.frame));
    case _ =>
  }

  // --------------------------------------------------------------- whole runs

  lemma {:induction false} AlwaysGenuine(states: seq<State>, actions: seq<Client.Action>, i: nat)
    requires Client.IsRun(states, actions) && i < |states|
    ensures ProvenanceInv(states[i])
  {
    hide Parts;
    hide Reader.Enabled, Reader.Step, Starter.Enabled, Starter.Step;
    hide Closing.Enabled, Closing.Step, Dispatch.Enabled, Dispatch.Step;
    if i == 0 {
      InitGenuine(states[0]);
    } else {
      var s := states[i - 1];
      AlwaysGenuine(states, actions, i - 1);
      match actions[i - 1]
      case ByReader(a) => ReaderStepOk(s, a);
      case ByStarter(r, a) => StarterStepOk(s, r, a);
      case ByCloser(a) => CloserStepOk(s, a);
      case ByDispatcher(a) => DispatcherStepOk(s, a);
    }
  }

  lemma InitGenuine(s: State)
    requires Client.IsInit(s)
    ensures ProvenanceInv(s)
  {
  }
}
