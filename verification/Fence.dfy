/** The terminal fence: with callbacks configured, a run completes without error
    only after every entry admitted up to its terminal frame had its callback
    return successfully, on the live, the parked and the finishing path alike. */
module Fence {
  import opened Wrappers
  import opened Attribution
  import opened Retention
  import opened ExactRun
  import opened ClientState
  import opened Phases
  import opened Fifo
  import opened Replay
  import Reader
  import Starter
  import Closing
  import Dispatch
  import Client
  import Frozen
  import Provenance

  /** Every entry admitted up to frame `f` had its callback return successfully. */
  ghost predicate DeliveredThrough(q: Queue, f: nat) {
    f in q.entryOf && forall n: nat :: n <= q.entryOf[f] ==> n in q.delivered
  }

  predicate EndsCompleted(run: Run) {
    run.history != [] && LastFrame(run).note.payload.TurnCompleted? && LastFrame(run).note.payload.status.Completed?
  }

  /** The one unfenced path completes while a run registers, from a parked frame
      that names no turn. */
  ghost predicate Fenced(x: Slot, q: Queue) {
    x.run.terminal && x.run.err.None? ==>
      && EndsCompleted(x.run)
      && ((x.via.ByRegister? && LastFrame(x.run).note.turnId == "") || DeliveredThrough(q, LastFrame(x.run).no))
  }

  ghost predicate FencesHold(slots: Slots, q: Queue) { forall r <- slots :: Fenced(slots[r], q) }

  /** The completion of a frame replayed by registration. */
  ghost predicate ThreadEnded(slots: Slots, c: Completion) {
    && c.run in slots && slots[c.run].run.terminalAdmitted && slots[c.run].run.history != []
    && var last := LastFrame(slots[c.run].run);
       last.note.turnId == "" && last.note.payload.TurnCompleted? && c.err == TerminalError(last.note.payload.status)
  }

  ghost predicate TodosEnded(slots: Slots) {
    forall r <- slots :: HasTodo(slots[r]) ==> ThreadEnded(slots, slots[r].caller.todo.value)
  }

  /** With callbacks the reader completes nothing itself. */
  predicate ReaderDefers(rd: ClientState.Reader) {
    (rd.Rejecting? ==> rd.rest == []) && (rd.Completing? ==> rd.inline == [])
  }

  ghost predicate FenceInv(s: State) {
    s.cfg.handler ==> FencesHold(s.slots, s.q) && TodosEnded(s.slots) && ReaderDefers(s.reader)
  }

  // ------------------------------------------------------------ shared steps

  /** Nobody becomes terminal and no registration completion appears. */
  ghost predicate Quiet(a: Slots, b: Slots) {
    forall r <- b ::
      && (b[r].run.terminal ==> r in a && a[r].run.terminal)
      && (HasTodo(b[r]) ==> r in a && HasTodo(a[r]) && a[r].caller.todo == b[r].caller.todo)
  }

  lemma QuietSame(a: Slots)
    ensures Quiet(a, a)
  {
  }

  lemma QuietOne(a: Slots, r: RunId, x: Slot)
    requires x.run.terminal ==> r in a && a[r].run.terminal
    requires HasTodo(x) ==> r in a && HasTodo(a[r]) && a[r].caller.todo == x.caller.todo
    ensures Quiet(a, a[r := x])
  {
  }

  lemma QuietThen(a: Slots, b: Slots, c: Slots)
    requires Quiet(a, b) && Quiet(b, c)
    ensures Quiet(a, c)
  {
  }

  lemma FencesStay(a: Slots, p: Queue, b: Slots, q: Queue, cause: Option<Err>)
    requires FencesHold(a, p) && TodosEnded(a) && Frozen.SlotsEvolve(a, b, cause) && Quiet(a, b) && QueueEvolves(p, q)
    ensures FencesHold(b, q) && TodosEnded(b)
  {
    forall r <- b ensures Fenced(b[r], q) {
      if b[r].run.terminal {
        assert Frozen.SlotEvolves(a[r], b[r], cause) && Fenced(a[r], p);
      }
    }
    forall r <- b | HasTodo(b[r]) ensures ThreadEnded(b, b[r].caller.todo.value) {
      var c := b[r].caller.todo.value;
      assert ThreadEnded(a, c);
      assert Frozen.SlotEvolves(a[c.run], b[c.run], cause);
    }
  }

  lemma Carry(s: State, s': State)
    requires FenceInv(s) && Frozen.RunsEvolve(s, s') && Quiet(s.slots, s'.slots) && QueueEvolves(s.q, s'.q)
    requires s'.cfg == s.cfg && (s.cfg.handler ==> ReaderDefers(s'.reader))
    ensures FenceInv(s')
  {
    hide Frozen.SlotsEvolve, Quiet, QueueEvolves, FencesHold, TodosEnded;
    if s.cfg.handler { FencesStay(s.slots, s.q, s'.slots, s'.q, s.close.reason); }
  }

  /** A run finishes: it has to be fenced unless it ends with an error. */
  lemma FinishFenced(s: State, r: RunId, err: Option<Err>, via: Via)
    requires FenceInv(s)
    requires s.cfg.handler && r in s.slots && !s.slots[r].run.terminal && Cause(s).None? && err.None? ==>
               Fenced(s.slots[r].(run := Finish(s.slots[r].run, None, None), via := via), s.q)
    ensures FenceInv(FinishRun(s, r, err, via))
  {
    hide DeliveredThrough, EndsCompleted;
    if s.cfg.handler && r in s.slots && !s.slots[r].run.terminal {
      var s' := FinishRun(s, r, err, via);
      assert FencesHold(s'.slots, s.q);
      FinishTodos(s.slots, r, s'.slots[r]);
    }
  }

  lemma FinishTodos(slots: Slots, r: RunId, x: Slot)
    requires TodosEnded(slots) && r in slots && x.caller == slots[r].caller
    requires x.run == slots[r].run.(terminal := x.run.terminal, err := x.run.err)
    ensures TodosEnded(slots[r := x])
  {
  }

  // ------------------------------------------------------- the fenced paths

  /** While the client is open, an entry whose callbacks returned has every earlier
      entry's callbacks behind it. */
  lemma DeliveredInOrder(s: State, n: nat)
    requires QueueInv(s) && !s.close.closed && n in s.q.delivered
    ensures forall m: nat :: m <= n ==> m in s.q.delivered
  {
    hide Numbered, EntriesOk, ReaderOwns, ReleasesOk;
    forall m: nat | m <= n ensures m in s.q.delivered {
      assert n < Taken(s.q) && m < Taken(s.q);
      assert m !in s.q.discarded;
    }
  }

  /** Completion by the dispatcher, live or for parked evidence. */
  lemma DispatchFenced(s: State, c: Completion)
    requires QueueInv(s) && !s.close.closed && s.q.disp.Delivered? && Owed(s.slots, c, s.q.disp.e.frame) && c.err.None?
    ensures EndsCompleted(s.slots[c.run].run)
    ensures DeliveredThrough(s.q, LastFrame(s.slots[c.run].run).no)
  {
    hide Numbered, WorkExact, OnlyWhenClosed, ReaderOwns, ReleasesOk;
    assert s.q.disp.e.no in s.q.delivered && EntryOk(s.q.disp.e, s.q, s.ev.owner);
    hide Accounted, EntriesOk;
    DeliveredInOrder(s, s.q.disp.e.no);
  }

  /** Completion by finishing without attachment, which waits for the frame's
      dispatch channel. */
  lemma ReleaseFenced(s: State, no: nat, c: Completion)
    requires QueueInv(s) && !s.close.closed && no in s.ev.released && Owed(s.slots, c, no) && c.err.None?
    ensures EndsCompleted(s.slots[c.run].run)
    ensures DeliveredThrough(s.q, LastFrame(s.slots[c.run].run).no)
  {
    hide Numbered, WorkExact, Accounted, EntriesOk, ReaderOwns;
    assert Settled(s.q, no) && s.q.discarded == {};
    hide OnlyWhenClosed, ReleasesOk;
    DeliveredInOrder(s, s.q.entryOf[no]);
  }

  // --------------------------------------------------------------- every step

  lemma AcceptQuiet(s: State, r: RunId, p: Parked)
    ensures Quiet(s.slots, AcceptRetained(s, r, p).0.slots)
  {
    hide Quiet;
    QuietSame(s.slots);
    if r in s.slots { QuietOne(s.slots, r, AcceptRetained(s, r, p).0.slots[r]); }
  }

  lemma ResolveQuiet(s: State, p: Parked, r: RunId)
    ensures Quiet(s.slots, Resolve(s, p, r).slots)
  {
    hide Quiet, AcceptRetained;
    QuietSame(s.slots);
    AcceptQuiet(s, r, p);
  }

  lemma ReaderQuiet(s: State, a: Reader.Action)
    requires s.cfg.handler && ReaderDefers(s.reader) && Reader.Enabled(s, a)
    ensures var s' := Reader.Step(s, a); Quiet(s.slots, s'.slots) && ReaderDefers(s'.reader) && s'.cfg == s.cfg
  {
    hide Quiet, Reserve, AcceptRetained, Admissible, Parkable, Reader.CanRoute;
    QuietSame(s.slots);
    match a
    case ArmTurn(r, turn, bytes) =>
      QuietOne(s.slots, r, s.slots[r].(caller := Answered, arm := Some(Arm(turn, |s.log|, None))));
    case Accept(bytes) =>
      var rd := s.reader;
      var l := Reserve(s.mem.budget, 3, bytes).1;
      if l.Some? {
        var s1 := LetGo(s.(reader := rd.(targets := rd.targets[1..])), multiset{l.value});
        var s2 := s1.(mem := s1.mem.(budget := Reserve(s.mem.budget, 3, bytes).0));
        AcceptFrame(s2, rd.targets[0], Parked(rd.frame, rd.note, l.value));
        AcceptQuiet(s2, rd.targets[0], Parked(rd.frame, rd.note, l.value));
      }
    case _ =>
  }

  lemma ReaderFence(s: State, a: Reader.Action)
    requires FenceInv(s) && QueueInv(s) && Frozen.CloseInv(s) && Provenance.ReaderOk(s.log, s.reader)
    requires Reader.Enabled(s, a)
    ensures FenceInv(Reader.Step(s, a))
  {
    hide FencesHold, TodosEnded, Quiet, QueueInv, QueueEvolves, Frozen.CloseInv, Frozen.RunsEvolve;
    Frozen.ReaderSteps(s, a);
    ReaderQueueEvolves(s, a);
    ReaderKeepsConfig(s, a);
    if s.cfg.handler {
      ReaderQuiet(s, a);
      hide Reader.Step, Reader.Enabled;
      Carry(s, Reader.Step(s, a));
    }
  }

  lemma ReaderKeepsConfig(s: State, a: Reader.Action)
    requires Reader.Enabled(s, a)
    ensures Reader.Step(s, a).cfg == s.cfg
  {
    hide Reserve, Admissible, Parkable, Reader.CanRoute;
  }

  lemma StarterQuiet(s: State, r: RunId, a: Starter.Action)
    requires Starter.Enabled(s, r, a)
    requires a.CreateRun? || a.RegisterDone? || a.AttachLock? || a.AttachResolve? || a.AttachDone?
          || a.FinishLock? || a.FinishResolve? || a.FinishUnlock? || a.Collect?
    ensures Quiet(s.slots, Starter.Step(s, r, a).slots)
  {
    hide Quiet, Resolve, ListLeases;
    match a
    case AttachResolve => ResolveThenQuiet(s, s.slots[r].caller.list[s.slots[r].caller.next], r,
        s.slots[r].caller.(resolved := true));
    case FinishResolve =>
      var c := s.slots[r].caller;
      ResolveThenQuiet(s, c.list[c.finNext], r, c.(finNext := c.finNext + 1));
    case CreateRun(_) => QuietOne(s.slots, r, Starter.Step(s, r, a).slots[r]);
    case RegisterDone => QuietOne(s.slots, r, Starter.Step(s, r, a).slots[r]);
    case AttachLock => QuietOne(s.slots, r, Starter.Step(s, r, a).slots[r]);
    case AttachDone => QuietOne(s.slots, r, Starter.Step(s, r, a).slots[r]);
    case FinishLock => QuietOne(s.slots, r, Starter.Step(s, r, a).slots[r]);
    case FinishUnlock => QuietOne(s.slots, r, Starter.Step(s, r, a).slots[r]);
    case Collect => QuietOne(s.slots, r, Starter.Step(s, r, a).slots[r]);
    case _ =>
  }

  lemma ResolveThenQuiet(s: State, p: Parked, r: RunId, c: Caller)
    requires r in s.slots && !c.RegReplay?
    ensures r in Resolve(s, p, r).slots && Quiet(s.slots, SetCaller(Resolve(s, p, r), r, c).slots)
  {
    hide Quiet, Resolve;
    ResolveFrame(s, p, r);
    ResolveQuiet(s, p, r);
    var s1 := Resolve(s, p, r);
    QuietOne(s1.slots, r, s1.slots[r].(caller := c));
    QuietThen(s.slots, s1.slots, SetCaller(s1, r, c).slots);
  }

  lemma RegistryQuiet(s: State, r: RunId, a: Starter.Action)
    requires Starter.Enabled(s, r, a) && (a.AttachPublish? || a.FinishCollect? || a.Unregister?)
    ensures Quiet(s.slots, Starter.Step(s, r, a).slots)
  {
    hide Quiet, Without, With, Starter.Mine, Starter.KeepOthers;
    QuietOne(s.slots, r, Starter.Step(s, r, a).slots[r]);
  }

  /** A starter moves on; no run is touched. */
  lemma CallerFence(s: State, r: RunId, c: Caller, ls: multiset<LeaseId>)
    requires FenceInv(s) && r in s.slots
    requires c.RegReplay? && c.todo.Some? ==> s.slots[r].caller.RegReplay? && s.slots[r].caller.todo == c.todo
    ensures FenceInv(SetCaller(s, r, c)) && FenceInv(LetGo(SetCaller(s, r, c), ls))
  {
    hide FencesHold, TodosEnded, Quiet, QueueEvolves, Frozen.SlotsEvolve;
    var x := s.slots[r].(caller := c);
    QuietOne(s.slots, r, x);
    Frozen.CallerEvolves(s, r, x);
    assert QueueEvolves(s.q, s.q) by { SameQueue(s.q); }
    Carry(s, SetCaller(s, r, c));
    Carry(s, LetGo(SetCaller(s, r, c), ls));
  }

  lemma SameQueue(q: Queue)
    ensures QueueEvolves(q, q)
  {
  }

  lemma RegisterFence(s: State, r: RunId)
    requires FenceInv(s) && Starter.CanRegister(s, r)
    ensures FenceInv(Starter.DoRegister(s, r))
  {
    hide FencesHold, TodosEnded, Fenced;
    CallerFence(s, r, Refused(ErrClientClosed), multiset{});
    CallerFence(s, r, Refused(ErrConcurrentTurnStart), multiset{});
    CallerFence(s, r, RegReplay(ListAt(s.reg.threadPend, s.slots[r].run.threadId), 0, None), multiset{});
  }

  /** Registration replays thread frames only. */
  lemma RegisterAcceptFence(s: State, r: RunId)
    requires FenceInv(s) && PhaseInv(s) && Provenance.ProvenanceInv(s) && Starter.CanRegisterAccept(s, r)
    ensures FenceInv(Starter.DoRegisterAccept(s, r))
  {
    hide PhaseInv, Provenance.ProvenanceInv, Provenance.SlotOk, AcceptRetained;
    hide FencesHold, TodosEnded, Quiet, QueueEvolves, Frozen.SlotsEvolve;
    var c := s.slots[r].caller;
    var p := c.list[c.regNext];
    assert Provenance.ThreadFrame(s.log, p) by { Provenance.ReplaysThread(s, r); }
    var (s1, done) := AcceptRetained(s, r, p);
    AcceptEnds(s, r, p);
    AcceptFrame(s, r, p);
    AcceptQuiet(s, r, p);
    Frozen.AcceptEvolves(s, r, p);
    SameQueue(s.q);
    Carry(s, s1);
    var c' := c.(regNext := c.regNext + 1, todo := done);
    if done.None? {
      CallerFence(s1, r, c', multiset{});
    } else {
      TodoFence(s1, r, c');
    }
  }

  lemma AcceptEnds(s: State, r: RunId, p: Parked)
    requires p.note.turnId == ""
    ensures var (s1, done) := AcceptRetained(s, r, p); done.Some? ==> ThreadEnded(s1.slots, done.value)
  {
  }

  lemma TodoFence(s: State, r: RunId, c: Caller)
    requires FenceInv(s) && r in s.slots && c.RegReplay? && c.todo.Some? && ThreadEnded(s.slots, c.todo.value)
    ensures FenceInv(SetCaller(s, r, c))
  {
    forall q <- s.slots | ThreadEndedAt(s.slots, q)
        ensures ThreadEnded(SetCaller(s, r, c).slots, s.slots[q].caller.todo.value) {}
  }

  ghost predicate ThreadEndedAt(slots: Slots, r: RunId) {
    r in slots && HasTodo(slots[r]) && ThreadEnded(slots, slots[r].caller.todo.value)
  }

  lemma RegisterCompleteFence(s: State, r: RunId)
    requires FenceInv(s) && Starter.CanRegisterComplete(s, r)
    ensures FenceInv(Starter.DoRegisterComplete(s, r))
  {
    hide FencesHold, FinishRun;
    var c := s.slots[r].caller;
    var done := c.todo.value;
    var s1 := SetCaller(s, r, c.(todo := None));
    CallerFence(s, r, c.(todo := None), multiset{});
    assert s.cfg.handler ==> ThreadEnded(s.slots, done);
    FinishFenced(s1, done.run, done.err, ByRegister);
  }

  lemma CompletionOwed(s: State, no: nat)
    requires PhaseInv(s) && no in s.ev.completion
    ensures Owed(s.slots, s.ev.completion[no], no)
  {
  }

  lemma OpenUntilCaused(s: State)
    requires Frozen.CloseInv(s) && Cause(s).None?
    ensures !s.close.closed && !s.close.pub.Published?
  {
  }

  lemma FinishCompleteFence(s: State, r: RunId)
    requires FenceInv(s) && PhaseInv(s) && QueueInv(s) && Frozen.CloseInv(s) && Starter.CanFinishComplete(s, r)
    ensures FenceInv(Starter.DoFinishComplete(s, r))
  {
    hide FenceInv, FinishRun, PhaseInv, QueueInv, Frozen.CloseInv, Owed, DeliveredThrough, Cause;
    var c := s.slots[r].caller;
    var no := c.list[c.doneNext].no;
    var c' := c.(doneNext := c.doneNext + 1);
    var s1 := SetCaller(s, r, c');
    CallerFence(s, r, c', multiset{});
    if no in s.ev.completion {
      var done := s.ev.completion[no];
      CompletionOwed(s, no);
      assert Cause(s1) == Cause(s) by { SameCause(s, s1); }
      if s.cfg.handler && Cause(s).None? && done.err.None? {
        OpenUntilCaused(s);
        ReleaseFenced(s, no, done);
      }
      FinishFenced(s1, done.run, done.err, ByFinish(no));
    }
  }

  lemma SameCause(a: State, b: State)
    requires a.close == b.close
    ensures Cause(a) == Cause(b)
  {
  }

  lemma AttachNextFence(s: State, r: RunId)
    requires FenceInv(s) && Starter.CanAttachNext(s, r)
    ensures FenceInv(Starter.DoAttachNext(s, r))
  {
    hide FencesHold, TodosEnded;
    var c := s.slots[r].caller;
    CallerFence(s, r, c.(next := c.next + 1, resolved := false), multiset{});
  }

  lemma StarterFence(s: State, r: RunId, a: Starter.Action)
    requires FenceInv(s) && PhaseInv(s) && QueueInv(s) && Frozen.CloseInv(s) && Provenance.ProvenanceInv(s)
    requires Starter.Enabled(s, r, a)
    ensures FenceInv(Starter.Step(s, r, a))
  {
    hide PhaseInv, QueueInv, Provenance.ProvenanceInv, Frozen.CloseInv, Frozen.RunsEvolve;
    hide FencesHold, TodosEnded, Quiet, QueueEvolves, FinishRun;
    StarterFrame(s, r, a);
    Frozen.StarterSteps(s, r, a);
    SameQueue(s.q);
    match a
    case Register => RegisterFence(s, r);
    case FinishRefused =>
      CallerFence(s, r, Over, multiset{});
      FinishFenced(SetCaller(s, r, Over), r, Some(s.slots[r].caller.refusal), ByError);
    case RegisterAccept => RegisterAcceptFence(s, r);
    case RegisterComplete => RegisterCompleteFence(s, r);
    case AttachNext => AttachNextFence(s, r);
    case FinishComplete => FinishCompleteFence(s, r);
    case FinishEnd(err) =>
      CallerFence(s, r, Over, ListLeases(s.slots[r].caller.list));
      FinishFenced(LetGo(SetCaller(s, r, Over), ListLeases(s.slots[r].caller.list)), r, Some(err), ByError);
    case ExternalFinish(err) => FinishFenced(s, r, Some(err), ByError);
    case AttachPublish => RegistryQuiet(s, r, a); Carry(s, Starter.Step(s, r, a));
    case FinishCollect => RegistryQuiet(s, r, a); Carry(s, Starter.Step(s, r, a));
    case Unregister => RegistryQuiet(s, r, a); Carry(s, Starter.Step(s, r, a));
    case _ => StarterQuiet(s, r, a); Carry(s, Starter.Step(s, r, a));
  }

  // ------------------------------------------------- closing and the dispatcher

  lemma SnapshotQuiet(slots: Slots)
    ensures Quiet(slots, Closing.MarkAll(slots))
  {
  }

  lemma CloserFence(s: State, a: Closing.Action)
    requires FenceInv(s) && QueueInv(s) && Frozen.CloseInv(s) && Closing.Enabled(s, a)
    ensures FenceInv(Closing.Step(s, a))
  {
    hide QueueInv, FencesHold, TodosEnded, Quiet, QueueEvolves, FinishRun, Resolve, Closing.MarkAll, Release;
    hide Closing.CanSnapshot, Concat, ConcatReplays, RetainAll, Closing.Overtakes, Fenced, Frozen.SlotsEvolve;
    Frozen.CloserSteps(s, a);
    CloserQueueEvolves(s, a);
    QuietSame(s.slots);
    match a
    case PublishFinish => FinishFenced(s, s.close.pub.finishing[0], Cause(s), ByError);
    case Snapshot(_, _, _) =>
      SnapshotQuiet(s.slots);
      Carry(s, Closing.Step(s, a));
    case PublishPending =>
      var p := s.close.pub.pending[0];
      if p.no in s.ev.owner { ResolveFrame(s, p, s.ev.owner[p.no]); ResolveQuiet(s, p, s.ev.owner[p.no]); }
      Carry(s, Closing.Step(s, a));
    case PublishReplay =>
      var p := s.close.pub.replay[0];
      if p.no in s.ev.owner { ResolveFrame(s, p, s.ev.owner[p.no]); ResolveQuiet(s, p, s.ev.owner[p.no]); }
      Carry(s, Closing.Step(s, a));
    case _ => Carry(s, Closing.Step(s, a));
  }

  lemma DispatchCompleteFence(s: State)
    requires FenceInv(s) && PhaseInv(s) && QueueInv(s) && Frozen.CloseInv(s) && Dispatch.CanDispatchComplete(s)
    ensures FenceInv(Dispatch.DoDispatchComplete(s))
  {
    Phases.Known(s);
    hide FencesHold, FinishRun, PhaseInv, QueueInv, TodosEnded, Owed, EndsCompleted, DeliveredThrough;
    hide AllPhased, RegistryBegun, ReaderOwed, EntriesOwed, EvidenceOwed, CallersOwed, UnregisteredOwed, PublisherOwed;
    var c := s.q.disp.completions[0];
    assert Owed(s.slots, c, s.q.disp.e.frame);
    if Cause(s).None? && c.err.None? { DispatchFenced(s, c); }
    FinishFenced(s, c.run, c.err, ByDispatch(s.q.disp.e.frame));
    var s1 := FinishRun(s, c.run, c.err, ByDispatch(s.q.disp.e.frame));
    DispatcherMoves(s1, s.q.disp.(completions := s.q.disp.completions[1..]));
  }

  lemma DispatcherMoves(s: State, d: Dispatcher)
    requires FenceInv(s)
    ensures FenceInv(SetDispatcher(s, d))
  {
    hide FencesHold;
    if s.cfg.handler { SameFences(s.slots, s.q, s.q.(disp := d)); }
  }

  lemma SameFences(slots: Slots, p: Queue, q: Queue)
    requires FencesHold(slots, p) && p.delivered == q.delivered && p.entryOf == q.entryOf
    ensures FencesHold(slots, q)
  {
    forall r <- slots ensures Fenced(slots[r], q) {
      assert Fenced(slots[r], p);
    }
  }

  lemma DispatcherFence(s: State, a: Dispatch.Action)
    requires FenceInv(s) && PhaseInv(s) && QueueInv(s) && Frozen.CloseInv(s) && Dispatch.Enabled(s, a)
    ensures FenceInv(Dispatch.Step(s, a))
  {
    hide PhaseInv, QueueInv, FencesHold, TodosEnded, Quiet, QueueEvolves, FinishRun, Frozen.SlotsEvolve;
    Frozen.DispatcherSteps(s, a);
    DispatcherQueueEvolves(s, a);
    QuietSame(s.slots);
    match a
    case Complete => DispatchCompleteFence(s);
    case _ => Carry(s, Dispatch.Step(s, a));
  }

  // --------------------------------------------------------------- whole runs

  lemma {:induction false} AlwaysFenced(states: seq<State>, actions: seq<Client.Action>, i: nat)
    requires Client.IsRun(states, actions) && i < |states|
    ensures FenceInv(states[i])
  {
    hide FenceInv, PhaseInv, QueueInv, Frozen.CloseInv, Provenance.ProvenanceInv;
    hide Reader.Enabled, Reader.Step, Starter.Enabled, Starter.Step;
    hide Closing.Enabled, Closing.Step, Dispatch.Enabled, Dispatch.Step;
    if i == 0 {
      InitFenced(states[0]);
    } else {
      var s := states[i - 1];
      AlwaysFenced(states, actions, i - 1);
      AlwaysPhased(states, actions, i - 1);
      AlwaysAccounted(states, actions, i - 1);
      Frozen.CauseIffClosed(states, actions, i - 1);
      Provenance.AlwaysGenuine(states, actions, i - 1);
      Provenance.Known(s);
      match actions[i - 1]
      case ByReader(a) => ReaderFence(s, a);
      case ByStarter(r, a) => StarterFence(s, r, a);
      case ByCloser(a) => CloserFence(s, a);
      case ByDispatcher(a) => DispatcherFence(s, a);
    }
  }

  lemma InitFenced(s: State)
    requires Client.IsInit(s)
    ensures FenceInv(s)
  {
  }

  /** The terminal fence. A run that is terminal without error ended on an accepted
      completed turn, and every entry admitted up to that frame had its callback
      return successfully, unless the frame named no turn and had been parked for
      the run's thread before the run registered. */
  lemma TerminalFence(states: seq<State>, actions: seq<Client.Action>, i: nat, r: RunId)
    requires Client.IsRun(states, actions) && i < |states| && r in states[i].slots && states[i].cfg.handler
    requires states[i].slots[r].run.terminal && states[i].slots[r].run.err.None?
    ensures EndsCompleted(states[i].slots[r].run)
    ensures var run := states[i].slots[r].run;
            || DeliveredThrough(states[i].q, LastFrame(run).no)
            || (LastFrame(run).note.turnId == ""
                && exists j :: 0 <= j <= i && ThreadParked(states[j], run.threadId, LastFrame(run).no))
  {
    hide Client.IsRun, EndsCompleted, DeliveredThrough, ThreadParked;
    AlwaysFenced(states, actions, i);
    assert Fenced(states[i].slots[r], states[i].q);
    AlwaysTraced(states, actions, i, r);
  }

  /** When every ingested turn/completed names its turn, the fence has no
      exception. */
  lemma EveryCompletionFenced(states: seq<State>, actions: seq<Client.Action>, i: nat, r: RunId)
    requires Client.IsRun(states, actions) && i < |states| && r in states[i].slots && states[i].cfg.handler
    requires forall n <- states[i].log :: n.payload.TurnCompleted? ==> n.turnId != ""
    requires states[i].slots[r].run.terminal && states[i].slots[r].run.err.None?
    ensures EndsCompleted(states[i].slots[r].run)
    ensures DeliveredThrough(states[i].q, LastFrame(states[i].slots[r].run).no)
  {
    hide Client.IsRun, DeliveredThrough;
    TerminalFence(states, actions, i, r);
    Provenance.AlwaysGenuine(states, actions, i);
    Provenance.SlotAt(states[i], r);
    assert LastFrame(states[i].slots[r].run) in states[i].slots[r].run.history;
  }

  /** No close cause was set while the run was still to finish without error. */
  lemma NoCauseBeforeSuccess(states: seq<State>, actions: seq<Client.Action>, i: nat, j: nat, r: RunId)
    requires Client.IsRun(states, actions) && i <= j < |states| && r in states[i].slots
    requires !states[i].slots[r].run.terminal
    ensures r in states[j].slots
    ensures states[j].slots[r].run.terminal && states[j].slots[r].run.err.None? ==>
              !states[i].close.closed && states[i].close.reason.None?
  {
    hide Client.IsRun;
    Frozen.NothingThaws(states, actions, i, j);
    Frozen.CauseIffClosed(states, actions, i);
    assert Frozen.SlotEvolves(states[i].slots[r], states[j].slots[r], states[i].close.reason);
  }
}
