/** The one path that completes a run before any callback: registration replays the
    frames that were parked for the run's armed thread. */
module Replay {
  import opened Wrappers
  import opened Attribution
  import opened Retention
  import opened ExactRun
  import opened ClientState
  import opened Phases
  import Reader
  import Starter
  import Closing
  import Dispatch
  import Client
  import Frozen

  function LastFrame(run: Run): Frame
    requires run.history != []
  {
    run.history[|run.history| - 1]
  }

  predicate HasTodo(x: Slot) { x.caller.RegReplay? && x.caller.todo.Some? }

  /** The frame is parked for a thread that is being attached. */
  predicate ThreadParked(s: State, thread: Id, no: nat) { exists p <- ListAt(s.reg.threadPend, thread) :: p.no == no }

  /** The frame was parked so in some state up to `i`. */
  ghost predicate WasParked(states: seq<State>, i: nat, thread: Id, no: nat)
    requires i < |states|
  {
    exists j :: 0 <= j <= i && ThreadParked(states[j], thread, no)
  }

  /** The run ended its evidence on a frame that was parked for its thread. */
  ghost predicate EndedParked(states: seq<State>, i: nat, run: Run)
    requires i < |states|
  {
    run.history != [] && (run.terminal || run.terminalAdmitted) && WasParked(states, i, run.threadId, LastFrame(run).no)
  }

  ghost predicate Traced(states: seq<State>, i: nat, r: RunId)
    requires i < |states|
  {
    r in states[i].slots ==>
      var x := states[i].slots[r];
      && (x.caller.RegReplay? ==> forall p <- x.caller.list :: WasParked(states, i, x.run.threadId, p.no))
      && (HasTodo(x) ==> x.caller.todo.value.run == r && EndedParked(states, i, x.run))
      && (x.via.ByRegister? ==> EndedParked(states, i, x.run))
  }

  // ------------------------------------------------------------ steps of others

  /** The slot is not about to replay anything new, nor completed by registration,
      nor created again. */
  predicate Carries(x: Slot, y: Slot) {
    && y.run.threadId == x.run.threadId
    && (y.caller.RegReplay? ==> y.caller == x.caller)
    && (y.via.ByRegister? ==> x.via.ByRegister?)
    && (y.caller.Created? ==> x.caller.Created?)
  }

  lemma FinishCarries(s: State, q: RunId, err: Option<Err>, via: Via, r: RunId)
    requires r in s.slots && !via.ByRegister?
    ensures r in FinishRun(s, q, err, via).slots && Carries(s.slots[r], FinishRun(s, q, err, via).slots[r])
  {
  }

  lemma AcceptCarries(s: State, q: RunId, p: Parked, r: RunId)
    requires r in s.slots
    ensures r in AcceptRetained(s, q, p).0.slots && Carries(s.slots[r], AcceptRetained(s, q, p).0.slots[r])
    ensures q != r ==> AcceptRetained(s, q, p).0.slots[r] == s.slots[r]
  {
    hide Retain;
  }

  lemma ResolveCarries(s: State, p: Parked, q: RunId, r: RunId)
    requires r in s.slots
    ensures r in Resolve(s, p, q).slots && Carries(s.slots[r], Resolve(s, p, q).slots[r])
  {
    hide AcceptRetained;
    AcceptCarries(s, q, p, r);
    AcceptFrame(s, q, p);
  }

  lemma RouteKeeps(s: State, note: Note, order: seq<RunId>, bytes: nat)
    requires Reader.CanRoute(s, note, order)
    ensures Reader.DoRoute(s, note, order, bytes).slots == s.slots
  {
    hide Reader.CanRoute, Reserve, Parkable;
  }

  lemma ReaderCarries(s: State, a: Reader.Action, r: RunId)
    requires Reader.Enabled(s, a) && r in s.slots
    ensures var s' := Reader.Step(s, a); r in s'.slots && Carries(s.slots[r], s'.slots[r])
  {
    hide Reserve, Admissible, Parkable, Reader.CanRoute, AcceptRetained, FinishRun;
    hide Reader.DoReaderAccept, Reader.CanReaderAccept, Reader.DoRoute;
    match a
    case Route(note, order, bytes) => RouteKeeps(s, note, order, bytes);
    case Accept(bytes) => ReaderAcceptCarries(s, bytes, r);
    case Complete => if s.reader.inline != [] { FinishCarries(s, s.reader.inline[0].run, s.reader.inline[0].err,
        ByReader, r); }
    case _ =>
  }

  lemma ReaderAcceptCarries(s: State, bytes: nat, r: RunId)
    requires Reader.CanReaderAccept(s) && r in s.slots
    ensures var s' := Reader.DoReaderAccept(s, bytes); r in s'.slots && Carries(s.slots[r], s'.slots[r])
  {
    hide Reserve, Admissible, AcceptRetained, Carries;
    CarriesSame(s.slots[r]);
    var rd := s.reader;
    var l := Reserve(s.mem.budget, 3, bytes).1;
    if l.Some? {
      var s1 := LetGo(s.(reader := rd.(targets := rd.targets[1..])), multiset{l.value});
      AcceptCarries(s1.(mem := s1.mem.(budget := Reserve(s.mem.budget, 3, bytes).0)), rd.targets[0],
                    Parked(rd.frame, rd.note, l.value), r);
    }
  }

  lemma CarriesSame(x: Slot)
    ensures Carries(x, x)
  {
  }

  predicate Registers(a: Starter.Action) { a.Register? || a.RegisterAccept? || a.RegisterComplete? }

  lemma RegistryCarries(s: State, q: RunId, r: RunId)
    requires r in s.slots
    ensures Starter.CanAttachPublish(s, q) ==>
              var t := Starter.DoAttachPublish(s, q).slots; r in t && Carries(s.slots[r], t[r])
    ensures Starter.CanFinishCollect(s, q) ==>
              var t := Starter.DoFinishCollect(s, q).slots; r in t && Carries(s.slots[r], t[r])
  {
    hide Starter.Mine, Starter.KeepOthers, Without, With;
  }

  lemma StarterCarries(s: State, q: RunId, a: Starter.Action, r: RunId)
    requires Starter.Enabled(s, q, a) && r in s.slots && !Registers(a)
    ensures var s' := Starter.Step(s, q, a); r in s'.slots && Carries(s.slots[r], s'.slots[r])
  {
    hide Resolve, FinishRun, Starter.Mine, Starter.KeepOthers, Without, With, ListLeases, AcceptRetained;
    hide Starter.DoRegister, Starter.DoRegisterAccept, Starter.DoRegisterComplete, ReleaseAttachment;
    hide Starter.DoAttachPublish, Starter.DoFinishCollect;
    match a
    case AttachPublish => RegistryCarries(s, q, r);
    case FinishCollect => RegistryCarries(s, q, r);
    case AttachResolve => ResolveCarries(s, s.slots[q].caller.list[s.slots[q].caller.next], q, r);
    case FinishResolve => ResolveCarries(s, s.slots[q].caller.list[s.slots[q].caller.finNext], q, r);
    case FinishRefused => FinishCarries(SetCaller(s, q, Over), q, Some(s.slots[q].caller.refusal), ByError, r);
    case AttachNext =>
      var c := s.slots[q].caller;
      var no := c.list[c.next].no;
      if no in s.ev.completion {
        FinishCarries(SetCaller(s, q, c.(next := c.next + 1, resolved := false)),
                      s.ev.completion[no].run, s.ev.completion[no].err, ByReplay, r);
      }
    case FinishComplete =>
      var c := s.slots[q].caller;
      var no := c.list[c.doneNext].no;
      if no in s.ev.completion {
        FinishCarries(SetCaller(s, q, c.(doneNext := c.doneNext + 1)),
                      s.ev.completion[no].run, s.ev.completion[no].err, ByFinish(no), r);
      }
    case FinishEnd(err) =>
      FinishCarries(LetGo(SetCaller(s, q, Over), ListLeases(s.slots[q].caller.list)), q, Some(err), ByError, r);
    case ExternalFinish(err) => FinishCarries(s, q, Some(err), ByError, r);
    case _ =>
  }

  lemma CloserCarries(s: State, a: Closing.Action, r: RunId)
    requires Closing.Enabled(s, a) && r in s.slots
    ensures var s' := Closing.Step(s, a); r in s'.slots && Carries(s.slots[r], s'.slots[r])
  {
    hide Resolve, FinishRun, Release, Closing.CanSnapshot, Concat, ConcatReplays, RetainAll, Leases;
    match a
    case PublishPending =>
      var p := s.close.pub.pending[0];
      if p.no in s.ev.owner { ResolveCarries(s, p, s.ev.owner[p.no], r); }
    case PublishReplay =>
      var p := s.close.pub.replay[0];
      if p.no in s.ev.owner { ResolveCarries(s, p, s.ev.owner[p.no], r); }
    case PublishFinish => FinishCarries(s, s.close.pub.finishing[0], Cause(s), ByError, r);
    case _ =>
  }

  lemma DispatcherCarries(s: State, a: Dispatch.Action, r: RunId)
    requires Dispatch.Enabled(s, a) && r in s.slots
    ensures var s' := Dispatch.Step(s, a); r in s'.slots && Carries(s.slots[r], s'.slots[r])
  {
    hide FinishRun;
    if a.Complete? {
      var c := s.q.disp.completions[0];
      FinishCarries(s, c.run, c.err, ByDispatch(s.q.disp.e.frame), r);
    }
  }

  // --------------------------------------------------------------- whole runs

  lemma StillParked(states: seq<State>, i: nat, thread: Id, no: nat)
    requires i + 1 < |states| && WasParked(states, i, thread, no)
    ensures WasParked(states, i + 1, thread, no)
  {
  }

  /** A run that ended its evidence keeps its last frame. */
  lemma StillEnded(states: seq<State>, i: nat, a: Run, b: Run)
    requires i + 1 < |states| && EndedParked(states, i, a) && Evolves(a, b)
    ensures EndedParked(states, i + 1, b)
  {
    StillParked(states, i, a.threadId, LastFrame(a).no);
  }

  lemma OthersTraced(states: seq<State>, i: nat, r: RunId)
    requires i + 1 < |states| && Traced(states, i, r) && r in states[i].slots && r in states[i + 1].slots
    requires Carries(states[i].slots[r], states[i + 1].slots[r])
    requires Evolves(states[i].slots[r].run, states[i + 1].slots[r].run)
    ensures Traced(states, i + 1, r)
  {
    hide WasParked, Evolves;
    var x, y := states[i].slots[r], states[i + 1].slots[r];
    if EndedParked(states, i, x.run) { StillEnded(states, i, x.run, y.run); }
    if y.caller.RegReplay? {
      forall p <- y.caller.list ensures WasParked(states, i + 1, y.run.threadId, p.no) {
        StillParked(states, i, x.run.threadId, p.no);
      }
    }
  }

  /** Registration starts, replays a frame, or completes the run. */
  lemma OwnTraced(states: seq<State>, i: nat, q: RunId, a: Starter.Action, r: RunId)
    requires i + 1 < |states| && Traced(states, i, r) && Traced(states, i, q) && r in states[i].slots
    requires Starter.Enabled(states[i], q, a) && Registers(a) && states[i + 1] == Starter.Step(states[i], q, a)
    requires r in states[i + 1].slots && Evolves(states[i].slots[r].run, states[i + 1].slots[r].run)
    ensures Traced(states, i + 1, r)
  {
    hide Evolves, WasParked;
    if q != r && !a.RegisterComplete? {
      OthersStay(states[i], q, a, r);
      OthersTraced(states, i, r);
    } else {
      match a
      case Register => RegisterTraced(states, i, r);
      case RegisterAccept => AcceptTraced(states, i, r);
      case RegisterComplete => CompleteTraced(states, i, q, r);
      case _ =>
    }
  }

  lemma OthersStay(s: State, q: RunId, a: Starter.Action, r: RunId)
    requires r in s.slots && q != r && Starter.Enabled(s, q, a) && (a.Register? || a.RegisterAccept?)
    ensures r in Starter.Step(s, q, a).slots && Carries(s.slots[r], Starter.Step(s, q, a).slots[r])
  {
    hide AcceptRetained, Starter.DoAttachPublish, Starter.DoFinishCollect, Starter.DoUnregister, FinishRun, Resolve;
    if a.RegisterAccept? { AcceptCarries(s, q, s.slots[q].caller.list[s.slots[q].caller.regNext], r); }
  }

  lemma RegisterTraced(states: seq<State>, i: nat, r: RunId)
    requires i + 1 < |states| && Traced(states, i, r) && Starter.CanRegister(states[i], r)
    requires states[i + 1] == Starter.DoRegister(states[i], r)
    ensures Traced(states, i + 1, r)
  {
    hide WasParked, Starter.DoRegister;
    var s, x := states[i], states[i].slots[r];
    RegisterShape(s, r);
    if EndedParked(states, i, x.run) { StillParked(states, i, x.run.threadId, LastFrame(x.run).no); }
    forall p <- ListAt(s.reg.threadPend, x.run.threadId) ensures WasParked(states, i + 1, x.run.threadId, p.no) {
      JustParked(states, i, x.run.threadId, p);
    }
  }

  lemma RegisterShape(s: State, r: RunId)
    requires Starter.CanRegister(s, r)
    ensures var s' := Starter.DoRegister(s, r);
            && r in s'.slots && s'.slots[r] == s.slots[r].(caller := s'.slots[r].caller)
            && (s'.slots[r].caller.RegReplay? ==>
                s'.slots[r].caller == RegReplay(ListAt(s.reg.threadPend, s.slots[r].run.threadId), 0, None))
  {
  }

  lemma JustParked(states: seq<State>, i: nat, thread: Id, p: Parked)
    requires i + 1 < |states| && p in ListAt(states[i].reg.threadPend, thread)
    ensures WasParked(states, i + 1, thread, p.no)
  {
    assert ThreadParked(states[i], thread, p.no);
  }

  lemma AcceptTraced(states: seq<State>, i: nat, r: RunId)
    requires i + 1 < |states| && Traced(states, i, r) && Starter.CanRegisterAccept(states[i], r)
    requires states[i + 1] == Starter.DoRegisterAccept(states[i], r)
    requires Evolves(states[i].slots[r].run, states[i + 1].slots[r].run)
    ensures Traced(states, i + 1, r)
  {
    hide WasParked, Retain, Evolves;
    var x := states[i].slots[r];
    var y := states[i + 1].slots[r];
    var p := x.caller.list[x.caller.regNext];
    assert y.caller.RegReplay? && y.caller.list == x.caller.list && y.via == x.via && y.run.threadId == x.run.threadId;
    if EndedParked(states, i, x.run) { StillEnded(states, i, x.run, y.run); }
    forall e <- x.caller.list ensures WasParked(states, i + 1, x.run.threadId, e.no) {
      StillParked(states, i, x.run.threadId, e.no);
    }
    assert p in x.caller.list;
  }

  lemma CompleteTraced(states: seq<State>, i: nat, q: RunId, r: RunId)
    requires i + 1 < |states| && Traced(states, i, r) && Traced(states, i, q) && r in states[i].slots
    requires Starter.CanRegisterComplete(states[i], q) && states[i + 1] == Starter.DoRegisterComplete(states[i], q)
    requires r in states[i + 1].slots && Evolves(states[i].slots[r].run, states[i + 1].slots[r].run)
    ensures Traced(states, i + 1, r)
  {
    hide WasParked, Evolves;
    var x := states[i].slots[r];
    if EndedParked(states, i, x.run) { StillEnded(states, i, x.run, states[i + 1].slots[r].run); }
    if x.caller.RegReplay? {
      forall p <- x.caller.list ensures WasParked(states, i + 1, x.run.threadId, p.no) {
        StillParked(states, i, x.run.threadId, p.no);
      }
    }
  }

  lemma RunEvolves(states: seq<State>, actions: seq<Client.Action>, i: nat, r: RunId)
    requires Client.IsRun(states, actions) && i + 1 < |states| && r in states[i].slots
    ensures r in states[i + 1].slots && Evolves(states[i].slots[r].run, states[i + 1].slots[r].run)
  {
    hide Client.IsRun, Evolves;
    Frozen.NothingThaws(states, actions, i, i + 1);
    assert Frozen.SlotEvolves(states[i].slots[r], states[i + 1].slots[r], states[i].close.reason);
  }

  /** What registration replays was parked for the run's thread, and so was the frame
      of a run that registration completed. */
  lemma {:induction false} AlwaysTraced(states: seq<State>, actions: seq<Client.Action>, i: nat, r: RunId)
    requires Client.IsRun(states, actions) && i < |states|
    ensures Traced(states, i, r)
  {
    hide Traced, Evolves, Carries, Reader.Enabled, Reader.Step, Starter.Enabled, Starter.Step;
    hide Closing.Enabled, Closing.Step, Dispatch.Enabled, Dispatch.Step;
    if i == 0 {
      InitTraced(states, actions, r);
    } else {
      var s, a := states[i - 1], actions[i - 1];
      AlwaysTraced(states, actions, i - 1, r);
      if r in s.slots {
        RunEvolves(states, actions, i - 1, r);
        if a.ByStarter? && Registers(a.starter) {
          AlwaysTraced(states, actions, i - 1, a.r);
          OwnTraced(states, i - 1, a.r, a.starter, r);
        } else {
          match a {
            case ByReader(b) => ReaderCarries(s, b, r);
            case ByStarter(q, b) => StarterCarries(s, q, b, r);
            case ByCloser(b) => CloserCarries(s, b, r);
            case ByDispatcher(b) => DispatcherCarries(s, b, r);
          }
          OthersTraced(states, i - 1, r);
        }
      } else {
        NewTraced(states, actions, i - 1, r);
      }
    }
  }

  lemma InitTraced(states: seq<State>, actions: seq<Client.Action>, r: RunId)
    requires Client.IsRun(states, actions)
    ensures Traced(states, 0, r)
  {
  }

  lemma NewTraced(states: seq<State>, actions: seq<Client.Action>, i: nat, r: RunId)
    requires Client.IsRun(states, actions) && i + 1 < |states| && r !in states[i].slots
    ensures Traced(states, i + 1, r)
  {
    hide Client.Enabled, Client.Step, WasParked;
    assert Client.Enabled(states[i], actions[i]) && states[i + 1] == Client.Step(states[i], actions[i]);
    if r in states[i + 1].slots { NewSlot(states[i], actions[i], r); }
  }

  lemma NewSlot(s: State, a: Client.Action, r: RunId)
    requires Client.Enabled(s, a) && r !in s.slots && r in Client.Step(s, a).slots
    ensures Client.Step(s, a).slots[r].caller.Created? && Client.Step(s, a).slots[r].via.NotFinished?
  {
    hide Reader.Step, Starter.Step, Closing.Step, Dispatch.Step, Reader.Enabled, Starter.Enabled;
    hide Closing.Enabled, Dispatch.Enabled;
    match a
    case ByReader(b) => ReaderKeys(s, b);
    case ByStarter(q, b) => StarterKeys(s, q, b);
    case ByCloser(b) => CloserKeys(s, b);
    case ByDispatcher(b) => DispatcherKeys(s, b);
  }

  lemma ReaderKeys(s: State, a: Reader.Action)
    requires Reader.Enabled(s, a)
    ensures Reader.Step(s, a).slots.Keys == s.slots.Keys
  {
    hide Reserve, Admissible, Parkable, Reader.CanRoute, Retain, Accept;
  }

  lemma StarterKeys(s: State, q: RunId, a: Starter.Action)
    requires Starter.Enabled(s, q, a)
    ensures !a.CreateRun? ==> Starter.Step(s, q, a).slots.Keys == s.slots.Keys
    ensures a.CreateRun? ==>
              var t := Starter.Step(s, q, a).slots;
              t.Keys == s.slots.Keys + {q} && t[q].caller.Created? && t[q].via.NotFinished?
  {
    hide Retain, Starter.Mine, Starter.KeepOthers, Without, With, Leases, Admissible, Accept;
  }

  lemma CloserKeys(s: State, a: Closing.Action)
    requires Closing.Enabled(s, a)
    ensures Closing.Step(s, a).slots.Keys == s.slots.Keys
  {
    hide Closing.CanSnapshot, Concat, ConcatReplays, RetainAll, Leases, Retain, Release, Accept, Admissible;
  }

  lemma DispatcherKeys(s: State, a: Dispatch.Action)
    requires Dispatch.Enabled(s, a)
    ensures Dispatch.Step(s, a).slots.Keys == s.slots.Keys
  {
  }
}
