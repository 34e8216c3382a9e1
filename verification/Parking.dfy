/** Frames nobody receives yet: where they are parked, and that the run which registers
    for their thread accepts them. */
module Parking {
  import opened Wrappers
  import opened Attribution
  import opened Retention
  import opened ExactRun
  import opened ClientState
  import opened Phases
  import opened Registration
  import opened Reached
  import Reader
  import Starter
  import Closing
  import Dispatch
  import Client
  import Frozen
  import Once
  import Provenance
  import Publication
  import Replay
  import Scope

  // ------------------------------------------------------------- where it waits

  /** The list grows by the frame. */
  ghost predicate Appended(before: seq<Parked>, after: seq<Parked>, no: nat, note: Note) {
    exists l :: after == before + [Parked(no, note, l)]
  }

  /** A thread frame whose thread is being attached. */
  predicate AwaitsThread(s: State, note: Note) {
    note.known && note.turnId == "" && note.threadId != "" && note.threadId in s.reg.armedThreads
  }

  /** A turn frame whose turn a turn/start response has named, on no other thread than
      that of the run it named. */
  predicate AwaitsTurn(s: State, note: Note) {
    && note.known && note.turnId != "" && note.turnId in s.reg.armedTurns && s.reg.armedTurns[note.turnId] in s.slots
    && (note.threadId == "" || note.threadId == s.slots[s.reg.armedTurns[note.turnId]].run.threadId)
  }

  lemma ArmedMatches(s: State, note: Note)
    requires RegistryInv(s) && PhaseInv(s)
    ensures ClassOf(note).Turn? ==> (Parkable(s, note) <==> AwaitsTurn(s, note))
    ensures AwaitsTurn(s, note) ==> ClassOf(note).Turn?
  {
    hide StreamsOk, AttachingOk, LiveRegistered, KeysOk, ParkedOk, Emptied, PhaseInv;
    if note.turnId in s.reg.armedTurns {
      var q := s.reg.armedTurns[note.turnId];
      assert BoundTo(s.slots, q, note.turnId);
      PhasedAt(s, q);
    }
  }

  /** A frame that no run receives waits for its armed thread or for its armed turn, as
      evidence of the run that turn is armed for; a frame that some run receives, and
      any other, is not parked. Only the budget stops it, and then the reader fails. */
  lemma UnreceivedWaits(s: State, note: Note, order: seq<RunId>, bytes: nat)
    requires RegistryInv(s) && PhaseInv(s) && Reader.CanRoute(s, note, order)
    ensures var t := Reader.DoRoute(s, note, order, bytes);
            var nobody := forall r :: !Scope.Receives(s, r, note);
            && t.log == s.log + [note] && t.reader.Routed? && t.reader.frame == |s.log|
            && (nobody && AwaitsThread(s, note) && t.reader.failed.None? ==>
                  && Appended(ListAt(s.reg.threadPend, note.threadId), ListAt(t.reg.threadPend, note.threadId), |s.log|, note)
                  && t.reg.threadPend - {note.threadId} == s.reg.threadPend - {note.threadId})
            && (nobody && AwaitsTurn(s, note) && t.reader.failed.None? ==>
                  && Appended(ListAt(s.reg.pend, note.turnId), ListAt(t.reg.pend, note.turnId), |s.log|, note)
                  && t.reg.pend - {note.turnId} == s.reg.pend - {note.turnId}
                  && t.ev.owner == s.ev.owner[|s.log| := s.reg.armedTurns[note.turnId]] && t.reader.evidence)
            && (!nobody || !AwaitsThread(s, note) ==> t.reg.threadPend == s.reg.threadPend)
            && (!nobody || !AwaitsTurn(s, note) ==>
                  t.reg.pend == s.reg.pend && t.ev.owner == s.ev.owner && !t.reader.evidence)
  {
    hide RegistryInv, PhaseInv, Reserve, Scope.Receives, Parkable, AwaitsTurn, Reader.CanRoute;
    ArmedMatches(s, note);
    Received(s, note, order);
    var t := Reader.DoRoute(s, note, order, bytes);
    var l := Reserve(s.mem.budget, 3, bytes).1;
    if order == [] && AwaitsThread(s, note) && l.Some? {
      assert ListAt(t.reg.threadPend, note.threadId) == ListAt(s.reg.threadPend, note.threadId) + [Parked(|s.log|, note, l.value)];
    }
    l := Reserve(s.mem.budget, 4, bytes).1;
    if order == [] && ClassOf(note).Turn? && Parkable(s, note) && l.Some? {
      assert ListAt(t.reg.pend, note.turnId) == ListAt(s.reg.pend, note.turnId) + [Parked(|s.log|, note, l.value)];
    }
  }

  lemma Received(s: State, note: Note, order: seq<RunId>)
    requires RegistryInv(s) && Reader.CanRoute(s, note, order)
    ensures order == [] <==> forall r :: !Scope.Receives(s, r, note)
  {
    hide *;
    forall r ensures r in order <==> Scope.Receives(s, r, note) { Scope.OrderReceives(s, note, order, r); }
    if order != [] { assert order[0] in order; }
  }

  // ------------------------------------------- registration accepts what waited

  ghost predicate Taken(run: Run, p: Parked) { Once.Accepted(run, p.no) || Scope.Over(run) }

  predicate ForThread(p: Parked, thread: Id) { ClassOf(p.note).Thread? && p.note.threadId == thread }

  /** The registration replays `list`, and has done so up to where it stands. */
  ghost predicate Replays(x: Slot, list: seq<Parked>) {
    && !x.caller.Created?
    && (forall p <- list :: ForThread(p, x.run.threadId))
    && (x.caller.RegReplay? ==>
          x.caller.list == list && forall k :: 0 <= k < |list| && k < x.caller.regNext ==> Taken(x.run, list[k]))
  }

  lemma OthersReplay(x: Slot, y: Slot, list: seq<Parked>)
    requires Replays(x, list) && Replay.Carries(x, y) && Evolves(x.run, y.run)
    ensures Replays(y, list)
  {
    hide Once.Accepted;
    forall p | Taken(x.run, p) ensures Taken(y.run, p) { Scope.StillAccepted(x.run, y.run, p.no); }
  }

  lemma TakesWaiting(s: State, r: RunId)
    requires Starter.CanRegister(s, r) && Provenance.ThreadPendOk(s.log, s.reg.threadPend)
    ensures var t := Starter.DoRegister(s, r);
            r in t.slots && Replays(t.slots[r], ListAt(s.reg.threadPend, s.slots[r].run.threadId))
  {
    hide ClassOf;
  }

  lemma AcceptReplays(s: State, r: RunId, list: seq<Parked>)
    requires Starter.CanRegisterAccept(s, r) && Replays(s.slots[r], list)
    requires Evolves(s.slots[r].run, Starter.DoRegisterAccept(s, r).slots[r].run)
    ensures Replays(Starter.DoRegisterAccept(s, r).slots[r], list)
  {
    hide Evolves, Retain, Accept, Once.Accepted;
    var x, y := s.slots[r], Starter.DoRegisterAccept(s, r).slots[r];
    var p := list[x.caller.regNext];
    assert ForThread(p, x.run.threadId);
    ThreadFrameTaken(x.run, p);
    if Admissible(x.run, p.note) {
      Scope.AcceptAppends(x.run, Frame(p.no, p.note), p.lease);
      LastAccepted(x.run, y.run, Frame(p.no, p.note));
    }
    EvolvesTaken(x.run, y.run);
    assert Taken(y.run, p);
  }

  lemma ThreadFrameTaken(run: Run, p: Parked)
    requires ForThread(p, run.threadId)
    ensures Admissible(run, p.note) || Scope.Over(run)
  {
  }

  lemma LastAccepted(a: Run, b: Run, f: Frame)
    requires b.history == a.history + [f]
    ensures Once.Accepted(b, f.no)
  {
    assert b.history[|a.history|] == f;
  }

  lemma EvolvesTaken(a: Run, b: Run)
    requires Evolves(a, b)
    ensures a.threadId == b.threadId && forall p :: Taken(a, p) ==> Taken(b, p)
  {
    hide Once.Accepted;
    forall p | Taken(a, p) ensures Taken(b, p) { Scope.StillAccepted(a, b, p.no); }
  }

  lemma CompletesRegister(s: State, q: RunId, r: RunId)
    requires Starter.CanRegisterComplete(s, q) && r in s.slots
    ensures var t := Starter.DoRegisterComplete(s, q).slots;
            r in t && t[r].caller == (if q == r then s.slots[r].caller.(todo := None) else s.slots[r].caller)
            && t[r].run.threadId == s.slots[r].run.threadId
  {
  }

  lemma OwnReplays(s: State, q: RunId, a: Starter.Action, r: RunId, list: seq<Parked>)
    requires Starter.Enabled(s, q, a) && Replay.Registers(a) && r in s.slots && Replays(s.slots[r], list)
    requires r in Starter.Step(s, q, a).slots && Evolves(s.slots[r].run, Starter.Step(s, q, a).slots[r].run)
    ensures Replays(Starter.Step(s, q, a).slots[r], list)
  {
    hide Evolves, Taken, ForThread, Starter.CanRegister, Starter.DoRegister, Starter.DoRegisterAccept;
    hide Starter.DoRegisterComplete;
    match a
    case Register =>
      assert q != r by { CreatedRegisters(s, q); }
      Replay.OthersStay(s, q, a, r);
      OthersReplay(s.slots[r], Starter.Step(s, q, a).slots[r], list);
    case RegisterAccept =>
      if q == r {
        AcceptReplays(s, r, list);
      } else {
        Replay.OthersStay(s, q, a, r);
        OthersReplay(s.slots[r], Starter.Step(s, q, a).slots[r], list);
      }
    case RegisterComplete =>
      CompletesRegister(s, q, r);
      EvolvesTaken(s.slots[r].run, Starter.Step(s, q, a).slots[r].run);
    case _ =>
  }

  lemma CreatedRegisters(s: State, q: RunId)
    requires Starter.CanRegister(s, q)
    ensures q in s.slots && s.slots[q].caller.Created?
  {
  }

  lemma {:induction false} AlwaysReplays(
    states: seq<State>, actions: seq<Client.Action>, i: nat, j: nat, r: RunId, list: seq<Parked>)
    requires Client.IsRun(states, actions) && i < j < |states| && actions[i] == Client.ByStarter(r, Starter.Register)
    requires r in states[i].slots && list == ListAt(states[i].reg.threadPend, states[i].slots[r].run.threadId)
    ensures r in states[j].slots && Replays(states[j].slots[r], list)
    decreases j
  {
    hide Replays, Evolves, Replay.Carries, Provenance.ProvenanceInv, Reader.Enabled, Reader.Step, Starter.Enabled;
    hide Starter.Step, Closing.Enabled, Closing.Step, Dispatch.Enabled, Dispatch.Step;
    var s, a := states[j - 1], actions[j - 1];
    StepAt(states, actions, j - 1);
    if j == i + 1 {
      Provenance.AlwaysGenuine(states, actions, i);
      RegisterAt(s, r);
    } else {
      AlwaysReplays(states, actions, i, j - 1, r, list);
      Replay.RunEvolves(states, actions, j - 1, r);
      if a.ByStarter? && Replay.Registers(a.starter) {
        OwnReplays(s, a.r, a.starter, r, list);
      } else {
        match a {
          case ByReader(b) => Replay.ReaderCarries(s, b, r);
          case ByStarter(q, b) => Replay.StarterCarries(s, q, b, r);
          case ByCloser(b) => Replay.CloserCarries(s, b, r);
          case ByDispatcher(b) => Replay.DispatcherCarries(s, b, r);
        }
        OthersReplay(s.slots[r], states[j].slots[r], list);
      }
    }
  }

  lemma RegisterAt(s: State, r: RunId)
    requires Starter.Enabled(s, r, Starter.Register) && Provenance.ProvenanceInv(s)
    ensures r in s.slots && r in Starter.Step(s, r, Starter.Register).slots
    ensures Replays(Starter.Step(s, r, Starter.Register).slots[r],
                    ListAt(s.reg.threadPend, s.slots[r].run.threadId))
  {
    hide Provenance.ThreadPendOk, Replays, Starter.DoRegister;
    TakesWaiting(s, r);
  }

  /** When a run that registered has been through the frames that waited for its
      thread, it has accepted each of them unless its evidence had ended. */
  lemma ParkedIsReplayed(
    states: seq<State>, actions: seq<Client.Action>, i: nat, j: nat, r: RunId, p: Parked)
    requires Client.IsRun(states, actions) && i < j < |actions|
    requires actions[i] == Client.ByStarter(r, Starter.Register)
    requires actions[j] == Client.ByStarter(r, Starter.RegisterDone)
    requires r in states[i].slots && p in ListAt(states[i].reg.threadPend, states[i].slots[r].run.threadId)
    ensures r in states[j].slots
    ensures Once.Accepted(states[j].slots[r].run, p.no) || Scope.Over(states[j].slots[r].run)
  {
    hide Once.Accepted;
    var list := ListAt(states[i].reg.threadPend, states[i].slots[r].run.threadId);
    AlwaysReplays(states, actions, i, j, r, list);
    StepAt(states, actions, j);
    var k :| 0 <= k < |list| && list[k] == p;
    assert Taken(states[j].slots[r].run, list[k]);
  }

  // ------------------------------------------------------- an armed thread stays

  /** The step takes what waits for the thread: a run of it registers, or the client
      takes its failure snapshot. */
  predicate TakesThread(s: State, a: Client.Action, thread: Id) {
    || (a.ByCloser? && a.closer.Snapshot?)
    || (a.ByStarter? && a.starter.Register? && a.r in s.slots && s.slots[a.r].run.threadId == thread)
  }

  lemma StepKeepsArmed(s: State, a: Client.Action, thread: Id)
    requires Client.Enabled(s, a) && !TakesThread(s, a, thread) && thread in s.reg.armedThreads
    ensures thread in Client.Step(s, a).reg.armedThreads
  {
    hide Starter.Enabled, Starter.Step, Reader.Enabled, Reader.Step, Closing.Enabled, Closing.Step;
    hide Dispatch.Enabled, Dispatch.Step;
    match a
    case ByReader(b) => ReaderKeepsArmed(s, b, thread);
    case ByStarter(q, b) => StarterKeepsArmed(s, q, b, thread);
    case ByCloser(b) => CloserKeepsArmed(s, b, thread);
    case ByDispatcher(b) => DispatcherKeepsArmed(s, b, thread);
  }

  lemma ReaderKeepsArmed(s: State, a: Reader.Action, thread: Id)
    requires Reader.Enabled(s, a) && thread in s.reg.armedThreads
    ensures thread in Reader.Step(s, a).reg.armedThreads
  {
    hide Reserve, AcceptRetained, Admissible, Parkable, FinishRun, Reader.CanRoute, ReleaseWaiter, ClassOf, ListAt;
    hide Reader.DoReaderAccept, Reader.CanReaderAccept;
    match a
    case Accept(bytes) => Publication.AcceptKeepsRegistry(s, bytes);
    case Complete =>
      if s.reader.inline != [] {
        Publication.FinishKeepsRegistry(s, s.reader.inline[0].run, s.reader.inline[0].err, ByReader);
      }
    case Reject => Publication.WaiterKeepsRegistry(s, s.reader.frame, s.reader.fenced);
    case Route(note, order, bytes) => RouteKeepsArmed(s, note, order, bytes);
    case _ =>
  }

  lemma RouteKeepsArmed(s: State, note: Note, order: seq<RunId>, bytes: nat)
    requires Reader.CanRoute(s, note, order)
    ensures Reader.DoRoute(s, note, order, bytes).reg.armedThreads == s.reg.armedThreads
  {
    hide Reader.CanRoute, Reserve, Parkable, ClassOf, ListAt;
    var t := Reader.DoRoute(s, note, order, bytes);
    if order == [] && ClassOf(note).Thread? && note.threadId in s.reg.armedThreads {
      var (b, l) := Reserve(s.mem.budget, 3, bytes);
      assert t.reg.armedThreads == s.reg.armedThreads;
    } else if order == [] && ClassOf(note).Turn? && Parkable(s, note) {
      var (b, l) := Reserve(s.mem.budget, 4, bytes);
      assert t.reg.armedThreads == s.reg.armedThreads;
    }
  }

  lemma StarterKeepsArmed(s: State, q: RunId, a: Starter.Action, thread: Id)
    requires Starter.Enabled(s, q, a) && thread in s.reg.armedThreads
    requires !TakesThread(s, Client.ByStarter(q, a), thread)
    ensures thread in Starter.Step(s, q, a).reg.armedThreads
  {
    hide Resolve, FinishRun, AcceptRetained, ListLeases, Without, With, Starter.Mine, Starter.KeepOthers;
    match a
    case RegisterAccept => AcceptFrame(s, q, s.slots[q].caller.list[s.slots[q].caller.regNext]);
    case AttachResolve => ResolveFrame(s, s.slots[q].caller.list[s.slots[q].caller.next], q);
    case FinishResolve => ResolveFrame(s, s.slots[q].caller.list[s.slots[q].caller.finNext], q);
    case RegisterComplete =>
      var c := s.slots[q].caller;
      Publication.FinishKeepsRegistry(SetCaller(s, q, c.(todo := None)), c.todo.value.run, c.todo.value.err, ByRegister);
    case FinishRefused =>
      Publication.FinishKeepsRegistry(SetCaller(s, q, Over), q, Some(s.slots[q].caller.refusal), ByError);
    case AttachNext =>
      var c := s.slots[q].caller;
      var no := c.list[c.next].no;
      if no in s.ev.completion {
        Publication.FinishKeepsRegistry(SetCaller(s, q, c.(next := c.next + 1, resolved := false)),
                                        s.ev.completion[no].run, s.ev.completion[no].err, ByReplay);
      }
    case FinishComplete =>
      var c := s.slots[q].caller;
      var no := c.list[c.doneNext].no;
      if no in s.ev.completion {
        Publication.FinishKeepsRegistry(SetCaller(s, q, c.(doneNext := c.doneNext + 1)),
                                        s.ev.completion[no].run, s.ev.completion[no].err, ByFinish(no));
      }
    case FinishEnd(err) =>
      Publication.FinishKeepsRegistry(LetGo(SetCaller(s, q, Over), ListLeases(s.slots[q].caller.list)), q, Some(err), ByError);
    case ExternalFinish(err) => Publication.FinishKeepsRegistry(s, q, Some(err), ByError);
    case _ =>
  }

  lemma CloserKeepsArmed(s: State, a: Closing.Action, thread: Id)
    requires Closing.Enabled(s, a) && !a.Snapshot? && thread in s.reg.armedThreads
    ensures thread in Closing.Step(s, a).reg.armedThreads
  {
    hide Resolve, FinishRun, Release, Reserve, Retain, ReleaseWaiter;
    match a
    case PublishPending =>
      var p := s.close.pub.pending[0];
      if p.no in s.ev.owner { ResolveFrame(s, p, s.ev.owner[p.no]); }
    case PublishReplay =>
      var p := s.close.pub.replay[0];
      if p.no in s.ev.owner { ResolveFrame(s, p, s.ev.owner[p.no]); }
    case PublishFinish => Publication.FinishKeepsRegistry(s, s.close.pub.finishing[0], Cause(s), ByError);
    case DiscardQueued => Publication.WaiterKeepsRegistry(s, s.q.queue[0].frame, s.q.queue[0].evidence);
    case _ =>
  }

  lemma DispatcherKeepsArmed(s: State, a: Dispatch.Action, thread: Id)
    requires Dispatch.Enabled(s, a) && thread in s.reg.armedThreads
    ensures thread in Dispatch.Step(s, a).reg.armedThreads
  {
    hide FinishRun, ReleaseWaiter;
    match a
    case Deliver => Publication.WaiterKeepsRegistry(s, s.q.disp.e.frame, s.q.disp.e.evidence);
    case DiscardHeld => Publication.WaiterKeepsRegistry(s, s.q.disp.e.frame, s.q.disp.e.evidence);
    case DiscardHead => Publication.WaiterKeepsRegistry(s, s.q.queue[0].frame, s.q.queue[0].evidence);
    case Complete =>
      var c := s.q.disp.completions[0];
      Publication.FinishKeepsRegistry(s, c.run, c.err, ByDispatch(s.q.disp.e.frame));
    case _ =>
  }

  lemma JustArmed(s: State, thread: Id, bytes: nat)
    requires Reader.CanArmThread(s, thread)
    ensures var t := Reader.DoArmThread(s, thread, bytes);
            t.reader.Idle? ==> thread in t.reg.armedThreads
    ensures Reader.DoArmThread(s, thread, bytes).reader.Failing? <==>
            s.close.closed || (ThreadKey(thread) !in s.reg.attachment && Reserve(s.mem.budget, 1, bytes).1.None?)
  {
    hide Reserve;
    var (b, l) := Reserve(s.mem.budget, 1, bytes);
  }

  lemma ArmAt(s: State, thread: Id, bytes: nat)
    requires Client.Enabled(s, Client.ByReader(Reader.ArmThread(thread, bytes)))
    ensures Reader.CanArmThread(s, thread)
    ensures Client.Step(s, Client.ByReader(Reader.ArmThread(thread, bytes))) == Reader.DoArmThread(s, thread, bytes)
  {
    hide Reader.DoArmThread;
  }

  /** A thread that a thread/start response armed stays armed until a run of it registers
      or the client takes its failure snapshot. */
  lemma {:induction false} ArmedUntilTaken(
    states: seq<State>, actions: seq<Client.Action>, i: nat, j: nat, thread: Id, bytes: nat)
    requires Client.IsRun(states, actions) && i < j < |states|
    requires actions[i] == Client.ByReader(Reader.ArmThread(thread, bytes)) && states[i + 1].reader.Idle?
    requires forall k :: i < k < j ==> !TakesThread(states[k], actions[k], thread)
    ensures thread in states[j].reg.armedThreads
    decreases j
  {
    hide Client.Enabled, Client.Step, TakesThread, Reader.DoArmThread;
    StepAt(states, actions, j - 1);
    if j == i + 1 {
      ArmAt(states[i], thread, bytes);
      JustArmed(states[i], thread, bytes);
    } else {
      ArmedUntilTaken(states, actions, i, j - 1, thread, bytes);
      StepKeepsArmed(states[j - 1], actions[j - 1], thread);
    }
  }
}
