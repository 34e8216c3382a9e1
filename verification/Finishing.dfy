/** What finishes a run and with what error: apart from being closed, aborted or refused,
    a run ends with the outcome of its own completed turn. */
module Finishing {
  import opened Wrappers
  import opened Attribution
  import opened Retention
  import opened ExactRun
  import opened ClientState
  import opened Phases
  import opened Reached
  import Reader
  import Starter
  import Closing
  import Dispatch
  import Client
  import Frozen
  import Publication
  import Replay
  import Scope
  import Settling
  import Totals

  /** The run's history ends with a completed turn, and `err` is that turn's outcome. */
  predicate TurnOutcome(run: Run, err: Option<Err>) {
    && run.terminalAdmitted && run.history != []
    && var end := run.history[|run.history| - 1].note.payload;
       end.TurnCompleted? && err == (if end.status.Completed? then None else Some(ErrTurn(end.status)))
  }

  /** A finish from outside: refused registration, giving up before attachment, Close or a
      failed request of the run's owner, and the close publisher. */
  predicate FromOutside(a: Client.Action) {
    || (a.ByStarter? && (a.starter.FinishRefused? || a.starter.FinishEnd? || a.starter.ExternalFinish?))
    || (a.ByCloser? && a.closer.PublishFinish?)
  }

  /** Whoever becomes terminal ends with the outcome of its turn. */
  ghost predicate EndsTruly(s: State, t: State) {
    forall r <- s.slots | !s.slots[r].run.terminal ::
      r in t.slots && (t.slots[r].run.terminal ==> TurnOutcome(t.slots[r].run, t.slots[r].run.err))
  }

  lemma NobodyEnds(s: State, t: State)
    requires forall r <- s.slots :: r in t.slots && (t.slots[r].run.terminal ==> s.slots[r].run.terminal)
    ensures EndsTruly(s, t)
  {
    hide TurnOutcome;
  }

  lemma OwedTells(slots: Slots, c: Completion, no: nat)
    requires Owed(slots, c, no)
    ensures c.run in slots && TurnOutcome(slots[c.run].run, c.err)
  {
  }

  /** A completion that is owed finishes its run with the outcome. */
  lemma CompletionTells(s: State, u: State, c: Completion, via: Via)
    requires Cause(u).None? && u.slots.Keys == s.slots.Keys && forall r <- s.slots :: u.slots[r].run == s.slots[r].run
    requires c.run in s.slots && TurnOutcome(s.slots[c.run].run, c.err)
    ensures EndsTruly(s, FinishRun(u, c.run, c.err, via))
  {
  }

  lemma SomeTells(slots: Slots, c: Completion)
    requires OwedSome(slots, c)
    ensures c.run in slots && TurnOutcome(slots[c.run].run, c.err)
  {
    var no :| Owed(slots, c, no);
    OwedTells(slots, c, no);
  }

  lemma ReaderTells(s: State)
    requires PhaseInv(s) && s.reader.Completing? && s.reader.inline != []
    ensures var c := s.reader.inline[0]; c.run in s.slots && TurnOutcome(s.slots[c.run].run, c.err)
  {
    assert s.reader.inline[0] in s.reader.inline;
    SomeTells(s.slots, s.reader.inline[0]);
  }

  lemma DispatcherTells(s: State)
    requires PhaseInv(s) && s.q.disp.Delivered? && s.q.disp.completions != []
    ensures var c := s.q.disp.completions[0]; c.run in s.slots && TurnOutcome(s.slots[c.run].run, c.err)
  {
    assert s.q.disp.completions[0] in s.q.disp.completions;
    OwedTells(s.slots, s.q.disp.completions[0], s.q.disp.e.frame);
  }

  lemma RegistrationTells(s: State, q: RunId)
    requires PhaseInv(s) && q in s.slots && s.slots[q].caller.RegReplay? && s.slots[q].caller.todo.Some?
    ensures var c := s.slots[q].caller.todo.value; c.run in s.slots && TurnOutcome(s.slots[c.run].run, c.err)
  {
    SomeTells(s.slots, s.slots[q].caller.todo.value);
  }

  lemma EvidenceTells(s: State, no: nat)
    requires PhaseInv(s) && no in s.ev.completion
    ensures var c := s.ev.completion[no]; c.run in s.slots && TurnOutcome(s.slots[c.run].run, c.err)
  {
    OwedTells(s.slots, s.ev.completion[no], no);
  }

  // ------------------------------------------------------------------ by actor

  lemma ReaderEnds(s: State, a: Reader.Action)
    requires PhaseInv(s) && Cause(s).None? && Reader.Enabled(s, a)
    ensures EndsTruly(s, Reader.Step(s, a))
  {
    hide PhaseInv, FinishRun, EndsTruly, TurnOutcome, Reader.CanRoute, Reader.DoRoute, Reader.CanReaderAccept;
    hide Reader.DoReaderAccept, Reader.DoArmTurn, Reader.DoArmThread, Reader.CanArmTurn, Reserve, ReleaseWaiter;
    match a
    case Complete =>
      if s.reader.inline != [] {
        var c := s.reader.inline[0];
        ReaderTells(s);
        CompletionTells(s, s, c, ByReader);
        SameRuns(s, FinishRun(s, c.run, c.err, ByReader), Reader.Step(s, a));
      } else {
        NobodyEnds(s, Reader.Step(s, a));
      }
    case Accept(bytes) =>
      AcceptEndsNobody(s, bytes);
      NobodyEnds(s, Reader.Step(s, a));
    case Route(note, order, bytes) =>
      Replay.RouteKeeps(s, note, order, bytes);
      NobodyEnds(s, Reader.Step(s, a));
    case ArmTurn(_, _, _) => ArmEndsNobody(s, a);
    case ArmThread(_, _) => ArmEndsNobody(s, a);
    case Reject =>
      WaiterKeepsRuns(s, s.reader.frame, s.reader.fenced);
      NobodyEnds(s, Reader.Step(s, a));
    case _ => NobodyEnds(s, Reader.Step(s, a));
  }

  lemma SameRuns(s: State, u: State, t: State)
    requires EndsTruly(s, u) && t.slots == u.slots
    ensures EndsTruly(s, t)
  {
    hide TurnOutcome;
  }

  lemma WaiterKeepsRuns(s: State, frame: nat, evidence: bool)
    ensures ReleaseWaiter(s, frame, evidence).slots == s.slots
  {
  }

  lemma ArmEndsNobody(s: State, a: Reader.Action)
    requires Reader.Enabled(s, a) && (a.ArmThread? || a.ArmTurn?)
    ensures EndsTruly(s, Reader.Step(s, a))
  {
    hide EndsTruly, Reader.Step, Reader.Enabled;
    Settling.ArmShape(s, a);
    NobodyEnds(s, Reader.Step(s, a));
  }

  lemma AcceptEnds(s: State, q: RunId, p: Parked)
    ensures var t := AcceptRetained(s, q, p).0;
            forall r <- s.slots :: r in t.slots && t.slots[r].run.terminal == s.slots[r].run.terminal
  {
    hide Retain, FinalResponse;
  }

  lemma AcceptEndsNobody(s: State, bytes: nat)
    requires Reader.CanReaderAccept(s)
    ensures var t := Reader.DoReaderAccept(s, bytes);
            forall r <- s.slots :: r in t.slots && t.slots[r].run.terminal == s.slots[r].run.terminal
  {
    hide Reserve, AcceptRetained, Admissible;
    var rd := s.reader;
    var (b, l) := Reserve(s.mem.budget, 3, bytes);
    if l.Some? {
      var s1 := LetGo(s.(reader := rd.(targets := rd.targets[1..])), multiset{l.value});
      AcceptEnds(s1.(mem := s1.mem.(budget := b)), rd.targets[0], Parked(rd.frame, rd.note, l.value));
    }
  }

  lemma ResolveEnds(s: State, p: Parked, q: RunId)
    ensures var t := Resolve(s, p, q);
            forall r <- s.slots :: r in t.slots && t.slots[r].run.terminal == s.slots[r].run.terminal
  {
    hide AcceptRetained;
    AcceptEnds(s, q, p);
  }

  lemma StarterEnds(s: State, q: RunId, a: Starter.Action)
    requires PhaseInv(s) && Cause(s).None? && Starter.Enabled(s, q, a) && !FromOutside(Client.ByStarter(q, a))
    ensures EndsTruly(s, Starter.Step(s, q, a))
  {
    hide PhaseInv, FinishRun, EndsTruly, TurnOutcome, Resolve, AcceptRetained, ListLeases;
    hide Starter.DoRegister, Starter.DoAttachPublish, Starter.DoFinishCollect, Starter.DoUnregister;
    match a
    case RegisterComplete =>
      var c := s.slots[q].caller;
      RegistrationTells(s, q);
      CompletionTells(s, SetCaller(s, q, c.(todo := None)), c.todo.value, ByRegister);
    case AttachNext => NextEnds(s, q);
    case FinishComplete => CompleteEnds(s, q);
    case RegisterAccept =>
      AcceptEnds(s, q, s.slots[q].caller.list[s.slots[q].caller.regNext]);
      NobodyEnds(s, Starter.Step(s, q, a));
    case AttachResolve =>
      ResolveEnds(s, s.slots[q].caller.list[s.slots[q].caller.next], q);
      NobodyEnds(s, Starter.Step(s, q, a));
    case FinishResolve =>
      ResolveEnds(s, s.slots[q].caller.list[s.slots[q].caller.finNext], q);
      NobodyEnds(s, Starter.Step(s, q, a));
    case Register => RegistryEnds(s, q, a);
    case AttachPublish => RegistryEnds(s, q, a);
    case FinishCollect => RegistryEnds(s, q, a);
    case Unregister => RegistryEnds(s, q, a);
    case CreateRun(_) => NobodyEnds(s, Starter.Step(s, q, a));
    case RegisterDone => NobodyEnds(s, Starter.Step(s, q, a));
    case AttachLock => NobodyEnds(s, Starter.Step(s, q, a));
    case AttachDone => NobodyEnds(s, Starter.Step(s, q, a));
    case FinishLock => NobodyEnds(s, Starter.Step(s, q, a));
    case FinishUnlock => NobodyEnds(s, Starter.Step(s, q, a));
    case Collect => NobodyEnds(s, Starter.Step(s, q, a));
    case _ =>
  }

  lemma RegistryEnds(s: State, q: RunId, a: Starter.Action)
    requires Starter.Enabled(s, q, a) && (a.Register? || a.AttachPublish? || a.FinishCollect? || a.Unregister?)
    ensures EndsTruly(s, Starter.Step(s, q, a))
  {
    hide EndsTruly, Without, With, Starter.Mine, Starter.KeepOthers;
    NobodyEnds(s, Starter.Step(s, q, a));
  }

  lemma NextEnds(s: State, q: RunId)
    requires PhaseInv(s) && Cause(s).None? && Starter.CanAttachNext(s, q)
    ensures EndsTruly(s, Starter.DoAttachNext(s, q))
  {
    hide PhaseInv, FinishRun, EndsTruly, TurnOutcome;
    var c := s.slots[q].caller;
    var no := c.list[c.next].no;
    var u := SetCaller(s, q, c.(next := c.next + 1, resolved := false));
    NobodyEnds(s, u);
    if no in s.ev.completion {
      EvidenceTells(s, no);
      CompletionTells(s, u, s.ev.completion[no], ByReplay);
    }
  }

  lemma CompleteEnds(s: State, q: RunId)
    requires PhaseInv(s) && Cause(s).None? && Starter.CanFinishComplete(s, q)
    ensures EndsTruly(s, Starter.DoFinishComplete(s, q))
  {
    hide PhaseInv, FinishRun, EndsTruly, TurnOutcome;
    var c := s.slots[q].caller;
    var no := c.list[c.doneNext].no;
    var u := SetCaller(s, q, c.(doneNext := c.doneNext + 1));
    NobodyEnds(s, u);
    if no in s.ev.completion {
      EvidenceTells(s, no);
      CompletionTells(s, u, s.ev.completion[no], ByFinish(no));
    }
  }

  lemma CloserEnds(s: State, a: Closing.Action)
    requires Closing.Enabled(s, a) && !a.PublishFinish?
    ensures EndsTruly(s, Closing.Step(s, a))
  {
    hide EndsTruly, Resolve, Release, Reserve, Retain, ReleaseWaiter, Closing.CanSnapshot, Closing.DoSnapshot;
    match a {
      case PublishPending =>
        var p := s.close.pub.pending[0];
        if p.no in s.ev.owner { ResolveEnds(s, p, s.ev.owner[p.no]); }
      case PublishReplay =>
        var p := s.close.pub.replay[0];
        if p.no in s.ev.owner { ResolveEnds(s, p, s.ev.owner[p.no]); }
      case Snapshot(turns, runs, finishing) => SnapshotEnds(s, turns, runs, finishing);
      case DiscardQueued => WaiterKeepsRuns(s, s.q.queue[0].frame, s.q.queue[0].evidence);
      case _ =>
    }
    NobodyEnds(s, Closing.Step(s, a));
  }

  lemma SnapshotEnds(s: State, turns: seq<Id>, runs: seq<RunId>, finishing: seq<RunId>)
    requires Closing.CanSnapshot(s, turns, runs, finishing)
    ensures var t := Closing.DoSnapshot(s, turns, runs, finishing);
            forall r <- s.slots :: r in t.slots && t.slots[r].run == s.slots[r].run
  {
    hide Closing.CanSnapshot, Concat, ConcatReplays, RetainAll, Leases, Totals.Union;
  }

  lemma DispatcherEnds(s: State, a: Dispatch.Action)
    requires PhaseInv(s) && Cause(s).None? && Dispatch.Enabled(s, a)
    ensures EndsTruly(s, Dispatch.Step(s, a))
  {
    hide PhaseInv, FinishRun, EndsTruly, TurnOutcome, ReleaseWaiter;
    match a
    case Complete =>
      var c := s.q.disp.completions[0];
      DispatcherTells(s);
      CompletionTells(s, s, c, ByDispatch(s.q.disp.e.frame));
      SameRuns(s, FinishRun(s, c.run, c.err, ByDispatch(s.q.disp.e.frame)), Dispatch.Step(s, a));
    case Deliver =>
      WaiterKeepsRuns(s, s.q.disp.e.frame, s.q.disp.e.evidence);
      NobodyEnds(s, Dispatch.Step(s, a));
    case DiscardHeld =>
      WaiterKeepsRuns(s, s.q.disp.e.frame, s.q.disp.e.evidence);
      NobodyEnds(s, Dispatch.Step(s, a));
    case DiscardHead =>
      WaiterKeepsRuns(s, s.q.queue[0].frame, s.q.queue[0].evidence);
      NobodyEnds(s, Dispatch.Step(s, a));
    case _ => NobodyEnds(s, Dispatch.Step(s, a));
  }

  // ----------------------------------------------------------------- whole runs

  /** While no close cause is set, a run that finishes other than from outside has
      accepted its completed turn and ends without error exactly when that turn
      completed, else with an error naming the turn's status. */
  lemma FinishTellsOutcome(states: seq<State>, actions: seq<Client.Action>, i: nat, r: RunId)
    requires Client.IsRun(states, actions) && i < |actions| && !FromOutside(actions[i])
    requires Cause(states[i]).None? && r in states[i].slots && !states[i].slots[r].run.terminal
    ensures i + 1 < |states| && r in states[i + 1].slots
    ensures states[i + 1].slots[r].run.terminal ==>
              var run := states[i + 1].slots[r].run;
              && run.terminalAdmitted && run.history != []
              && run.history[|run.history| - 1].note.payload.TurnCompleted?
              && var status := run.history[|run.history| - 1].note.payload.status;
                 run.err == if status == TurnStatus.Completed then None else Some(ErrTurn(status))
  {
    hide EndsTruly, Base, Reader.Enabled, Reader.Step, Starter.Enabled, Starter.Step, Closing.Enabled, Closing.Step;
    hide Dispatch.Enabled, Dispatch.Step, PhaseInv;
    var s, a := states[i], actions[i];
    StepAt(states, actions, i);
    AlwaysBase(states, actions, i);
    Scope.Parts(s);
    match a {
      case ByReader(b) => ReaderEnds(s, b);
      case ByStarter(q, b) => StarterEnds(s, q, b);
      case ByCloser(b) => CloserEnds(s, b);
      case ByDispatcher(b) => DispatcherEnds(s, b);
    }
    TrulyAt(s, states[i + 1], r);
  }

  lemma TrulyAt(s: State, t: State, r: RunId)
    requires EndsTruly(s, t) && r in s.slots && !s.slots[r].run.terminal
    ensures r in t.slots && (t.slots[r].run.terminal ==> TurnOutcome(t.slots[r].run, t.slots[r].run.err))
  {
  }

  /** The error a starter gives up with, or that of Close or of the failed request. */
  function GivenError(s: State, a: Client.Action): Option<Err>
    requires a.ByStarter? && a.r in s.slots
  {
    match a.starter
    case FinishRefused => if s.slots[a.r].caller.Refused? then Some(s.slots[a.r].caller.refusal) else None
    case FinishEnd(err) => Some(err)
    case ExternalFinish(err) => Some(err)
    case _ => None
  }

  /** A finish from outside ends the run at once, with the close cause if one is set. */
  lemma OutsideFinishes(states: seq<State>, actions: seq<Client.Action>, i: nat)
    requires Client.IsRun(states, actions) && i < |actions| && actions[i].ByStarter? && FromOutside(actions[i])
    ensures i + 1 < |states| && actions[i].r in states[i].slots && actions[i].r in states[i + 1].slots
    ensures states[i + 1].slots[actions[i].r].run.terminal
    ensures var x := states[i].slots[actions[i].r].run;
            !x.terminal ==>
              states[i + 1].slots[actions[i].r].run.err ==
              if Cause(states[i]).Some? then Cause(states[i]) else GivenError(states[i], actions[i])
  {
    hide ListLeases;
    StepAt(states, actions, i);
  }

  // ---------------------------------------------------------------- giving up

  /** A starter that has given up or ended has finished its run. */
  ghost predicate OverEnded(slots: Slots) { forall r <- slots :: slots[r].caller.Over? ==> slots[r].run.terminal }

  /** Nobody's starter ends but by finishing its run. */
  ghost predicate OverFinishes(s: State, t: State) {
    forall r <- t.slots :: t.slots[r].caller.Over? ==>
                             t.slots[r].run.terminal || (r in s.slots && s.slots[r].caller.Over?)
  }

  lemma KeepsCallers(s: State, t: State)
    requires forall r <- t.slots :: r in s.slots && (t.slots[r].caller.Over? ==> s.slots[r].caller.Over?)
    ensures OverFinishes(s, t)
  {
  }

  lemma ReaderOver(s: State, a: Reader.Action)
    requires Reader.Enabled(s, a)
    ensures OverFinishes(s, Reader.Step(s, a))
  {
    hide OverFinishes, FinishRun, Reader.CanRoute, Reader.DoRoute, Reader.CanReaderAccept, ReleaseWaiter, Reserve;
    hide Reader.DoReaderAccept, Reader.DoArmTurn, Reader.DoArmThread, Reader.CanArmTurn;
    match a {
      case Complete =>
        if s.reader.inline != [] { Settling.FinishShape(s, s.reader.inline[0].run, s.reader.inline[0].err, ByReader); }
      case Accept(bytes) => Settling.AcceptShape(s, bytes);
      case Route(note, order, bytes) => Replay.RouteKeeps(s, note, order, bytes);
      case ArmTurn(_, _, _) => Settling.ArmShape(s, a);
      case ArmThread(_, _) => Settling.ArmShape(s, a);
      case Reject => WaiterKeepsRuns(s, s.reader.frame, s.reader.fenced);
      case _ =>
    }
    KeepsCallers(s, Reader.Step(s, a));
  }

  lemma StarterOver(s: State, q: RunId, a: Starter.Action)
    requires Starter.Enabled(s, q, a)
    ensures OverFinishes(s, Starter.Step(s, q, a))
  {
    hide OverFinishes, Starter.Enabled, Starter.Step;
    if Settling.Finishes(a) {
      FinishesOver(s, q, a);
    } else if a.CreateRun? {
      CreatesNotOver(s, q, a);
    } else if a.RegisterAccept? || a.AttachResolve? || a.FinishResolve? {
      AcceptsOver(s, q, a);
    } else {
      RegistryOver(s, q, a);
    }
  }

  lemma FinishesOver(s: State, q: RunId, a: Starter.Action)
    requires Starter.Enabled(s, q, a) && Settling.Finishes(a)
    ensures OverFinishes(s, Starter.Step(s, q, a))
  {
    hide OverFinishes, FinishRun, ListLeases, SetCaller, LetGo;
    match a
    case FinishRefused => EndsOver(s, q, multiset{}, Some(s.slots[q].caller.refusal));
    case FinishEnd(err) => EndsOver(s, q, ListLeases(s.slots[q].caller.list), Some(err));
    case RegisterComplete =>
      var c := s.slots[q].caller;
      MovesNotOver(s, q, c.(todo := None), c.todo.value.run, c.todo.value.err, ByRegister);
    case AttachNext =>
      var c := s.slots[q].caller;
      var no := c.list[c.next].no;
      var d := if no in s.ev.completion then s.ev.completion[no] else Completion(q, None);
      MovesNotOver(s, q, c.(next := c.next + 1, resolved := false), d.run, d.err, ByReplay);
    case FinishComplete =>
      var c := s.slots[q].caller;
      var no := c.list[c.doneNext].no;
      var d := if no in s.ev.completion then s.ev.completion[no] else Completion(q, None);
      MovesNotOver(s, q, c.(doneNext := c.doneNext + 1), d.run, d.err, ByFinish(no));
    case ExternalFinish(err) => ExternalNotOver(s, q, err);
    case _ =>
  }

  /** The starter moves on without ending, and some run finishes. */
  lemma MovesNotOver(s: State, q: RunId, c: Caller, r: RunId, err: Option<Err>, via: Via)
    requires q in s.slots && !c.Over?
    ensures OverFinishes(s, FinishRun(SetCaller(s, q, c), r, err, via)) && OverFinishes(s, SetCaller(s, q, c))
  {
    hide FinishRun;
    Settling.FinishShape(SetCaller(s, q, c), r, err, via);
  }

  lemma ExternalNotOver(s: State, q: RunId, err: Err)
    ensures OverFinishes(s, FinishRun(s, q, Some(err), ByError))
  {
    hide FinishRun;
    Settling.FinishShape(s, q, Some(err), ByError);
  }

  lemma AcceptsOver(s: State, q: RunId, a: Starter.Action)
    requires Starter.Enabled(s, q, a) && (a.RegisterAccept? || a.AttachResolve? || a.FinishResolve?)
    ensures OverFinishes(s, Starter.Step(s, q, a))
  {
    hide OverFinishes, Resolve, AcceptRetained;
    match a {
      case RegisterAccept =>
        Settling.AcceptOthers(s, s.slots[q].caller.list[s.slots[q].caller.regNext], q);
        AcceptFrame(s, q, s.slots[q].caller.list[s.slots[q].caller.regNext]);
      case AttachResolve => ResolveKeepsCallers(s, s.slots[q].caller.list[s.slots[q].caller.next], q);
      case FinishResolve => ResolveKeepsCallers(s, s.slots[q].caller.list[s.slots[q].caller.finNext], q);
      case _ =>
    }
    KeepsCallers(s, Starter.Step(s, q, a));
  }

  lemma CreatesNotOver(s: State, q: RunId, a: Starter.Action)
    requires Starter.Enabled(s, q, a) && a.CreateRun?
    ensures OverFinishes(s, Starter.Step(s, q, a))
  {
  }

  lemma RegistryOver(s: State, q: RunId, a: Starter.Action)
    requires Starter.Enabled(s, q, a) && !Settling.Finishes(a) && !a.CreateRun?
    requires !a.RegisterAccept? && !a.AttachResolve? && !a.FinishResolve?
    ensures OverFinishes(s, Starter.Step(s, q, a))
  {
    hide OverFinishes, Without, With, Starter.Mine, Starter.KeepOthers, ListLeases;
    KeepsCallers(s, Starter.Step(s, q, a));
  }

  lemma EndsOver(s: State, q: RunId, ls: multiset<LeaseId>, err: Option<Err>)
    requires q in s.slots
    ensures OverFinishes(s, FinishRun(LetGo(SetCaller(s, q, Over), ls), q, err, ByError))
    ensures OverFinishes(s, FinishRun(SetCaller(s, q, Over), q, err, ByError))
  {
  }

  lemma CloserOver(s: State, a: Closing.Action)
    requires Closing.Enabled(s, a)
    ensures OverFinishes(s, Closing.Step(s, a))
  {
    hide OverFinishes, Resolve, FinishRun, Release, Reserve, Retain, ReleaseWaiter, Closing.CanSnapshot, Closing.DoSnapshot;
    match a {
      case PublishPending =>
        var p := s.close.pub.pending[0];
        if p.no in s.ev.owner { ResolveKeepsCallers(s, p, s.ev.owner[p.no]); }
      case PublishReplay =>
        var p := s.close.pub.replay[0];
        if p.no in s.ev.owner { ResolveKeepsCallers(s, p, s.ev.owner[p.no]); }
      case PublishFinish => Settling.FinishShape(s, s.close.pub.finishing[0], Cause(s), ByError);
      case Snapshot(turns, runs, finishing) => SnapshotKeepsCallers(s, turns, runs, finishing);
      case DiscardQueued => WaiterKeepsRuns(s, s.q.queue[0].frame, s.q.queue[0].evidence);
      case _ =>
    }
    KeepsCallers(s, Closing.Step(s, a));
  }

  lemma ResolveKeepsCallers(s: State, p: Parked, q: RunId)
    ensures var t := Resolve(s, p, q);
            t.slots.Keys == s.slots.Keys && forall r <- s.slots :: t.slots[r].caller == s.slots[r].caller
  {
    hide AcceptRetained;
    AcceptFrame(s, q, p);
    Settling.AcceptOthers(s, p, q);
  }

  lemma SnapshotKeepsCallers(s: State, turns: seq<Id>, runs: seq<RunId>, finishing: seq<RunId>)
    requires Closing.CanSnapshot(s, turns, runs, finishing)
    ensures var t := Closing.DoSnapshot(s, turns, runs, finishing);
            t.slots.Keys == s.slots.Keys && forall r <- s.slots :: t.slots[r].caller == s.slots[r].caller
  {
    hide Closing.CanSnapshot, Concat, ConcatReplays, RetainAll, Leases, Totals.Union;
  }

  lemma DispatcherOver(s: State, a: Dispatch.Action)
    requires Dispatch.Enabled(s, a)
    ensures OverFinishes(s, Dispatch.Step(s, a))
  {
    hide OverFinishes, FinishRun, ReleaseWaiter;
    match a {
      case Complete =>
        var c := s.q.disp.completions[0];
        Settling.FinishShape(s, c.run, c.err, ByDispatch(s.q.disp.e.frame));
      case Deliver => WaiterKeepsRuns(s, s.q.disp.e.frame, s.q.disp.e.evidence);
      case DiscardHeld => WaiterKeepsRuns(s, s.q.disp.e.frame, s.q.disp.e.evidence);
      case DiscardHead => WaiterKeepsRuns(s, s.q.queue[0].frame, s.q.queue[0].evidence);
      case _ =>
    }
    KeepsCallers(s, Dispatch.Step(s, a));
  }

  lemma StepOver(s: State, a: Client.Action)
    requires Client.Enabled(s, a)
    ensures OverFinishes(s, Client.Step(s, a))
  {
    hide OverFinishes, Reader.Enabled, Reader.Step, Starter.Enabled, Starter.Step, Closing.Enabled, Closing.Step;
    hide Dispatch.Enabled, Dispatch.Step;
    match a
    case ByReader(b) => ReaderOver(s, b);
    case ByStarter(q, b) => StarterOver(s, q, b);
    case ByCloser(b) => CloserOver(s, b);
    case ByDispatcher(b) => DispatcherOver(s, b);
  }

  lemma NobodyOver(s: State)
    requires Client.IsInit(s)
    ensures OverEnded(s.slots)
  {
  }

  /** A run whose registration was refused, or whose starter gave up before attachment,
      is finished once its starter has ended, in every reachable state. */
  lemma {:induction false} OverMeansFinished(states: seq<State>, actions: seq<Client.Action>, i: nat)
    requires Client.IsRun(states, actions) && i < |states|
    ensures forall r <- states[i].slots :: states[i].slots[r].caller.Over? ==> states[i].slots[r].run.terminal
  {
    hide Client.Enabled, Client.Step, Truthful;
    if i == 0 {
      NobodyOver(states[0]);
    } else {
      var s, t := states[i - 1], states[i];
      OverMeansFinished(states, actions, i - 1);
      StepAt(states, actions, i - 1);
      StepOver(s, actions[i - 1]);
      Frozen.NothingThaws(states, actions, i - 1, i);
      forall r <- t.slots | t.slots[r].caller.Over? ensures t.slots[r].run.terminal {
        if r in s.slots { assert Frozen.SlotEvolves(s.slots[r], t.slots[r], s.close.reason); }
      }
    }
  }
}
