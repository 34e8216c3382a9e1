/** First cause and frozen evidence: the first close cause is never replaced,
    there is one close publisher, and a run's evidence and error freeze when its
    terminal frame is admitted and when it finishes. */
module Frozen {
  import opened Wrappers
  import opened Attribution
  import opened Retention
  import opened ExactRun
  import opened ClientState
  import Reader
  import Starter
  import Closing
  import Dispatch
  import Client

  ghost predicate CloseInv(s: State) {
    && (s.close.closed <==> s.close.reason.Some?)
    && (s.close.failure.Some? ==> s.close.reason == s.close.failure)
    && (s.close.closed <==> !s.close.pub.NoPublisher?)
    && (s.close.cancelled ==> s.close.closed)
    && (s.close.stopped ==> s.close.pub.Published? && s.close.failure.None?)
  }

  function Phase(p: Publisher): nat {
    match p
    case NoPublisher => 0
    case Claimed => 1
    case Draining(_, _, _) => 2
    case Published => 3
  }

  /** Publication only moves forward and the cause is set once. */
  ghost predicate CloseEvolves(a: Close, b: Close) {
    && (a.closed ==> b.closed)
    && (a.reason.Some? ==> b.reason == a.reason)
    && (a.closed ==> b.failure == a.failure)
    && Phase(a.pub) <= Phase(b.pub)
    && (a.cancelled ==> b.cancelled)
  }

  /** What one action may do to a run: see Evolves; a run finished after a close
      cause was set ends with that cause; who finished it stays known; and what it
      has recorded stays what its history says. */
  ghost predicate SlotEvolves(x: Slot, y: Slot, cause: Option<Err>) {
    && Evolves(x.run, y.run)
    && (!x.run.terminal && y.run.terminal && cause.Some? ==> y.run.err == cause)
    && (x.run.terminal ==> y.via == x.via)
    && (Truthful(x.run) ==> Truthful(y.run))
  }

  ghost predicate SlotsEvolve(a: map<RunId, Slot>, b: map<RunId, Slot>, cause: Option<Err>) {
    forall r <- a :: r in b && SlotEvolves(a[r], b[r], cause)
  }

  ghost predicate RunsEvolve(a: State, b: State) { SlotsEvolve(a.slots, b.slots, a.close.reason) }

  lemma SameEvolves(a: map<RunId, Slot>, cause: Option<Err>)
    ensures SlotsEvolve(a, a, cause)
  {
    hide Truthful;
  }

  lemma OneEvolves(a: map<RunId, Slot>, r: RunId, x: Slot, cause: Option<Err>)
    requires r in a ==> SlotEvolves(a[r], x, cause)
    ensures SlotsEvolve(a, a[r := x], cause)
  {
    hide Truthful;
  }

  lemma ThenEvolves(a: map<RunId, Slot>, b: map<RunId, Slot>, c: map<RunId, Slot>, cause: Option<Err>)
    requires SlotsEvolve(a, b, cause) && SlotsEvolve(b, c, cause)
    ensures SlotsEvolve(a, c, cause)
  {
    hide Truthful;
  }

  lemma FinishEvolves(s: State, r: RunId, err: Option<Err>, via: Via)
    ensures RunsEvolve(s, FinishRun(s, r, err, via)) && FinishRun(s, r, err, via).close == s.close
  {
    hide SlotsEvolve, Truthful;
    SameEvolves(s.slots, s.close.reason);
    if r in s.slots && Truthful(s.slots[r].run) { OthersTruthful(s.slots[r].run, Cause(s), err, "", []); }
    if r in s.slots { OneEvolves(s.slots, r, FinishRun(s, r, err, via).slots[r], s.close.reason); }
  }

  lemma AcceptEvolves(s: State, r: RunId, p: Parked)
    ensures RunsEvolve(s, AcceptRetained(s, r, p).0)
    ensures AcceptRetained(s, r, p).0.close == s.close
  {
    hide SlotsEvolve, Truthful, Admissible, FinalResponse;
    SameEvolves(s.slots, s.close.reason);
    if r in s.slots {
      var run := s.slots[r].run;
      if Truthful(run) { AcceptTruthful(run, Frame(p.no, p.note), p.lease); }
      if Admissible(run, p.note) { AdmissibleRuns(run, p.note); }
      OneEvolves(s.slots, r, AcceptRetained(s, r, p).0.slots[r], s.close.reason);
    }
  }

  lemma AdmissibleRuns(run: Run, note: Note)
    requires Admissible(run, note)
    ensures !run.terminal && !run.terminalAdmitted
  {
  }

  lemma ResolveEvolves(s: State, p: Parked, r: RunId)
    ensures RunsEvolve(s, Resolve(s, p, r)) && Resolve(s, p, r).close == s.close
  {
    hide Truthful, SlotsEvolve, AcceptRetained;
    SameEvolves(s.slots, s.close.reason);
    AcceptEvolves(s, r, p);
  }

  lemma ReaderSteps(s: State, a: Reader.Action)
    requires CloseInv(s) && Reader.Enabled(s, a)
    ensures var s' := Reader.Step(s, a); CloseInv(s') && CloseEvolves(s.close, s'.close) && RunsEvolve(s, s')
  {
    hide Truthful, Reserve, Retain, FinishRun, SlotsEvolve;
    hide Reader.CanRoute, Reader.DoRoute, Reader.DoReaderAccept, Reader.CanReaderAccept;
    SameEvolves(s.slots, s.close.reason);
    match a
    case ArmTurn(r, turn, bytes) =>
      OneEvolves(s.slots, r, s.slots[r].(caller := Answered, arm := Some(Arm(turn, |s.log|, None))), s.close.reason);
    case Route(note, order, bytes) => RouteSteps(s, note, order, bytes);
    case Accept(bytes) => ReaderAccepts(s, bytes);
    case Complete =>
      if s.reader.inline != [] { FinishEvolves(s, s.reader.inline[0].run, s.reader.inline[0].err, ByReader); }
    case _ =>
  }

  lemma RouteSteps(s: State, note: Note, order: seq<RunId>, bytes: nat)
    requires Reader.CanRoute(s, note, order)
    ensures var s' := Reader.DoRoute(s, note, order, bytes); s'.close == s.close && s'.slots == s.slots
  {
    hide Reserve, Parkable, Reader.CanRoute;
  }

  lemma ReaderAccepts(s: State, bytes: nat)
    requires Reader.CanReaderAccept(s)
    ensures var s' := Reader.DoReaderAccept(s, bytes); s'.close == s.close && RunsEvolve(s, s')
  {
    hide Reserve, AcceptRetained, Admissible, SlotsEvolve;
    var rd := s.reader;
    var l := Reserve(s.mem.budget, 3, bytes).1;
    SameEvolves(s.slots, s.close.reason);
    if l.Some? {
      var s1 := LetGo(s.(reader := rd.(targets := rd.targets[1..])), multiset{l.value});
      AcceptEvolves(s1.(mem := s1.mem.(budget := Reserve(s.mem.budget, 3, bytes).0)), rd.targets[0],
                    Parked(rd.frame, rd.note, l.value));
    }
  }

  /** A starter moves on; its run and who finished it stay. */
  lemma CallerEvolves(s: State, r: RunId, x: Slot)
    requires r in s.slots && x.run == s.slots[r].run && x.via == s.slots[r].via
    ensures SlotsEvolve(s.slots, s.slots[r := x], s.close.reason)
  {
    hide Truthful, SlotsEvolve;
    OneEvolves(s.slots, r, x, s.close.reason);
  }

  /** A starter moves on and some run finishes. */
  lemma MovesAndFinishes(s: State, r: RunId, c: Caller, q: RunId, err: Option<Err>, via: Via, ls: multiset<LeaseId>)
    requires r in s.slots
    ensures RunsEvolve(s, FinishRun(LetGo(SetCaller(s, r, c), ls), q, err, via))
    ensures RunsEvolve(s, FinishRun(SetCaller(s, r, c), q, err, via))
    ensures FinishRun(SetCaller(s, r, c), q, err, via).close == s.close
  {
    hide Truthful, SlotsEvolve, FinishRun;
    var s1 := SetCaller(s, r, c);
    CallerEvolves(s, r, s1.slots[r]);
    FinishEvolves(s1, q, err, via);
    FinishEvolves(LetGo(s1, ls), q, err, via);
    ThenEvolves(s.slots, s1.slots, FinishRun(s1, q, err, via).slots, s.close.reason);
    ThenEvolves(s.slots, s1.slots, FinishRun(LetGo(s1, ls), q, err, via).slots, s.close.reason);
  }

  lemma ResolvesAndMoves(s: State, p: Parked, r: RunId, c: Caller)
    requires r in s.slots
    ensures r in Resolve(s, p, r).slots
    ensures RunsEvolve(s, SetCaller(Resolve(s, p, r), r, c)) && Resolve(s, p, r).close == s.close
  {
    hide Truthful, SlotsEvolve, Resolve;
    ResolveFrame(s, p, r);
    ResolveEvolves(s, p, r);
    var s1 := Resolve(s, p, r);
    CallerEvolves(s1, r, s1.slots[r].(caller := c));
    ThenEvolves(s.slots, s1.slots, SetCaller(s1, r, c).slots, s.close.reason);
  }

  lemma RegisterSteps(s: State, r: RunId)
    requires Starter.CanRegister(s, r)
    ensures var s' := Starter.DoRegister(s, r); s'.close == s.close && RunsEvolve(s, s')
  {
    hide Truthful, SlotsEvolve;
    CallerEvolves(s, r, s.slots[r].(caller := Refused(ErrClientClosed)));
    CallerEvolves(s, r, s.slots[r].(caller := Refused(ErrConcurrentTurnStart)));
    CallerEvolves(s, r, s.slots[r].(caller := RegReplay(ListAt(s.reg.threadPend, s.slots[r].run.threadId), 0, None)));
  }

  lemma RegisterAcceptSteps(s: State, r: RunId)
    requires Starter.CanRegisterAccept(s, r)
    ensures var s' := Starter.DoRegisterAccept(s, r); s'.close == s.close && RunsEvolve(s, s')
  {
    hide Truthful, SlotsEvolve, AcceptRetained;
    var c := s.slots[r].caller;
    var p := c.list[c.regNext];
    AcceptFrame(s, r, p);
    AcceptEvolves(s, r, p);
    var (s1, done) := AcceptRetained(s, r, p);
    var x := s1.slots[r].(caller := c.(regNext := c.regNext + 1, todo := done));
    CallerEvolves(s1, r, x);
    ThenEvolves(s.slots, s1.slots, s1.slots[r := x], s.close.reason);
  }

  /** The registry steps of a starter: only its own slot changes, not its run. */
  lemma RegistrySteps(s: State, r: RunId, a: Starter.Action)
    requires Starter.Enabled(s, r, a) && (a.AttachPublish? || a.FinishCollect? || a.Unregister?)
    ensures var s' := Starter.Step(s, r, a); s'.close == s.close && RunsEvolve(s, s')
  {
    hide Truthful, SlotsEvolve, Without, With, Starter.Mine, Starter.KeepOthers;
    CallerEvolves(s, r, Starter.Step(s, r, a).slots[r]);
  }

  lemma StarterSteps(s: State, r: RunId, a: Starter.Action)
    requires Starter.Enabled(s, r, a)
    ensures var s' := Starter.Step(s, r, a); s'.close == s.close && RunsEvolve(s, s')
  {
    hide Truthful, SlotsEvolve, FinishRun, Resolve, ListLeases;
    hide Starter.DoRegister, Starter.CanRegister, Starter.DoRegisterAccept, Starter.CanRegisterAccept;
    hide Starter.DoAttachPublish, Starter.DoFinishCollect, Starter.DoUnregister;
    match a
    case CreateRun(thread) => OneEvolves(s.slots, r, Starter.Step(s, r, a).slots[r], s.close.reason);
    case Register => RegisterSteps(s, r);
    case FinishRefused => MovesAndFinishes(s, r, Over, r, Some(s.slots[r].caller.refusal), ByError, multiset{});
    case RegisterAccept => RegisterAcceptSteps(s, r);
    case RegisterComplete =>
      var c := s.slots[r].caller;
      MovesAndFinishes(s, r, c.(todo := None), c.todo.value.run, c.todo.value.err, ByRegister, multiset{});
    case RegisterDone => CallerEvolves(s, r, s.slots[r].(caller := Calling));
    case AttachLock =>
      if Truthful(s.slots[r].run) { OthersTruthful(s.slots[r].run, None, None, s.slots[r].arm.value.turn, []); }
      OneEvolves(s.slots, r, Starter.Step(s, r, a).slots[r], s.close.reason);
    case AttachPublish => RegistrySteps(s, r, a);
    case AttachResolve =>
      var c := s.slots[r].caller;
      ResolvesAndMoves(s, c.list[c.next], r, c.(resolved := true));
    case AttachNext =>
      var c := s.slots[r].caller;
      var no := c.list[c.next].no;
      CallerEvolves(s, r, s.slots[r].(caller := c.(next := c.next + 1, resolved := false)));
      if no in s.ev.completion {
        var done := s.ev.completion[no];
        MovesAndFinishes(s, r, c.(next := c.next + 1, resolved := false), done.run, done.err, ByReplay, multiset{});
      }
    case AttachDone => CallerEvolves(s, r, Starter.Step(s, r, a).slots[r]);
    case FinishLock => CallerEvolves(s, r, Starter.Step(s, r, a).slots[r]);
    case FinishCollect => RegistrySteps(s, r, a);
    case FinishResolve =>
      var c := s.slots[r].caller;
      ResolvesAndMoves(s, c.list[c.finNext], r, c.(finNext := c.finNext + 1));
    case FinishUnlock => CallerEvolves(s, r, Starter.Step(s, r, a).slots[r]);
    case FinishComplete =>
      var c := s.slots[r].caller;
      var no := c.list[c.doneNext].no;
      CallerEvolves(s, r, s.slots[r].(caller := c.(doneNext := c.doneNext + 1)));
      if no in s.ev.completion {
        var done := s.ev.completion[no];
        MovesAndFinishes(s, r, c.(doneNext := c.doneNext + 1), done.run, done.err, ByFinish(no), multiset{});
      }
    case FinishEnd(err) =>
      MovesAndFinishes(s, r, Over, r, Some(err), ByError, ListLeases(s.slots[r].caller.list));
      FinishEvolves(LetGo(SetCaller(s, r, Over), ListLeases(s.slots[r].caller.list)), r, Some(err), ByError);
    case ExternalFinish(err) => FinishEvolves(s, r, Some(err), ByError);
    case Unregister => RegistrySteps(s, r, a);
    case Collect =>
      if Truthful(s.slots[r].run) { OthersTruthful(s.slots[r].run, None, None, "", []); }
      OneEvolves(s.slots, r, Starter.Step(s, r, a).slots[r], s.close.reason);
  }

  lemma SnapshotSteps(s: State, turns: seq<Id>, runs: seq<RunId>, finishing: seq<RunId>)
    requires Closing.CanSnapshot(s, turns, runs, finishing)
    ensures var s' := Closing.DoSnapshot(s, turns, runs, finishing);
            s'.close == s.close.(pub := s'.close.pub) && s'.close.pub.Draining? && RunsEvolve(s, s')
  {
    hide Truthful, Leases, Concat, ConcatReplays, RetainAll, Closing.CanSnapshot, Closing.Overtakes;
  }

  lemma CloserSteps(s: State, a: Closing.Action)
    requires CloseInv(s) && Closing.Enabled(s, a)
    ensures var s' := Closing.Step(s, a); CloseInv(s') && CloseEvolves(s.close, s'.close) && RunsEvolve(s, s')
  {
    hide Truthful, SlotsEvolve, Resolve, FinishRun, Release, Closing.DoSnapshot;
    SameEvolves(s.slots, s.close.reason);
    match a
    case Snapshot(turns, runs, finishing) => SnapshotSteps(s, turns, runs, finishing);
    case PublishPending =>
      var p := s.close.pub.pending[0];
      if p.no in s.ev.owner { ResolveEvolves(s, p, s.ev.owner[p.no]); }
    case PublishReplay =>
      var p := s.close.pub.replay[0];
      if p.no in s.ev.owner { ResolveEvolves(s, p, s.ev.owner[p.no]); }
    case PublishFinish => FinishEvolves(s, s.close.pub.finishing[0], Cause(s), ByError);
    case _ =>
  }

  lemma DispatcherSteps(s: State, a: Dispatch.Action)
    requires CloseInv(s) && Dispatch.Enabled(s, a)
    ensures var s' := Dispatch.Step(s, a); CloseInv(s') && CloseEvolves(s.close, s'.close) && RunsEvolve(s, s')
  {
    hide Truthful, SlotsEvolve, FinishRun;
    SameEvolves(s.slots, s.close.reason);
    match a
    case Complete =>
      var c := s.q.disp.completions[0];
      FinishEvolves(s, c.run, c.err, ByDispatch(s.q.disp.e.frame));
    case _ =>
  }

  lemma Steps(s: State, a: Client.Action)
    requires CloseInv(s) && Client.Enabled(s, a)
    ensures var s' := Client.Step(s, a); CloseInv(s') && CloseEvolves(s.close, s'.close) && RunsEvolve(s, s')
  {
    hide Truthful, RunsEvolve;
    hide Reader.Enabled, Reader.Step, Starter.Enabled, Starter.Step;
    hide Closing.Enabled, Closing.Step, Dispatch.Enabled, Dispatch.Step;
    match a
    case ByReader(b) => ReaderSteps(s, b);
    case ByStarter(r, b) => StarterSteps(s, r, b);
    case ByCloser(b) => CloserSteps(s, b);
    case ByDispatcher(b) => DispatcherSteps(s, b);
  }

  // -------------------------------------------------------------- whole runs

  /** In every reachable state the client is closed exactly when a cause is set. */
  lemma {:induction false} CauseIffClosed(states: seq<State>, actions: seq<Client.Action>, i: nat)
    requires Client.IsRun(states, actions) && i < |states|
    ensures CloseInv(states[i])
  {
    hide Client.Enabled, Client.Step;
    if i > 0 {
      CauseIffClosed(states, actions, i - 1);
      Steps(states[i - 1], actions[i - 1]);
    }
  }

  /** Between any two points of a run the first cause stays, the accepted history
      only grows, frozen evidence and errors stay, and a run that finishes after a
      cause was set ends with it. */
  lemma {:induction false} NothingThaws(states: seq<State>, actions: seq<Client.Action>, i: nat, j: nat)
    requires Client.IsRun(states, actions) && i <= j < |states|
    ensures CloseEvolves(states[i].close, states[j].close)
    ensures RunsEvolve(states[i], states[j])
    decreases j
  {
    hide Client.Enabled, Client.Step;
    CauseIffClosed(states, actions, i);
    if i < j {
      NothingThaws(states, actions, i, j - 1);
      CauseIffClosed(states, actions, j - 1);
      Steps(states[j - 1], actions[j - 1]);
      CauseStays(states[i], states[j - 1], states[j]);
    }
  }

  lemma CauseStays(a: State, b: State, c: State)
    requires CloseEvolves(a.close, b.close) && RunsEvolve(a, b) && RunsEvolve(b, c)
    ensures RunsEvolve(a, c)
  {
    hide Truthful;
  }

  /** Only one failure snapshot is ever taken. */
  lemma OneSnapshot(states: seq<State>, actions: seq<Client.Action>, i: nat, j: nat)
    requires Client.IsRun(states, actions) && i < j < |actions|
    requires actions[i].ByCloser? && actions[i].closer.Snapshot?
    ensures !(actions[j].ByCloser? && actions[j].closer.Snapshot?)
  {
    NothingThaws(states, actions, i + 1, j);
    assert states[i + 1] == Client.Step(states[i], actions[i]);
    assert Client.Enabled(states[j], actions[j]);
  }

  // ----------------------------------------------------------------- cursors

  datatype Poll = Yield(frame: Frame) | Blocked | EndOfRun

  /** One locked look of Stream.Next at cursor position `cursor`. */
  function Look(run: Run, cursor: nat): Poll {
    if cursor < |run.history| then Yield(run.history[cursor])
    else if run.terminal then EndOfRun
    else Blocked
  }

  /** What a cursor has yielded after looking at the run as it stood at `views`. */
  function Yielded(views: seq<Run>): seq<Frame> {
    if views == [] then []
    else
      var seen := Yielded(views[..|views| - 1]);
      match Look(views[|views| - 1], |seen|)
      case Yield(f) => seen + [f]
      case _ => seen
  }

  /** Does the last look report the end of the run? */
  predicate SawEnd(views: seq<Run>) {
    views != [] && Look(views[|views| - 1], |Yielded(views[..|views| - 1])|).EndOfRun?
  }

  lemma {:induction false} CursorFollows(views: seq<Run>, now: Run)
    requires forall i, j :: 0 <= i < j < |views| ==> Evolves(views[i], views[j])
    requires forall v <- views :: Evolves(v, now)
    ensures Yielded(views) <= now.history
    ensures SawEnd(views) ==> Yielded(views) == now.history
    decreases |views|
  {
    if views == [] {
    } else {
      var last := views[|views| - 1];
      CursorFollows(views[..|views| - 1], last);
      assert Evolves(last, now);
    }
  }

  /** However a cursor's looks interleave with the client, it yields the history
      in order without gaps; and when it reports the end of the run it has yielded
      all of the history the run will ever have. */
  lemma CursorYieldsHistory(
    states: seq<State>, actions: seq<Client.Action>, r: RunId, times: seq<nat>, views: seq<Run>, now: nat)
    requires Client.IsRun(states, actions) && |views| == |times|
    requires now < |states| && r in states[now].slots
    requires forall i :: 0 <= i < |times| ==> times[i] <= now
    requires forall i :: 0 <= i < |times| ==> r in states[times[i]].slots && views[i] == states[times[i]].slots[r].run
    requires forall i, j :: 0 <= i < j < |times| ==> times[i] <= times[j]
    ensures Yielded(views) <= states[now].slots[r].run.history
    ensures SawEnd(views) ==> Yielded(views) == states[now].slots[r].run.history
  {
    hide Truthful, Client.IsRun, Yielded, SawEnd;
    forall i, j | 0 <= i < j < |views| ensures Evolves(views[i], views[j]) {
      NothingThaws(states, actions, times[i], times[j]);
      assert SlotEvolves(states[times[i]].slots[r], states[times[j]].slots[r], states[times[i]].close.reason);
    }
    forall i | 0 <= i < |views| ensures Evolves(views[i], states[now].slots[r].run) {
      NothingThaws(states, actions, times[i], now);
      assert SlotEvolves(states[times[i]].slots[r], states[now].slots[r], states[times[i]].close.reason);
    }
    CursorFollows(views, states[now].slots[r].run);
  }
}
