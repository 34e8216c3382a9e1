/** Evidence stays in scope, and none on its way is passed over: what a run's history
    may contain, which runs a frame is delivered to, and that each of them gets it. */
module Scope {
  import opened Wrappers
  import opened Attribution
  import opened Retention
  import opened ExactRun
  import opened ClientState
  import opened Phases
  import opened Registration
  import opened Binding
  import opened Reached
  import Reader
  import Starter
  import Closing
  import Dispatch
  import Client
  import Fifo
  import Totals
  import Frozen
  import Once
  import Provenance

  // --------------------------------------------------------- what a run recorded

  ghost predicate AllTruthful(slots: Slots) { forall r <- slots :: Truthful(slots[r].run) }

  lemma StepTruthful(s: State, a: Client.Action)
    requires AllTruthful(s.slots) && Frozen.CloseInv(s) && Client.Enabled(s, a)
    ensures AllTruthful(Client.Step(s, a).slots)
  {
    hide Truthful, Client.Enabled, Client.Step, Frozen.CloseInv;
    Frozen.Steps(s, a);
    var s' := Client.Step(s, a);
    forall r <- s'.slots ensures Truthful(s'.slots[r].run) {
      if r in s.slots {
        assert Frozen.SlotEvolves(s.slots[r], s'.slots[r], s.close.reason);
      } else {
        Appears(s, a, r);
        CreatesNew(s, a, r);
        NewIsTruthful(a.starter.thread);
      }
    }
  }

  lemma CreatesNew(s: State, a: Client.Action, r: RunId)
    requires Client.Enabled(s, a) && Creates(a, r)
    ensures r in Client.Step(s, a).slots && Client.Step(s, a).slots[r].run == NewRun(a.starter.thread)
  {
  }

  lemma NobodyYet(s: State)
    requires Client.IsInit(s)
    ensures s.slots == map[]
  {
  }

  /** In every reachable state what each run has recorded is what its history says:
      its usage is that of the last frame reporting one, and its final response and
      turn are those of the completed turn that ends the history. */
  lemma {:induction false} AlwaysTruthful(states: seq<State>, actions: seq<Client.Action>, i: nat)
    requires Client.IsRun(states, actions) && i < |states|
    ensures forall r <- states[i].slots :: UsageIsLast(states[i].slots[r].run) && EndIsRecorded(states[i].slots[r].run)
    ensures AllTruthful(states[i].slots)
  {
    hide UsageIsLast, EndIsRecorded, InScope, Client.Enabled, Client.Step, Frozen.CloseInv;
    if i == 0 {
      NobodyYet(states[0]);
    } else {
      AlwaysTruthful(states, actions, i - 1);
      Frozen.CauseIffClosed(states, actions, i - 1);
      StepTruthful(states[i - 1], actions[i - 1]);
    }
  }

  /** In every reachable state each accepted frame is of a known kind, names a thread
      or a turn, names no thread but the run's, and no turn but the one the run's
      turn/start response named. */
  lemma HistoryInScope(states: seq<State>, actions: seq<Client.Action>, i: nat, r: RunId, f: Frame)
    requires Client.IsRun(states, actions) && i < |states| && r in states[i].slots
    requires f in states[i].slots[r].run.history
    ensures f.note.known && (f.note.threadId != "" || f.note.turnId != "")
    ensures f.note.threadId == "" || f.note.threadId == states[i].slots[r].run.threadId
    ensures f.note.turnId == ""
            || (states[i].slots[r].arm.Some? && states[i].slots[r].arm.value.turn == f.note.turnId)
  {
    hide Client.IsRun, UsageIsLast, EndIsRecorded, BindingInv;
    AlwaysTruthful(states, actions, i);
    AlwaysBound(states, actions, i);
    Binding.SlotAt(states[i], r);
    assert Truthful(states[i].slots[r].run);
  }

  // ------------------------------------------------------------ who gets a frame

  ghost predicate IsRegistered(s: State, r: RunId) {
    || (exists t :: t in s.reg.streams && r in s.reg.streams[t])
    || (exists t :: t in s.reg.attaching && r in s.reg.attaching[t])
  }

  /** A registered run of the thread and turn the frame names, as far as it names any;
      a frame of unknown kind or naming neither is for nobody. */
  ghost predicate Receives(s: State, r: RunId, note: Note) {
    && note.known && (note.threadId != "" || note.turnId != "")
    && r in s.slots && IsRegistered(s, r)
    && (note.threadId == "" || note.threadId == s.slots[r].run.threadId)
    && (note.turnId == "" || note.turnId == s.slots[r].run.turnId)
  }

  lemma TargetReceives(s: State, note: Note, r: RunId)
    requires RegistryInv(s) && (ClassOf(note).Turn? || ClassOf(note).Thread?)
    requires r in StreamTargets(s, note) + AttachTargets(s, note)
    ensures Receives(s, r, note)
  {
    hide LiveRegistered, ArmedOk, KeysOk, ParkedOk, Emptied;
    if r in StreamTargets(s, note) {
      var t :| t in s.reg.streams && r in s.reg.streams[t];
      assert IsRegistered(s, r);
    } else {
      var t :| t in s.reg.attaching && r in s.reg.attaching[t];
      assert IsRegistered(s, r);
    }
  }

  lemma ReceiverIsTarget(s: State, note: Note, r: RunId)
    requires RegistryInv(s) && (ClassOf(note).Turn? || ClassOf(note).Thread?) && Receives(s, r, note)
    ensures r in StreamTargets(s, note) + AttachTargets(s, note)
  {
    hide LiveRegistered, ArmedOk, KeysOk, ParkedOk, Emptied;
    assert Matches(s, r, note);
    if t :| t in s.reg.streams && r in s.reg.streams[t] {
      assert s.slots[r].run.turnId == t;
      assert ClassOf(note).Turn? ==> r in Under(s.reg.streams, note.turnId);
      assert r in StreamTargets(s, note);
    } else {
      var t :| t in s.reg.attaching && r in s.reg.attaching[t];
      assert r in AttachTargets(s, note);
    }
  }

  /** The two scans of the registries find exactly these. */
  lemma TargetsReceive(s: State, note: Note, r: RunId)
    requires RegistryInv(s) && (ClassOf(note).Turn? || ClassOf(note).Thread?)
    ensures r in StreamTargets(s, note) + AttachTargets(s, note) <==> Receives(s, r, note)
  {
    hide *;
    if r in StreamTargets(s, note) + AttachTargets(s, note) { TargetReceives(s, note, r); }
    if Receives(s, r, note) { ReceiverIsTarget(s, note, r); }
  }

  lemma OrderReceives(s: State, note: Note, order: seq<RunId>, r: RunId)
    requires RegistryInv(s) && Reader.CanRoute(s, note, order)
    ensures r in order <==> Receives(s, r, note)
  {
    hide RegistryInv, StreamTargets, AttachTargets, IsRegistered;
    if ClassOf(note).Turn? || ClassOf(note).Thread? { TargetsReceive(s, note, r); }
    assert r in order <==> r in multiset(order);
  }

  // -------------------------------------------------------- every receiver gets it

  /** The run can accept nothing any more. */
  predicate Over(run: Run) { run.terminal || run.terminalAdmitted }

  /** The frame in the reader's hands has been offered to the run, or still will be:
      it is accepted, the run was over, or the budget refused a frame. */
  ghost predicate Served(s: State, r: RunId) {
    && s.reader.Routed? && r in s.slots
    && (|| r in s.reader.targets || Once.Accepted(s.slots[r].run, s.reader.frame) || Over(s.slots[r].run)
        || s.reader.failed.Some? || s.close.closed)
  }

  /** The frame still names the run's thread if it names any. */
  predicate Fits(s: State, r: RunId) {
    s.reader.Routed? && r in s.slots ==>
      s.reader.note.known && (s.reader.note.threadId != "" || s.reader.note.turnId != "")
      && (s.reader.note.threadId == "" || s.reader.note.threadId == s.slots[r].run.threadId)
  }

  /** Whoever is offered the frame next still matches it. */
  lemma NextMatches(s: State)
    requires BindingInv(s) && PhaseInv(s) && Reader.CanReaderAccept(s) && Fits(s, s.reader.targets[0])
    requires s.reader.targets[0] in s.slots
    ensures var run := s.slots[s.reader.targets[0]].run;
            ClassOf(s.reader.note) != Unsupported && MatchesRun(s.reader.note, run.threadId, run.turnId)
  {
    hide SlotsBound, OwnersBound, PhaseInv;
    var r := s.reader.targets[0];
    assert r in s.reader.targets;
    PhasedAt(s, r);
  }

  lemma AcceptServes(s: State, bytes: nat, r: RunId)
    requires BindingInv(s) && PhaseInv(s) && Reader.CanReaderAccept(s) && Served(s, r) && Fits(s, r)
    ensures Served(Reader.DoReaderAccept(s, bytes), r)
  {
    hide BindingInv, PhaseInv, Reserve, Retain, MatchesRun, ClassOf, Accept;
    var q := s.reader.targets[0];
    var s' := Reader.DoReaderAccept(s, bytes);
    if q == r {
      NextMatches(s);
      if !Over(s.slots[r].run) && Reserve(s.mem.budget, 3, bytes).1.Some? {
        var frame := Frame(s.reader.frame, s.reader.note);
        AcceptAppends(s.slots[r].run, frame, Reserve(s.mem.budget, 3, bytes).1.value);
        assert s'.slots[r].run.history[|s.slots[r].run.history|] == frame;
      }
    } else {
      assert s'.slots[r] == s.slots[r];
    }
  }

  lemma AcceptAppends(run: Run, f: Frame, l: LeaseId)
    requires Admissible(run, f.note)
    ensures Accept(run, f, l).0.history == run.history + [f]
  {
    hide Admissible;
  }

  lemma OthersKeepReader(s: State, a: Client.Action)
    requires Client.Enabled(s, a) && !a.ByReader?
    ensures Client.Step(s, a).reader == s.reader
  {
    hide Starter.Enabled, Starter.Step, Resolve, FinishRun, Release, DiscardFirst, Closing.CanSnapshot;
    match a
    case ByStarter(r, b) => Fifo.StarterFrame(s, r, b);
    case ByCloser(b) => CloserKeepsReader(s, b);
    case ByDispatcher(b) => DispatcherKeepsReader(s, b);
  }

  lemma CloserKeepsReader(s: State, a: Closing.Action)
    requires Closing.Enabled(s, a)
    ensures Closing.Step(s, a).reader == s.reader
  {
    hide AcceptRetained, Release, Closing.CanSnapshot, Concat, ConcatReplays, RetainAll, Closing.MarkAll, Totals.Union;
    match a
    case PublishPending =>
      var p := s.close.pub.pending[0];
      if p.no in s.ev.owner { ResolveFrame(s, p, s.ev.owner[p.no]); }
    case PublishReplay =>
      var p := s.close.pub.replay[0];
      if p.no in s.ev.owner { ResolveFrame(s, p, s.ev.owner[p.no]); }
    case _ =>
  }

  lemma DispatcherKeepsReader(s: State, a: Dispatch.Action)
    requires Dispatch.Enabled(s, a)
    ensures Dispatch.Step(s, a).reader == s.reader
  {
  }

  /** The reader goes on with the same frame. */
  predicate Continues(s: State, a: Client.Action) {
    a.ByReader? ==> a.reader.Accept? || a.reader.Claim?
  }

  lemma RunsOnServed(s: State, t: State, r: RunId)
    requires Served(s, r) && Fits(s, r) && Frozen.RunsEvolve(s, t) && (s.close.closed ==> t.close.closed)
    requires t.reader == s.reader
    ensures Served(t, r) && Fits(t, r)
  {
    hide Truthful;
    assert Frozen.SlotEvolves(s.slots[r], t.slots[r], s.close.reason);
    StillAccepted(s.slots[r].run, t.slots[r].run, s.reader.frame);
  }

  lemma StillAccepted(a: Run, b: Run, no: nat)
    requires a.history <= b.history
    ensures Once.Accepted(a, no) ==> Once.Accepted(b, no)
  {
    if Once.Accepted(a, no) {
      var k :| 0 <= k < |a.history| && a.history[k].no == no;
      assert b.history[k].no == no;
    }
  }

  lemma AcceptFits(s: State, bytes: nat, r: RunId)
    requires Reader.CanReaderAccept(s) && Fits(s, r)
    ensures Fits(Reader.DoReaderAccept(s, bytes), r)
  {
    hide Reserve, Retain, MatchesRun, ClassOf;
  }

  lemma StepServes(s: State, a: Client.Action, t: State, r: RunId)
    requires Base(s) && Goes(s, a, t) && Continues(s, a) && Served(s, r) && Fits(s, r)
    ensures Served(t, r) && Fits(t, r)
  {
    hide Base, Served, Fits, BindingInv, PhaseInv, Frozen.CloseInv, Frozen.CloseEvolves, Frozen.RunsEvolve;
    hide Reader.CanReaderAccept, Reader.DoReaderAccept;
    Parts(s);
    if a.ByReader? && a.reader.Accept? {
      AcceptServes(s, a.reader.bytes, r);
      AcceptFits(s, a.reader.bytes, r);
    } else if a.ByReader? {
      ClaimServes(s, r);
    } else {
      OthersKeepReader(s, a);
      Frozen.Steps(s, a);
      ClosedStays(s, t);
      RunsOnServed(s, t, r);
    }
  }

  lemma Parts(s: State)
    requires Base(s)
    ensures BindingInv(s) && PhaseInv(s) && Frozen.CloseInv(s) && RegistryInv(s)
  {
  }

  lemma ClosedStays(s: State, t: State)
    requires Frozen.CloseEvolves(s.close, t.close)
    ensures s.close.closed ==> t.close.closed
  {
  }

  lemma ClaimServes(s: State, r: RunId)
    requires Reader.CanReaderClaim(s) && Served(s, r) && Fits(s, r)
    ensures Served(Reader.DoReaderClaim(s), r) && Fits(Reader.DoReaderClaim(s), r)
  {
  }

  lemma RouteServes(s: State, note: Note, order: seq<RunId>, bytes: nat, r: RunId)
    requires RegistryInv(s) && Reader.CanRoute(s, note, order) && Receives(s, r, note)
    ensures var t := Reader.DoRoute(s, note, order, bytes);
            Served(t, r) && Fits(t, r) && t.reader.Routed? && t.reader.frame == |s.log| && t.reader.note == note
  {
    hide RegistryInv, Reserve, Parkable, Reader.CanRoute, IsRegistered;
    OrderReceives(s, note, order, r);
  }

  /** From its routing on, while the reader has the frame, each run that was to
      receive it has accepted it, is still to be offered it, or was over, unless the
      budget refused a frame or the client closed. */
  lemma {:induction false} AlwaysServed(
    states: seq<State>, actions: seq<Client.Action>, i: nat, j: nat, note: Note, order: seq<RunId>, bytes: nat, r: RunId)
    requires Client.IsRun(states, actions) && i < j < |states|
    requires actions[i] == Client.ByReader(Reader.Route(note, order, bytes)) && Receives(states[i], r, note)
    requires forall k :: i < k < j ==> Continues(states[k], actions[k])
    ensures Served(states[j], r) && Fits(states[j], r)
    ensures states[j].reader.Routed? && states[j].reader.frame == |states[i].log| && states[j].reader.note == note
    decreases j
  {
    hide Base, Served, Fits, Receives, RegistryInv, BindingInv, PhaseInv, Frozen.CloseInv;
    hide Client.Enabled, Client.Step, Reader.CanRoute, Reader.DoRoute;
    AlwaysBase(states, actions, j - 1);
    Parts(states[j - 1]);
    StepAt(states, actions, j - 1);
    if j == i + 1 {
      RouteAt(states[i], note, order, bytes);
      RouteServes(states[i], note, order, bytes, r);
    } else {
      AlwaysServed(states, actions, i, j - 1, note, order, bytes, r);
      StepServes(states[j - 1], actions[j - 1], states[j], r);
      FrameStays(states[j - 1], actions[j - 1]);
      HasFrame(states[j], r);
    }
  }

  lemma HasFrame(s: State, r: RunId)
    requires Served(s, r)
    ensures s.reader.Routed?
  {
  }

  lemma RouteAt(s: State, note: Note, order: seq<RunId>, bytes: nat)
    requires Client.Enabled(s, Client.ByReader(Reader.Route(note, order, bytes)))
    ensures Reader.CanRoute(s, note, order)
    ensures Client.Step(s, Client.ByReader(Reader.Route(note, order, bytes))) == Reader.DoRoute(s, note, order, bytes)
  {
    hide Reader.CanRoute, Reader.DoRoute;
  }

  lemma FrameStays(s: State, a: Client.Action)
    requires Client.Enabled(s, a) && Continues(s, a) && s.reader.Routed?
    ensures var rd := Client.Step(s, a).reader;
            rd.Routed? ==> rd.frame == s.reader.frame && rd.note == s.reader.note
  {
    hide Starter.Enabled, Starter.Step, Closing.Enabled, Closing.Step, Dispatch.Enabled, Dispatch.Step;
    hide Reserve, AcceptRetained, Admissible;
    if !a.ByReader? { OthersKeepReader(s, a); }
  }

  /** A frame that has been through the reader with nothing refused is in the history
      of every run it was for that could still accept it. */
  lemma EveryReceiverAccepts(
    states: seq<State>, actions: seq<Client.Action>, i: nat, j: nat, note: Note, order: seq<RunId>, bytes: nat, r: RunId)
    requires Client.IsRun(states, actions) && i < j < |states|
    requires actions[i] == Client.ByReader(Reader.Route(note, order, bytes)) && Receives(states[i], r, note)
    requires forall k :: i < k < j ==> Continues(states[k], actions[k])
    requires states[j].reader.Routed? && states[j].reader.targets == []
    requires states[j].reader.failed.None? && !states[j].close.closed
    ensures r in states[j].slots
    ensures Once.Accepted(states[j].slots[r].run, |states[i].log|) || Over(states[j].slots[r].run)
  {
    hide Client.IsRun, Receives, Once.Accepted;
    AlwaysServed(states, actions, i, j, note, order, bytes, r);
  }
}
