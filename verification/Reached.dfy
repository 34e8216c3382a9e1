/** Reachable states, what leads from one to the next, and what every reachable
    state satisfies. */
module Reached {
  import opened Wrappers
  import opened Attribution
  import opened Retention
  import opened ExactRun
  import opened ClientState
  import opened Phases
  import opened Binding
  import Reader
  import Starter
  import Closing
  import Dispatch
  import Client
  import Frozen
  import Provenance
  import Registration
  import Once
  import Fifo
  import Replay

  ghost predicate Goes(s: State, a: Client.Action, t: State) { Client.Enabled(s, a) && Client.Step(s, a) == t }

  /** Some run of the client ends in the state. */
  ghost predicate Reachable(s: State) {
    exists states: seq<State>, actions: seq<Client.Action> :: Client.IsRun(states, actions) && states[|states| - 1] == s
  }

  /** A run of the machine from any state. */
  ghost predicate IsPath(states: seq<State>, actions: seq<Client.Action>) {
    |states| == |actions| + 1 && forall i :: 0 <= i < |actions| ==> Goes(states[i], actions[i], states[i + 1])
  }

  ghost predicate Leads(s: State, t: State) {
    exists states: seq<State>, actions: seq<Client.Action> ::
      IsPath(states, actions) && states[0] == s && states[|states| - 1] == t
  }

  lemma StartReachable(h: bool, c: nat, n: nat, b: nat)
    ensures Reachable(Init(h, c, n, b))
  {
    var states := [Init(h, c, n, b)];
    var actions: seq<Client.Action> := [];
    assert Client.IsInit(states[0]);
    assert Client.IsRun(states, actions) && states[|states| - 1] == Init(h, c, n, b);
  }

  lemma NextReachable(s: State, a: Client.Action, t: State)
    requires Reachable(s) && Goes(s, a, t)
    ensures Reachable(t)
  {
    hide Client.Enabled, Client.Step;
    var states: seq<State>, actions: seq<Client.Action> :|
      Client.IsRun(states, actions) && states[|states| - 1] == s;
    RunNext(states, actions, a, t);
    assert (states + [t])[|states|] == t;
  }

  lemma RunNext(states: seq<State>, actions: seq<Client.Action>, a: Client.Action, t: State)
    requires Client.IsRun(states, actions) && Goes(states[|states| - 1], a, t)
    ensures Client.IsRun(states + [t], actions + [a])
  {
    hide Client.Enabled, Client.Step;
    var states', actions' := states + [t], actions + [a];
    forall i | 0 <= i < |actions'|
      ensures Client.Enabled(states'[i], actions'[i]) && states'[i + 1] == Client.Step(states'[i], actions'[i])
    {
      if i < |actions| {
        assert states'[i] == states[i] && states'[i + 1] == states[i + 1];
      } else {
        assert states'[i] == states[|states| - 1] && states'[i + 1] == t;
      }
    }
  }

  /** A run followed by a path from its last state. */
  lemma {:induction false} RunThenPath(
    states: seq<State>, actions: seq<Client.Action>, states': seq<State>, actions': seq<Client.Action>)
    requires Client.IsRun(states, actions) && IsPath(states', actions') && states'[0] == states[|states| - 1]
    ensures Client.IsRun(states + states'[1..], actions + actions')
  {
    hide Client.Enabled, Client.Step;
    var all, acts := states + states'[1..], actions + actions';
    forall i | 0 <= i < |acts| ensures Client.Enabled(all[i], acts[i]) && all[i + 1] == Client.Step(all[i], acts[i]) {
      if i < |actions| {
        assert all[i] == states[i] && all[i + 1] == states[i + 1];
      } else {
        var j := i - |actions|;
        assert all[i] == states'[j] && all[i + 1] == states'[j + 1];
        assert Goes(states'[j], actions'[j], states'[j + 1]);
      }
    }
  }

  /** Only ingested frames are resolved. */
  ghost predicate ResolvedOld(s: State) { forall n <- s.ev.ready :: n < |s.log| }

  lemma ReaderResolves(s: State, a: Reader.Action)
    requires ResolvedOld(s) && Reader.Enabled(s, a)
    ensures ResolvedOld(Reader.Step(s, a))
  {
    hide Reserve, Admissible, Parkable, Reader.CanRoute, Retain, Accept;
  }

  lemma ResolveOld(s: State, p: Parked, r: RunId)
    requires ResolvedOld(s) && p.no < |s.log|
    ensures ResolvedOld(Resolve(s, p, r)) && Resolve(s, p, r).log == s.log
  {
    hide AcceptRetained;
    AcceptFrame(s, r, p);
  }

  lemma StarterResolves(s: State, r: RunId, a: Starter.Action)
    requires ResolvedOld(s) && Provenance.ProvenanceInv(s) && Starter.Enabled(s, r, a)
    ensures ResolvedOld(Starter.Step(s, r, a))
  {
    hide Provenance.ProvenanceInv, Resolve, Without, With, Starter.Mine, Starter.KeepOthers, ListLeases, AcceptRetained;
    match a
    case AttachResolve =>
      ListGenuine(s, r, s.slots[r].caller.next);
      ResolveOld(s, s.slots[r].caller.list[s.slots[r].caller.next], r);
    case FinishResolve =>
      ListGenuine(s, r, s.slots[r].caller.finNext);
      ResolveOld(s, s.slots[r].caller.list[s.slots[r].caller.finNext], r);
    case RegisterAccept => AcceptFrame(s, r, s.slots[r].caller.list[s.slots[r].caller.regNext]);
    case _ =>
  }

  lemma PublishedGenuine(s: State, p: Parked)
    requires Provenance.ProvenanceInv(s) && s.close.pub.Draining?
    requires (p in s.close.pub.pending || p in s.close.pub.replay)
    ensures Provenance.TurnFrame(s.log, p) && p.no < |s.log|
  {
  }

  lemma CloserResolves(s: State, a: Closing.Action)
    requires ResolvedOld(s) && Provenance.ProvenanceInv(s) && Closing.Enabled(s, a)
    ensures ResolvedOld(Closing.Step(s, a))
  {
    hide Provenance.ProvenanceInv, Resolve, Release, Closing.CanSnapshot, Concat, ConcatReplays, RetainAll, Leases;
    match a
    case PublishPending =>
      var p := s.close.pub.pending[0];
      PublishedGenuine(s, p);
      if p.no in s.ev.owner { ResolveOld(s, p, s.ev.owner[p.no]); }
    case PublishReplay =>
      var p := s.close.pub.replay[0];
      PublishedGenuine(s, p);
      if p.no in s.ev.owner { ResolveOld(s, p, s.ev.owner[p.no]); }
    case _ =>
  }

  lemma DispatcherResolves(s: State, a: Dispatch.Action)
    requires ResolvedOld(s) && Fifo.QueueInv(s) && Dispatch.Enabled(s, a)
    ensures ResolvedOld(Dispatch.Step(s, a))
  {
    if a.BeginStopping? && s.q.disp.Holding? { assert s.q.disp.e.frame < |s.log|; }
    hide Fifo.QueueInv, FinishRun;
  }

  lemma {:induction false} AlwaysOld(states: seq<State>, actions: seq<Client.Action>, i: nat)
    requires Client.IsRun(states, actions) && i < |states|
    ensures ResolvedOld(states[i])
  {
    hide ResolvedOld, Fifo.QueueInv, Provenance.ProvenanceInv;
    hide Reader.Enabled, Reader.Step, Starter.Enabled, Starter.Step;
    hide Closing.Enabled, Closing.Step, Dispatch.Enabled, Dispatch.Step;
    if i == 0 {
      InitOld(states[0]);
    } else {
      var s := states[i - 1];
      AlwaysOld(states, actions, i - 1);
      Provenance.AlwaysGenuine(states, actions, i - 1);
      Fifo.AlwaysAccounted(states, actions, i - 1);
      match actions[i - 1]
      case ByReader(a) => ReaderResolves(s, a);
      case ByStarter(r, a) => StarterResolves(s, r, a);
      case ByCloser(a) => CloserResolves(s, a);
      case ByDispatcher(a) => DispatcherResolves(s, a);
    }
  }

  lemma InitOld(s: State)
    requires Client.IsInit(s)
    ensures ResolvedOld(s)
  {
  }

  lemma ListGenuine(s: State, r: RunId, i: nat)
    requires Provenance.ProvenanceInv(s) && r in s.slots && (s.slots[r].caller.Replay? || s.slots[r].caller.FinResolve?)
    requires i < |s.slots[r].caller.list|
    ensures Provenance.TurnFrame(s.log, s.slots[r].caller.list[i]) && s.slots[r].caller.list[i].no < |s.log|
  {
    hide Provenance.ProvenanceInv, Provenance.HistoryOk;
    Provenance.SlotAt(s, r);
    assert s.slots[r].caller.list[i] in s.slots[r].caller.list;
  }

  /** The invariants that hold in every reachable state. */
  ghost predicate Base(s: State) {
    && Frozen.CloseInv(s) && PhaseInv(s) && Registration.RegistryInv(s) && Provenance.ProvenanceInv(s)
    && Once.OnceInv(s) && BindingInv(s) && Fifo.QueueInv(s) && ResolvedOld(s)
  }

  lemma AlwaysBase(states: seq<State>, actions: seq<Client.Action>, i: nat)
    requires Client.IsRun(states, actions) && i < |states|
    ensures Base(states[i])
  {
    hide Client.IsRun, Once.OnceInv, PhaseInv, Registration.RegistryInv, Provenance.ProvenanceInv, Frozen.CloseInv;
    hide BindingInv, Fifo.QueueInv, ResolvedOld;
    AlwaysPhased(states, actions, i);
    Frozen.CauseIffClosed(states, actions, i);
    Provenance.AlwaysGenuine(states, actions, i);
    Registration.AlwaysAgrees(states, actions, i);
    Once.AlwaysOnce(states, actions, i);
    AlwaysBound(states, actions, i);
    Fifo.AlwaysAccounted(states, actions, i);
    AlwaysOld(states, actions, i);
  }

  lemma ReachableBase(s: State)
    requires Reachable(s)
    ensures Base(s)
  {
    hide Base, Client.Enabled, Client.Step;
    var states: seq<State>, actions: seq<Client.Action> :|
      Client.IsRun(states, actions) && states[|states| - 1] == s;
    AlwaysBase(states, actions, |states| - 1);
  }

  lemma Nonempty(states: seq<State>, actions: seq<Client.Action>)
    requires Client.IsRun(states, actions)
    ensures |states| == |actions| + 1
  {
  }

  /** One step of a run. */
  lemma StepAt(states: seq<State>, actions: seq<Client.Action>, i: nat)
    requires Client.IsRun(states, actions) && i < |actions|
    ensures |states| == |actions| + 1 && Goes(states[i], actions[i], states[i + 1])
  {
    hide Client.Enabled, Client.Step;
  }

  predicate Creates(a: Client.Action, r: RunId) { a.ByStarter? && a.r == r && a.starter.CreateRun? }

  /** Runs appear only by being created. */
  lemma Appears(s: State, a: Client.Action, r: RunId)
    requires Client.Enabled(s, a) && r !in s.slots && r in Client.Step(s, a).slots
    ensures Creates(a, r)
  {
    hide FinishRun, Resolve, AcceptRetained, Starter.DoAttachPublish, Starter.DoFinishCollect, Starter.DoUnregister;
    hide Starter.DoRegister, Starter.Enabled, Reader.Enabled, Closing.Enabled, Dispatch.Enabled, ListLeases;
    hide Closing.DoSnapshot;
    hide Reader.DoReaderAccept, Reader.DoRoute, Reader.DoArmTurn, Reader.DoArmThread, Reader.DoReaderEnqueue, Release;
    match a
    case ByReader(b) => Replay.ReaderKeys(s, b);
    case ByStarter(q, b) => Replay.StarterKeys(s, q, b);
    case ByCloser(b) => Replay.CloserKeys(s, b);
    case ByDispatcher(b) => Replay.DispatcherKeys(s, b);
  }
}
