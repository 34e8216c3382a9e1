/** When order through attachment is lost, exactly. A failure snapshot that overtakes
    a live frame of a run always has a continuation in which the run accepts that
    frame before the frames it took, and a stop that skips a frame always has one in
    which a later frame is accepted without it; every other snapshot and stop keeps
    the order of the run in all continuations. */
module Exactness {
  import opened Wrappers
  import opened Attribution
  import opened Retention
  import opened ExactRun
  import opened ClientState
  import opened Phases
  import opened Binding
  import opened Focus
  import opened Reached
  import opened Order
  import opened Gapless
  import Reader
  import Starter
  import Closing
  import Dispatch
  import Client
  import Frozen
  import Provenance
  import Registration
  import Once
  import Fifo

  /** A path on which no step loses frames of the run. */
  ghost predicate IsSafePath(states: seq<State>, actions: seq<Client.Action>, r: RunId) {
    IsPath(states, actions) && forall j :: 0 <= j < |actions| ==> !Loses(states[j], actions[j], r)
  }

  ghost predicate LeadsSafely(s: State, t: State, r: RunId) {
    exists states: seq<State>, actions: seq<Client.Action> ::
      IsSafePath(states, actions, r) && states[0] == s && states[|states| - 1] == t
  }

  lemma SafelySelf(s: State, r: RunId)
    ensures LeadsSafely(s, s, r)
  {
    var states := [s];
    var actions: seq<Client.Action> := [];
    assert IsSafePath(states, actions, r) && states[0] == s && states[|states| - 1] == s;
  }

  lemma SafelyNext(s: State, t: State, a: Client.Action, u: State, r: RunId)
    requires LeadsSafely(s, t, r) && Goes(t, a, u) && !Loses(t, a, r)
    ensures LeadsSafely(s, u, r)
  {
    hide Goes, Loses;
    var states: seq<State>, actions: seq<Client.Action> :|
      IsSafePath(states, actions, r) && states[0] == s && states[|states| - 1] == t;
    var states', actions' := states + [u], actions + [a];
    forall i | 0 <= i < |actions'|
      ensures Goes(states'[i], actions'[i], states'[i + 1]) && !Loses(states'[i], actions'[i], r)
    {
      if i < |actions| {
        assert states'[i] == states[i] && states'[i + 1] == states[i + 1] && actions'[i] == actions[i];
      } else {
        assert states'[i] == t && states'[i + 1] == u && actions'[i] == a;
      }
    }
    assert IsSafePath(states', actions', r) && states'[0] == s && states'[|states'| - 1] == u;
  }

  lemma SafelyLeads(s: State, t: State, r: RunId)
    requires LeadsSafely(s, t, r)
    ensures Leads(s, t)
  {
    hide Goes, Loses;
    var states: seq<State>, actions: seq<Client.Action> :|
      IsSafePath(states, actions, r) && states[0] == s && states[|states| - 1] == t;
  }

  // ------------------------------------------------------ all continuations

  /** Closing ends binding: an unshared run stays unshared. */
  lemma {:induction false} StaysUnshared(states: seq<State>, actions: seq<Client.Action>, i: nat, j: nat, r: RunId)
    requires Client.IsRun(states, actions) && i <= j < |states| && states[i].close.closed
    requires r in states[i].slots && !Shared(states[i].slots, r)
    ensures r in states[j].slots && !Shared(states[j].slots, r) && states[j].close.closed
    decreases j
  {
    hide Client.IsRun, Client.Enabled, Client.Step, Shared, Base, Frozen.RunsEvolve, Frozen.CloseEvolves;
    Nonempty(states, actions);
    if i < j {
      StaysUnshared(states, actions, i, j - 1, r);
      AlwaysBase(states, actions, j - 1);
      StepAt(states, actions, j - 1);
      UnsharedStep(states[j - 1], actions[j - 1], r);
      Frozen.NothingThaws(states, actions, j - 1, j);
      assert Frozen.CloseEvolves(states[j - 1].close, states[j].close);
      ClosedStays(states[j - 1].close, states[j].close);
    }
  }

  lemma ClosedStays(a: Close, b: Close)
    requires Frozen.CloseEvolves(a, b)
    ensures a.closed ==> b.closed
    ensures Frozen.Phase(a.pub) <= Frozen.Phase(b.pub)
  {
  }

  lemma UnsharedStep(s: State, a: Client.Action, r: RunId)
    requires Base(s) && Client.Enabled(s, a) && s.close.closed && r in s.slots && !Shared(s.slots, r)
    ensures r in Client.Step(s, a).slots && !Shared(Client.Step(s, a).slots, r)
  {
    hide Client.Enabled, Client.Step, Shared, BindingInv;
    StepBinds(s, a);
    if Shared(Client.Step(s, a).slots, r) { SharedBefore(s.slots, Client.Step(s, a).slots, r); }
  }

  /** A step from the end of a run, and a path from there. */
  lemma Continued(
    states: seq<State>, actions: seq<Client.Action>, a: Client.Action, states': seq<State>,
        actions': seq<Client.Action>)
    returns (all: seq<State>, acts: seq<Client.Action>)
    requires Client.IsRun(states, actions) && IsPath(states', actions') && Goes(states[|states| - 1], a, states'[0])
    ensures Client.IsRun(all, acts) && |all| == |acts| + 1 && |acts| == |actions| + 1 + |actions'|
    ensures all[|acts|] == states'[|actions'|] && acts[|actions|] == a
    ensures forall j :: 0 <= j <= |actions| ==> all[j] == states[j]
    ensures forall j :: 0 <= j < |actions| ==> acts[j] == actions[j]
    ensures forall j :: 0 <= j < |actions'| ==>
              all[|actions| + 1 + j] == states'[j] && acts[|actions| + 1 + j] == actions'[j]
  {
    hide Client.Enabled, Client.Step;
    RunNext(states, actions, a, states'[0]);
    RunThenPath(states + [states'[0]], actions + [a], states', actions');
    all := states + [states'[0]] + states'[1..];
    acts := actions + [a] + actions';
  }

  /** Nothing is lost before the failure snapshot. */
  lemma NothingLostYet(states: seq<State>, actions: seq<Client.Action>, k: nat, j: nat, r: RunId)
    requires Client.IsRun(states, actions) && j < k < |states| && states[k].close.pub.Claimed?
    ensures j < |actions| && !IsSnapshot(actions[j]) && !IsStop(actions[j])
  {
    hide Client.IsRun, Frozen.RunsEvolve, Frozen.CloseEvolves, Base, Client.Enabled, Client.Step;
    Nonempty(states, actions);
    StepAt(states, actions, j);
    Frozen.NothingThaws(states, actions, j, k);
    Frozen.NothingThaws(states, actions, j + 1, k);
    ClosedStays(states[j].close, states[k].close);
    ClosedStays(states[j + 1].close, states[k].close);
    AlwaysBase(states, actions, j);
    Draws(states[j], actions[j]);
  }

  /** A snapshot sets the publisher going; a stop comes after it is done. */
  lemma Draws(s: State, a: Client.Action)
    requires Base(s) && Client.Enabled(s, a)
    ensures IsSnapshot(a) ==> Client.Step(s, a).close.pub.Draining?
    ensures IsStop(a) ==> s.close.pub.Published?
  {
    hide Registration.RegistryInv, PhaseInv, Provenance.ProvenanceInv, Once.OnceInv, BindingInv;
    hide Fifo.QueueInv, ResolvedOld;
    hide Closing.CanSnapshot, Concat, ConcatReplays, RetainAll, Leases, Closing.MarkAll, Reader.Step, Starter.Step;
    hide Reader.Enabled, Starter.Enabled;
  }

  /** A snapshot that does not invert a run's frames keeps their order in every
      continuation. */
  lemma SnapshotKeepsOrder(s: State, a: Client.Action, t: State, r: RunId)
    requires Reachable(s) && Client.Enabled(s, a) && IsSnapshot(a) && r in s.slots && !Shared(s.slots, r)
    requires !Closing.Inverts(s, r) && Leads(Client.Step(s, a), t) && s.close.pub.Claimed? && s.close.closed
    ensures r in t.slots && Rising(TurnNos(t.slots[r].run.history))
  {
    hide Client.Enabled, Client.Step, Shared, Closing.Inverts, Rising;
    var states: seq<State>, actions: seq<Client.Action> :| Client.IsRun(states, actions) && states[|states| - 1] == s;
    Nonempty(states, actions);
    var states': seq<State>, actions': seq<Client.Action> :|
      IsPath(states', actions') && states'[0] == Client.Step(s, a) && states'[|states'| - 1] == t;
    var all, acts := Continued(states, actions, a, states', actions');
    var k := |actions|;
    hide Client.IsRun;
    StaysUnshared(all, acts, k, |acts|, r);
    forall j | 0 <= j < |acts| && IsSnapshot(acts[j]) ensures !Closing.Inverts(all[j], r) {
      if j < k { Frozen.OneSnapshot(all, acts, j, k); } else if j > k { Frozen.OneSnapshot(all, acts, k, j); }
    }
    TurnFramesInOrder(all, acts, |acts|, r);
  }

  /** A step that loses no frame of a run that lost none keeps it whole in every
      continuation that loses none. */
  lemma KeepsWhole(
    states: seq<State>, actions: seq<Client.Action>, a: Client.Action, t: State, r: RunId)
    requires Client.IsRun(states, actions) && NeverLost(states, actions, |actions|, r)
    requires var s := states[|actions|];
             && Client.Enabled(s, a) && r in s.slots && !Shared(s.slots, r) && s.close.closed && !Loses(s, a, r)
             && LeadsSafely(Client.Step(s, a), t, r)
    ensures r in t.slots && Whole(t, r)
  {
    hide Client.Enabled, Client.Step, Shared, Loses, Whole;
    var s := states[|actions|];
    var states': seq<State>, actions': seq<Client.Action> :|
      IsSafePath(states', actions', r) && states'[0] == Client.Step(s, a) && states'[|states'| - 1] == t;
    var all, acts := Continued(states, actions, a, states', actions');
    var k := |actions|;
    hide Client.IsRun;
    StaysUnshared(all, acts, k, |acts|, r);
    forall j | 0 <= j < |acts| ensures !Loses(all[j], acts[j], r) {
      if j > k { assert all[j] == states'[j - k - 1] && acts[j] == actions'[j - k - 1]; }
    }
    TurnFramesWithoutGaps(all, acts, |acts|, r);
  }

  // ----------------------------------------------- the overtaking continuation

  /** The run has attached and accepted turn frame `m`, and an earlier frame of it
      waits with the publisher. */
  ghost predicate Overdue(s: State, r: RunId, m: nat, n: nat) {
    && r in s.slots && s.slots[r].caller.Attached? && !Stopped(s.slots[r].run)
    && m in TurnNos(s.slots[r].run.history)
    && s.close.pub.Draining? && InList(s.close.pub.pending, n) && Open(s.ev, r, n)
    && forall k: nat :: Open(s.ev, r, k) ==> k < m
  }

  lemma PublishGoes(s: State)
    requires s.close.pub.Draining? && s.close.pub.pending != []
    ensures Goes(s, Client.ByCloser(Closing.PublishPending), Closing.DoPublishPending(s))
  {
    hide Closing.DoPublishPending;
  }

  lemma HarmlessAction(s: State, a: Client.Action, r: RunId)
    requires !IsSnapshot(a) && !IsStop(a)
    ensures !Loses(s, a, r)
  {
    hide Closing.Overtakes, Dispatch.Skips;
  }

  lemma {:induction false} LaterFirst(history: seq<Frame>, f: Frame, m: nat)
    requires m in TurnNos(history) && f.no < m && IsTurn(f)
    ensures !Rising(TurnNos(history + [f])) && m in TurnNos(history + [f])
  {
    TurnNosAppend(history, f);
    var list := TurnNos(history);
    var i :| 0 <= i < |list| && list[i] == m;
    assert TurnNos(history + [f])[i] == m && TurnNos(history + [f])[|list|] == f.no;
  }

  /** Open evidence is admissible for a run that still takes frames. */
  lemma EvidenceAdmissible(s: State, r: RunId, p: Parked)
    requires PhaseInv(s) && BindingInv(s) && Open(s.ev, r, p.no) && Provenance.TurnFrame(s.log, p)
    requires r in s.slots && !Stopped(s.slots[r].run)
    ensures Admissible(s.slots[r].run, p.note) && IsTurn(Frame(p.no, p.note))
  {
    PhasedAt(s, r);
    assert OwnersBound(s.log, s.slots, s.ev.owner);
    assert OfTurn(s.slots, r, s.log[p.no]);
    hide PhaseInv, BindingInv;
  }

  /** The publisher's next frame is the run's, or somebody else's. */
  lemma PublishesOne(s: State, r: RunId, m: nat, n: nat)
    requires Base(s) && Overdue(s, r, m, n)
    ensures var t := Closing.DoPublishPending(s);
            && s.close.pub.pending != [] && t.close.pub.Draining? && |t.close.pub.pending| < |s.close.pub.pending|
            && (Overdue(t, r, m, n) || (r in t.slots && !Rising(TurnNos(t.slots[r].run.history))))
  {
    hide Registration.RegistryInv, PhaseInv, Provenance.ProvenanceInv, Once.OnceInv, BindingInv;
    hide Fifo.QueueInv, Frozen.CloseInv;
    hide Resolve, TurnNos, Rising, Taking;
    var p := s.close.pub.pending[0];
    var x := s.slots[r];
    PublishedGenuine(s, p);
    TailHolds(s.close.pub.pending, n);
    if Open(s.ev, r, p.no) {
      EvidenceAdmissible(s, r, p);
      ResolveShape(s, p, r);
      TakesFrame(x, p);
      LaterFirst(x.run.history, Frame(p.no, p.note), m);
    } else if p.no in s.ev.owner {
      var q := s.ev.owner[p.no];
      if p.no in s.ev.ready {
        ResolveNoop(s, p, q);
      } else {
        assert q in s.slots by { OwnerIn(s, p.no); }
        ResolveShape(s, p, q);
        OpenLess(s.ev, Resolve(s, p, q).ev, r, p.no);
      }
    }
  }

  lemma OwnerIn(s: State, no: nat)
    requires BindingInv(s) && no in s.ev.owner
    ensures s.ev.owner[no] in s.slots
  {
    assert OwnersBound(s.log, s.slots, s.ev.owner);
  }

  lemma {:induction false} PublishesLate(s: State, t: State, r: RunId, m: nat, n: nat)
    requires Reachable(t) && LeadsSafely(s, t, r) && Overdue(t, r, m, n)
    ensures exists u :: LeadsSafely(s, u, r) && r in u.slots && !Rising(TurnNos(u.slots[r].run.history))
    decreases if t.close.pub.Draining? then |t.close.pub.pending| else 0
  {
    hide Reachable, Base, Goes, Loses, Overdue, Closing.DoPublishPending, LeadsSafely, Rising, TurnNos;
    var a := Client.ByCloser(Closing.PublishPending);
    ReachableBase(t);
    Draining(t, r, m, n);
    PublishesOne(t, r, m, n);
    PublishGoes(t);
    var u := Closing.DoPublishPending(t);
    NextReachable(t, a, u);
    HarmlessAction(t, a, r);
    SafelyNext(s, t, a, u, r);
    if Overdue(u, r, m, n) { PublishesLate(s, u, r, m, n); }
  }

  lemma Draining(s: State, r: RunId, m: nat, n: nat)
    requires Overdue(s, r, m, n)
    ensures s.close.pub.Draining? && s.close.pub.pending != []
  {
  }

  /** The budget has room for the lease of one offered frame. */
  ghost predicate HasRoom(b: Budget) { Reserve(b, 3, 0).1.Some? }

  lemma {:induction false} RetainingKeepsRoom(b: Budget, ls: seq<LeaseId>)
    ensures HasRoom(RetainAll(b, ls)) == HasRoom(b)
    decreases |ls|
  {
    if ls == [] {
    } else {
      RetainingKeepsRoom(Retain(b, ls[0]), ls[1..]);
    }
  }

  /** A turn frame on its way comes after all open evidence. */
  lemma OfferIsNewest(s: State, r: RunId)
    requires Provenance.ProvenanceInv(s) && Once.OnceInv(s) && s.reader.Routed? && s.reader.targets != []
    ensures forall k: nat :: Open(s.ev, r, k) ==> k < s.reader.frame
  {
    hide Provenance.ProvenanceInv, Once.OnceInv, Provenance.SlotsOk, Provenance.PendOk, Provenance.ThreadPendOk;
    hide Provenance.PublisherOk, Once.SlotsOnce, Once.ThreadsOnce;
    Provenance.Known(s);
    Once.Known(s);
  }

  /** A turn frame is offered to an unshared run only. */
  lemma OfferIsItsOwn(s: State, r: RunId)
    requires BindingInv(s) && Offered(s.reader, r) && !Shared(s.slots, r)
    ensures s.reader.targets != [] && s.reader.targets[0] == r && OfTurn(s.slots, r, s.reader.note)
  {
    hide BindingInv, SlotsBound, OwnersBound, Shared;
    Binding.Known(s);
    var rd := s.reader;
    assert OfTurn(s.slots, r, rd.note) && OfTurn(s.slots, rd.targets[0], rd.note);
    Unshared(s.slots, rd.targets[0], r);
  }

  /** What the overtaken run and its offer look like. */
  lemma WindowAt(s: State, r: RunId)
    requires Base(s) && Closing.Overtakes(s, r) && !Shared(s.slots, r)
    ensures var x := s.slots[r]; var rd := s.reader;
            && rd.targets != [] && rd.targets[0] == r && x.caller.Window? && x.arm.Some? && !Stopped(x.run)
            && Admissible(x.run, rd.note) && IsTurn(Frame(rd.frame, rd.note))
            && forall k: nat :: Open(s.ev, r, k) ==> k < rd.frame
  {
    hide Registration.RegistryInv, PhaseInv, Provenance.ProvenanceInv, Once.OnceInv, BindingInv;
    hide Fifo.QueueInv, Frozen.CloseInv;
    hide Shared, Open;
    PhasedAt(s, r);
    OfferIsNewest(s, r);
    OfferIsItsOwn(s, r);
  }

  /** The run as it stands once it has attached after the snapshot. */
  ghost predicate AttachedAfter(s: State, s1: State, t: State, r: RunId) {
    && r in s.slots && r in t.slots && t.slots[r] == s.slots[r].(caller := Attached, ordered := false, taken := true)
    && t.ev == s.ev && t.reader == s.reader && t.log == s.log && t.close == s1.close && HasRoom(t.mem.budget)
  }

  lemma SnapshotMemory(s: State, turns: seq<Id>, runs: seq<RunId>, finishing: seq<RunId>)
    requires Closing.CanSnapshot(s, turns, runs, finishing) && HasRoom(s.mem.budget)
    ensures HasRoom(Closing.DoSnapshot(s, turns, runs, finishing).mem.budget)
  {
    hide Closing.CanSnapshot, Concat, ConcatReplays, RetainAll, Leases, Closing.MarkAll, HasRoom;
    RetainingKeepsRoom(s.mem.budget, Leases(ConcatReplays(s.slots, runs)));
  }

  lemma PublishMemory(s: State, r: RunId)
    requires Starter.CanAttachPublish(s, r)
    ensures Starter.DoAttachPublish(s, r).mem.budget == s.mem.budget
  {
    hide With, Without;
  }

  /** The run attaches; the snapshot left nothing to replay. */
  lemma AttachesAfter(s: State, turns: seq<Id>, runs: seq<RunId>, finishing: seq<RunId>, r: RunId) returns (t: State)
    requires Reachable(s) && Closing.CanSnapshot(s, turns, runs, finishing) && HasRoom(s.mem.budget)
    requires r in s.slots && s.slots[r].caller.Window? && !s.slots[r].run.terminal
    ensures var s1 := Closing.DoSnapshot(s, turns, runs, finishing);
            Reachable(s1) && Reachable(t) && LeadsSafely(s1, t, r) && AttachedAfter(s, s1, t, r)
  {
    hide Reachable, LeadsSafely, HasRoom, Closing.CanSnapshot, Closing.DoSnapshot, Concat, ConcatReplays;
    var s1 := Closing.DoSnapshot(s, turns, runs, finishing);
    SnapshotGoes(s, turns, runs, finishing);
    SnapshotShape(s, turns, runs, finishing);
    SnapshotMemory(s, turns, runs, finishing);
    SafelySelf(s1, r);
    t := AttachesFrom(s1, r);
  }

  lemma SnapshotGoes(s: State, turns: seq<Id>, runs: seq<RunId>, finishing: seq<RunId>)
    requires Reachable(s) && Closing.CanSnapshot(s, turns, runs, finishing)
    ensures Reachable(Closing.DoSnapshot(s, turns, runs, finishing))
  {
    hide Reachable, Closing.CanSnapshot, Closing.DoSnapshot;
    var a := Client.ByCloser(Closing.Snapshot(turns, runs, finishing));
    assert Goes(s, a, Closing.DoSnapshot(s, turns, runs, finishing));
    NextReachable(s, a, Closing.DoSnapshot(s, turns, runs, finishing));
  }

  /** The starter's two steps from the window to the attached phase. */
  lemma AttachesFrom(s1: State, r: RunId) returns (t: State)
    requires Reachable(s1) && LeadsSafely(s1, s1, r) && HasRoom(s1.mem.budget)
    requires r in s1.slots && s1.slots[r].caller.Window? && !s1.slots[r].run.terminal && s1.reg.pend == map[]
    ensures Reachable(t) && LeadsSafely(s1, t, r) && r in t.slots && HasRoom(t.mem.budget)
    ensures t.slots[r] == s1.slots[r].(caller := Attached, ordered := false)
    ensures t.ev == s1.ev && t.reader == s1.reader && t.log == s1.log && t.close == s1.close
  {
    hide Reachable, Loses, LeadsSafely, HasRoom, Starter.DoAttachPublish;
    var s2 := Starter.DoAttachPublish(s1, r);
    var b := Client.ByStarter(r, Starter.AttachPublish);
    assert Goes(s1, b, s2);
    NextReachable(s1, b, s2);
    HarmlessAction(s1, b, r);
    SafelyNext(s1, s1, b, s2, r);
    AttachPublishShape(s1, r);
    PublishMemory(s1, r);
    t := Starter.DoAttachDone(s2, r);
    var c := Client.ByStarter(r, Starter.AttachDone);
    assert Goes(s2, c, t);
    NextReachable(s2, c, t);
    HarmlessAction(s2, c, r);
    SafelyNext(s1, s2, c, t, r);
  }

  /** The offered frame is accepted. */
  lemma AcceptsOffer(t: State, r: RunId)
    requires t.reader.Routed? && t.reader.targets != [] && t.reader.targets[0] == r && r in t.slots
    requires !t.slots[r].ordered
    requires Admissible(t.slots[r].run, t.reader.note) && HasRoom(t.mem.budget)
    ensures Reader.CanReaderAccept(t)
    ensures exists l :: Reader.DoReaderAccept(t,
              0).slots == t.slots[r := Taking(t.slots[r], Parked(t.reader.frame, t.reader.note, l))]
  {
    hide Retain, Accept, Admissible;
    var l := Reserve(t.mem.budget, 3, 0).1.value;
    assert Reader.DoReaderAccept(t,
        0).slots == t.slots[r := Taking(t.slots[r], Parked(t.reader.frame, t.reader.note, l))];
  }

  /** After the snapshot the run accepts the overtaking frame. */
  ghost predicate AcceptedLive(s: State, s1: State, u: State, r: RunId) {
    && r in s.slots && r in u.slots && s.reader.Routed? && u.ev == s.ev && u.log == s.log && u.close == s1.close
    && u.slots[r].caller.Attached? && u.slots[r].arm == s.slots[r].arm
    && u.slots[r].run.threadId == s.slots[r].run.threadId
    && u.slots[r].run.history == s.slots[r].run.history + [Frame(s.reader.frame, s.reader.note)]
    && !u.slots[r].run.terminal && u.slots[r].run.terminalAdmitted == s.reader.note.payload.TurnCompleted?
  }

  lemma AcceptsAfter(s: State, turns: seq<Id>, runs: seq<RunId>, finishing: seq<RunId>, r: RunId) returns (u: State)
    requires Reachable(s) && Closing.CanSnapshot(s, turns, runs, finishing) && HasRoom(s.mem.budget)
    requires Closing.Overtakes(s, r) && !Shared(s.slots, r)
    ensures var s1 := Closing.DoSnapshot(s, turns, runs, finishing);
            Reachable(s1) && Reachable(u) && LeadsSafely(s1, u, r) && AcceptedLive(s, s1, u, r)
  {
    hide Reachable, Base, Loses, LeadsSafely, HasRoom, Closing.CanSnapshot, Closing.DoSnapshot, Shared;
    hide Taking, Admissible;
    hide Reader.DoReaderAccept;
    ReachableBase(s);
    WindowAt(s, r);
    var s1 := Closing.DoSnapshot(s, turns, runs, finishing);
    var t := AttachesAfter(s, turns, runs, finishing, r);
    AcceptsOffer(t, r);
    u := Reader.DoReaderAccept(t, 0);
    var a := Client.ByReader(Reader.Accept(0));
    assert Goes(t, a, u);
    NextReachable(t, a, u);
    HarmlessAction(t, a, r);
    SafelyNext(s1, t, a, u, r);
    ReaderAcceptShape(t, 0);
    var l :| u.slots == t.slots[r := Taking(t.slots[r], Parked(t.reader.frame, t.reader.note, l))];
    TakesFrame(t.slots[r], Parked(t.reader.frame, t.reader.note, l));
  }

  /** Frames that wait for the run when the snapshot is taken are with the publisher
      after it. */
  lemma TakenPending(s: State, turns: seq<Id>, runs: seq<RunId>, finishing: seq<RunId>, r: RunId, n: nat)
    requires Reachable(s) && Closing.CanSnapshot(s, turns, runs, finishing) && Open(s.ev, r, n)
    requires r in s.slots && s.slots[r].caller.Window? && !s.slots[r].run.terminal && !Shared(s.slots, r)
    ensures InList(Closing.DoSnapshot(s, turns, runs, finishing).close.pub.pending, n)
    ensures Closing.DoSnapshot(s, turns, runs, finishing).close.pub.Draining?
  {
    SnapshotShape(s, turns, runs, finishing);
    OrderedBefore(s, r);
    ReachableBase(s);
    SnapshotPending(s, turns, r);
    hide Closing.DoSnapshot, Closing.CanSnapshot, Enumerates, Concat, ConcatReplays, Shared, Open, Base;
    hide Reachable, InList;
    hide Ascending, Ahead, PublisherOrdered, ParkedOrdered, OfferOrdered;
    assert WaitsAt(s.slots[r], n, ParkedOf(s.reg.pend, s.slots[r]), s.close.pub);
  }

  /** Before the snapshot every unshared run is in order and whole. */
  lemma OrderedBefore(s: State, r: RunId)
    requires Reachable(s) && s.close.pub.Claimed? && r in s.slots && !Shared(s.slots, r)
    ensures OrderedRun(s, r) && GaplessRun(s, r)
  {
    hide Client.Enabled, Client.Step, Shared, OrderedRun, GaplessRun, Closing.Overtakes, Dispatch.Skips;
    var states: seq<State>, actions: seq<Client.Action> :| Client.IsRun(states, actions) && states[|states| - 1] == s;
    Nonempty(states, actions);
    forall j | 0 <= j < |actions| ensures !Loses(states[j], actions[j], r) {
      NothingLostYet(states, actions, |actions|, j, r);
    }
    NotInverted(states, actions, |actions|, r);
    AlwaysOrdered(states, actions, |actions|, r);
    AlwaysGapless(states, actions, |actions|, r);
  }

  lemma ClaimedNow(s: State, turns: seq<Id>, runs: seq<RunId>, finishing: seq<RunId>)
    requires Reachable(s) && Closing.CanSnapshot(s, turns, runs, finishing)
    ensures s.close.pub.Claimed? && s.close.closed
  {
    ReachableBase(s);
    hide Reachable, Registration.RegistryInv, PhaseInv, Provenance.ProvenanceInv, Once.OnceInv, BindingInv;
    hide Fifo.QueueInv;
  }

  lemma InTurnNosLast(history: seq<Frame>, f: Frame)
    requires IsTurn(f)
    ensures f.no in TurnNos(history + [f])
  {
    TurnNosAppend(history, f);
  }

  lemma InvertsThen(s: State, turns: seq<Id>, runs: seq<RunId>, finishing: seq<RunId>, r: RunId)
    requires Reachable(s) && Closing.CanSnapshot(s, turns, runs, finishing) && HasRoom(s.mem.budget)
    requires Closing.Inverts(s, r) && !Shared(s.slots, r)
    ensures exists u :: Leads(Closing.DoSnapshot(s, turns, runs, finishing), u) && r in u.slots
                        && !Rising(TurnNos(u.slots[r].run.history))
  {
    hide Reachable, Base, Loses, LeadsSafely, Leads, HasRoom, Closing.CanSnapshot, Closing.DoSnapshot, Shared;
    hide InList, Open;
    hide TurnNos, Rising, Admissible;
    var n: nat :| Open(s.ev, r, n);
    ReachableBase(s);
    WindowAt(s, r);
    var s1 := Closing.DoSnapshot(s, turns, runs, finishing);
    var u := AcceptsAfter(s, turns, runs, finishing, r);
    TakenPending(s, turns, runs, finishing, r, n);
    var f := Frame(s.reader.frame, s.reader.note);
    InTurnNosLast(s.slots[r].run.history, f);
    assert Overdue(u, r, f.no, n);
    PublishesLate(s1, u, r, f.no, n);
    var v :| LeadsSafely(s1, v, r) && r in v.slots && !Rising(TurnNos(v.slots[r].run.history));
    SafelyLeads(s1, v, r);
  }

  /** After a failure snapshot taken while the budget has room for a frame, some
      continuation lets a run, whose turn id is its own, accept its turn frames out
      of order exactly when the snapshot overtakes a live frame of it that does not
      complete the turn. */
  lemma SnapshotInvertsExactly(s: State, turns: seq<Id>, runs: seq<RunId>, finishing: seq<RunId>, r: RunId)
    requires Reachable(s) && Closing.CanSnapshot(s, turns, runs, finishing) && HasRoom(s.mem.budget)
    requires r in s.slots && !Shared(s.slots, r)
    ensures Closing.Inverts(s, r) <==>
            exists t :: Leads(Closing.DoSnapshot(s, turns, runs, finishing), t) && r in t.slots
                        && !Rising(TurnNos(t.slots[r].run.history))
  {
    hide Reachable, Leads, HasRoom, Closing.CanSnapshot, Closing.DoSnapshot, Shared, Closing.Inverts, TurnNos, Rising;
    ClaimedNow(s, turns, runs, finishing);
    if Closing.Inverts(s, r) {
      InvertsThen(s, turns, runs, finishing, r);
    } else {
      var a := Client.ByCloser(Closing.Snapshot(turns, runs, finishing));
      forall t | Leads(Closing.DoSnapshot(s, turns, runs, finishing), t) && r in t.slots
        ensures Rising(TurnNos(t.slots[r].run.history))
      {
        SnapshotKeepsOrder(s, a, t, r);
      }
    }
  }

  // ------------------------------------------------------------ losing frames

  lemma {:induction false} InTurnNosAccepted(history: seq<Frame>, n: nat)
    requires n in TurnNos(history)
    ensures exists i :: 0 <= i < |history| && history[i].no == n
    decreases |history|
  {
    if history == [] {
    } else {
      var init := history[..|history| - 1];
      if n in TurnNos(init) {
        InTurnNosAccepted(init, n);
        var i :| 0 <= i < |init| && init[i].no == n;
        assert history[i].no == n;
      } else {
        assert history[|history| - 1].no == n;
      }
    }
  }

  /** A run that accepted a later frame of its turn without an earlier one is not
      whole. */
  lemma GapMeansLost(s: State, r: RunId, n: nat, m: nat)
    requires r in s.slots && Relevant(s.log, s.slots[r], n) && !Once.Accepted(s.slots[r].run, n)
    requires m in TurnNos(s.slots[r].run.history) && n < m
    ensures !Whole(s, r)
  {
    var x := s.slots[r];
    var list := TurnNos(x.run.history);
    if Whole(s, r) {
      var end := if Finished(x) then x.arm.value.until.value else |s.log|;
      var all := TurnOf(s, x);
      TurnLogHolds(s.log, x.run.threadId, x.arm.value.turn, x.arm.value.at, end);
      var i :| 0 <= i < |list| && list[i] == m;
      assert n in all;
      var k :| 0 <= k < |all| && all[k] == n;
      assert all[i] == m;
      assert k < i;
      assert list[k] == n;
      InTurnNosAccepted(x.run.history, n);
    }
  }

  /** Open evidence has not been accepted. */
  lemma OpenIsNew(s: State, r: RunId, n: nat)
    requires Once.OnceInv(s) && r in s.slots && Open(s.ev, r, n)
    ensures !Once.Accepted(s.slots[r].run, n)
  {
    Once.SlotAt(s, r);
  }

  lemma OvertakingLoses(s: State, turns: seq<Id>, runs: seq<RunId>, finishing: seq<RunId>, r: RunId)
    requires Reachable(s) && Closing.CanSnapshot(s, turns, runs, finishing) && HasRoom(s.mem.budget)
    requires Closing.Overtakes(s, r) && !Shared(s.slots, r)
    ensures exists u :: LeadsSafely(Closing.DoSnapshot(s, turns, runs, finishing), u, r) && r in u.slots && !Whole(u, r)
  {
    hide Reachable, LeadsSafely, HasRoom, Closing.CanSnapshot, Closing.DoSnapshot, Shared, Open, TurnNos;
    hide Admissible, Whole;
    hide Registration.RegistryInv, PhaseInv, Provenance.ProvenanceInv, Once.OnceInv, BindingInv;
    hide Fifo.QueueInv, Frozen.CloseInv;
    hide GaplessRun, OrderedRun, Once.Accepted, Relevant;
    var n: nat :| Open(s.ev, r, n);
    ReachableBase(s);
    ClaimedNow(s, turns, runs, finishing);
    OrderedBefore(s, r);
    OpenRelevant(s, r, n);
    OpenIsNew(s, r, n);
    WindowAt(s, r);
    var u := AcceptsAfter(s, turns, runs, finishing, r);
    var f := Frame(s.reader.frame, s.reader.note);
    InTurnNosLast(s.slots[r].run.history, f);
    Once.AcceptedMore(s.slots[r].run, u.slots[r].run, f);
    SameTurnFrames(s.log, s.slots[r], u.slots[r]);
    GapMeansLost(u, r, n, f.no);
  }

  lemma SameTurnFrames(log: seq<Note>, x: Slot, y: Slot)
    requires y.arm == x.arm && y.run.threadId == x.run.threadId
    ensures forall n :: Relevant(log, y, n) <==> Relevant(log, x, n)
  {
  }

  lemma NotLostBefore(s: State, r: RunId) returns (states: seq<State>, actions: seq<Client.Action>)
    requires Reachable(s) && s.close.pub.Claimed?
    ensures Client.IsRun(states, actions) && |states| == |actions| + 1 && states[|actions|] == s
    ensures NeverLost(states, actions, |actions|, r)
  {
    hide Client.Enabled, Client.Step, Closing.Overtakes, Dispatch.Skips;
    states, actions :| Client.IsRun(states, actions) && states[|states| - 1] == s;
    Nonempty(states, actions);
    forall j | 0 <= j < |actions| ensures !Loses(states[j], actions[j], r) {
      NothingLostYet(states, actions, |actions|, j, r);
    }
  }

  /** After a failure snapshot taken while the budget has room for a frame, a run
      whose turn id is its own can end up with a gap, though no later step loses
      frames of it, exactly when the snapshot overtakes a live frame of it. */
  lemma SnapshotLosesExactly(s: State, turns: seq<Id>, runs: seq<RunId>, finishing: seq<RunId>, r: RunId)
    requires Reachable(s) && Closing.CanSnapshot(s, turns, runs, finishing) && HasRoom(s.mem.budget)
    requires r in s.slots && !Shared(s.slots, r)
    ensures Closing.Overtakes(s, r) <==>
            exists t :: LeadsSafely(Closing.DoSnapshot(s, turns, runs, finishing), t, r) && r in t.slots && !Whole(t, r)
  {
    hide Reachable, LeadsSafely, HasRoom, Closing.CanSnapshot, Closing.DoSnapshot, Shared, Closing.Overtakes;
    hide Whole, NeverLost;
    ClaimedNow(s, turns, runs, finishing);
    if Closing.Overtakes(s, r) {
      OvertakingLoses(s, turns, runs, finishing, r);
    } else {
      var a := Client.ByCloser(Closing.Snapshot(turns, runs, finishing));
      var states, actions := NotLostBefore(s, r);
      forall t | LeadsSafely(Closing.DoSnapshot(s, turns, runs, finishing), t, r) && r in t.slots ensures Whole(t, r) {
        KeepsWhole(states, actions, a, t, r);
      }
    }
  }

  /** A finishing run is about to accept frame `m` of its turn, and frame `no` was
      opened without it. */
  ghost predicate Skipping(s: State, r: RunId, no: nat, m: nat) {
    && r in s.slots && s.slots[r].caller.FinResolve? && !Stopped(s.slots[r].run) && no < m
    && no in s.ev.ready && Relevant(s.log, s.slots[r], no) && !Once.Accepted(s.slots[r].run, no)
    && Open(s.ev, r, m) && InRest(s.slots[r].caller.list, s.slots[r].caller.finNext, m)
    && Once.Sorted(s.slots[r].caller.list) && (forall p <- s.slots[r].caller.list :: Owns(s.ev, r, p.no))
    && forall k: nat :: Open(s.ev, r, k) && k < m ==> !Dispatch.Completes(s.log, k)
  }

  lemma HeadOfRest(list: seq<Parked>, from: nat, m: nat)
    requires Once.Sorted(list) && InRest(list, from, m)
    ensures from < |list| && list[from].no <= m && (list[from].no != m ==> InRest(list, from + 1, m))
  {
    var i :| from <= i < |list| && list[i].no == m;
    if i > from { assert list[from].no < list[i].no; }
  }

  lemma FinishResolveShape(s: State, r: RunId)
    requires Starter.CanFinishResolve(s, r)
    ensures var c := s.slots[r].caller; var p := c.list[c.finNext]; var u := Starter.DoFinishResolve(s, r);
            && u.log == s.log && r in u.slots
            && (p.no in s.ev.ready ==>
                u.ev == s.ev && u.slots[r] == s.slots[r].(caller := c.(finNext := c.finNext + 1)))
            && (p.no !in s.ev.ready ==>
                  && u.ev.owner == s.ev.owner && u.ev.ready == s.ev.ready + {p.no}
                  && u.slots[r] == Taking(s.slots[r], p).(caller := c.(finNext := c.finNext + 1)))
  {
    hide Resolve, Taking;
    var c := s.slots[r].caller;
    var p := c.list[c.finNext];
    if p.no in s.ev.ready { ResolveNoop(s, p, r); } else { ResolveShape(s, p, r); }
  }

  /** One more frame of the list is resolved. */
  lemma SkipsOn(s: State, r: RunId, no: nat, m: nat)
    requires Base(s) && Skipping(s, r, no, m)
    ensures Starter.CanFinishResolve(s, r)
    ensures var u := Starter.DoFinishResolve(s, r);
            || (r in u.slots && !Whole(u, r))
            || (Skipping(u, r, no, m) && u.slots[r].caller.list == s.slots[r].caller.list
                && u.slots[r].caller.finNext == s.slots[r].caller.finNext + 1)
  {
    hide Registration.RegistryInv, PhaseInv, Provenance.ProvenanceInv, Once.OnceInv, BindingInv;
    hide Fifo.QueueInv, Frozen.CloseInv;
    hide Resolve, TurnNos, Taking, Once.Sorted, Once.Accepted, Whole, Relevant, InRest;
    hide Starter.DoFinishResolve, Dispatch.Completes;
    var x := s.slots[r];
    var c := x.caller;
    HeadOfRest(c.list, c.finNext, m);
    var p := c.list[c.finNext];
    assert Owns(s.ev, r, p.no);
    FinishResolveShape(s, r);
    var u := Starter.DoFinishResolve(s, r);
    if p.no !in s.ev.ready {
      ListGenuine(s, r, c.finNext);
      EvidenceAdmissible(s, r, p);
      TakesFrame(x, p);
      Once.AcceptedMore(x.run, u.slots[r].run, Frame(p.no, p.note));
      SameTurnFrames(s.log, x, u.slots[r]);
      OpenLess(s.ev, u.ev, r, p.no);
      if p.no == m {
        InTurnNosLast(x.run.history, Frame(p.no, p.note));
        GapMeansLost(u, r, no, m);
      } else {
        assert !Dispatch.Completes(s.log, p.no);
        NotCompleting(s.log, p);
      }
    } else {
      SameTurnFrames(s.log, x, u.slots[r]);
    }
  }

  lemma NotCompleting(log: seq<Note>, p: Parked)
    requires Provenance.TurnFrame(log, p) && !Dispatch.Completes(log, p.no)
    ensures !p.note.payload.TurnCompleted?
  {
  }

  function RestLength(c: Caller): nat { if c.FinResolve? && c.finNext <= |c.list| then |c.list| - c.finNext else 0 }

  lemma {:induction false} SkipsUntil(s: State, t: State, r: RunId, no: nat, m: nat)
    requires Reachable(t) && LeadsSafely(s, t, r) && Skipping(t, r, no, m)
    ensures exists u :: LeadsSafely(s, u, r) && r in u.slots && !Whole(u, r)
    decreases if r in t.slots then RestLength(t.slots[r].caller) else 0
  {
    hide Reachable, Base, Loses, Skipping, Starter.DoFinishResolve, LeadsSafely, Whole;
    var a := Client.ByStarter(r, Starter.FinishResolve);
    ReachableBase(t);
    SkipsOn(t, r, no, m);
    var u := Starter.DoFinishResolve(t, r);
    assert Goes(t, a, u);
    NextReachable(t, a, u);
    HarmlessAction(t, a, r);
    SafelyNext(s, t, a, u, r);
    if Skipping(u, r, no, m) && !(r in u.slots && !Whole(u, r)) { SkipsUntil(s, u, r, no, m); }
  }

  /** Stopping opens the frame, and the later one is still to come. */
  lemma StopSkips(s: State, r: RunId) returns (no: nat, m: nat)
    requires Base(s) && OrderedRun(s, r) && GaplessRun(s, r) && !Shared(s.slots, r)
    requires Dispatch.CanBeginStopping(s) && Dispatch.Skips(s, r)
    ensures Skipping(Dispatch.DoBeginStopping(s), r, no, m)
  {
    hide Registration.RegistryInv, PhaseInv, Provenance.ProvenanceInv, Once.OnceInv, BindingInv, Fifo.QueueInv;
    hide GaplessRun, OrderedRun, Shared, Once.Sorted, Once.Accepted, Relevant, InRest, Dispatch.Completes;
    no := s.q.disp.e.frame;
    m :| Dispatch.WaitsBehind(s, r, m);
    var u := Dispatch.DoBeginStopping(s);
    OnlyFinishedWait(s, r, no);
    ListInOrder(s, r);
    OpenRelevant(s, r, no);
    OpenIsNew(s, r, no);
    OpenLess(s.ev, u.ev, r, no);
  }

  lemma ListInOrder(s: State, r: RunId)
    requires OrderedRun(s, r) && s.slots[r].caller.FinResolve?
    ensures Once.Sorted(s.slots[r].caller.list) && forall p <- s.slots[r].caller.list :: Owns(s.ev, r, p.no)
  {
  }

  lemma SkippingLoses(s: State, r: RunId)
    requires Reachable(s) && OrderedRun(s, r) && GaplessRun(s, r) && !Shared(s.slots, r)
    requires Dispatch.CanBeginStopping(s) && Dispatch.Skips(s, r)
    ensures exists u :: LeadsSafely(Dispatch.DoBeginStopping(s), u, r) && r in u.slots && !Whole(u, r)
  {
    hide Reachable, Base, LeadsSafely, Whole, Skipping, GaplessRun, OrderedRun, Shared, Dispatch.Skips;
    hide Dispatch.DoBeginStopping;
    ReachableBase(s);
    var no, m := StopSkips(s, r);
    var u := Dispatch.DoBeginStopping(s);
    var a := Client.ByDispatcher(Dispatch.BeginStopping);
    assert Goes(s, a, u);
    NextReachable(s, a, u);
    SafelySelf(u, r);
    SkipsUntil(u, u, r, no, m);
  }

  /** When the dispatcher stops, a run whose turn id is its own and that lost no
      frames so far can end up with a gap, though no later step loses frames of it,
      exactly when the stop skips a frame of it. */
  lemma StopLosesExactly(states: seq<State>, actions: seq<Client.Action>, r: RunId)
    requires Client.IsRun(states, actions) && NeverLost(states, actions, |actions|, r)
    requires var s := states[|actions|]; Dispatch.CanBeginStopping(s) && r in s.slots && !Shared(s.slots, r)
    ensures Dispatch.Skips(states[|actions|], r) <==>
            exists t :: LeadsSafely(Dispatch.DoBeginStopping(states[|actions|]), t, r) && r in t.slots && !Whole(t, r)
  {
    hide Client.IsRun, LeadsSafely, Shared, Whole, NeverLost, Dispatch.Skips, GaplessRun, OrderedRun;
    hide NeverInverted, Base;
    Nonempty(states, actions);
    var s := states[|actions|];
    AlwaysBase(states, actions, |actions|);
    StoppedClosed(s);
    if Dispatch.Skips(s, r) {
      ReachedAt(states, actions);
      NotInverted(states, actions, |actions|, r);
      AlwaysOrdered(states, actions, |actions|, r);
      AlwaysGapless(states, actions, |actions|, r);
      SkippingLoses(s, r);
    } else {
      var a := Client.ByDispatcher(Dispatch.BeginStopping);
      assert Client.Enabled(s, a) && Client.Step(s, a) == Dispatch.DoBeginStopping(s);
      forall t | LeadsSafely(Dispatch.DoBeginStopping(s), t, r) && r in t.slots ensures Whole(t, r) {
        KeepsWhole(states, actions, a, t, r);
      }
    }
  }

  lemma ReachedAt(states: seq<State>, actions: seq<Client.Action>)
    requires Client.IsRun(states, actions)
    ensures |states| == |actions| + 1 && Reachable(states[|actions|])
  {
    assert states[|states| - 1] == states[|actions|];
  }

  lemma StoppedClosed(s: State)
    requires Base(s) && Dispatch.CanBeginStopping(s)
    ensures s.close.closed && s.close.pub.Published?
  {
    hide Registration.RegistryInv, PhaseInv, Provenance.ProvenanceInv, Once.OnceInv, BindingInv, Fifo.QueueInv;
  }
}
