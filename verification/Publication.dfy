/** What closing settles: between the failure snapshot and the end of its publication
    every registered run is finished and all parked evidence is resolved. */
module Publication {
  import opened Wrappers
  import opened Attribution
  import opened Retention
  import opened ExactRun
  import opened ClientState
  import opened Phases
  import opened Registration
  import opened Reached
  import Reader
  import Starter
  import Closing
  import Dispatch
  import Client
  import Fifo
  import Frozen
  import Scope
  import Totals

  predicate TookSnapshot(p: Publisher) { p.Draining? || p.Published? }

  /** The run is finished, or the publisher still has it to finish. */
  ghost predicate RunSettles(s: State, r: RunId) {
    && TookSnapshot(s.close.pub) && r in s.slots
    && (s.slots[r].run.terminal || (s.close.pub.Draining? && r in s.close.pub.finishing))
  }

  predicate Waiting(pub: Publisher, no: nat) {
    pub.Draining? && ((exists p <- pub.pending :: p.no == no) || (exists p <- pub.replay :: p.no == no))
  }

  /** The evidence is resolved, or the publisher still has it to resolve. */
  ghost predicate EvidenceSettles(s: State, no: nat) {
    TookSnapshot(s.close.pub) && no in s.ev.owner && (no in s.ev.ready || Waiting(s.close.pub, no))
  }

  // ----------------------------------------------------------- what steps change

  predicate Publishes(a: Client.Action) {
    a.ByCloser? && (a.closer.PublishPending? || a.closer.PublishReplay? || a.closer.PublishFinish? || a.closer.PublishDone?)
  }

  /** Only the publisher moves publication on. */
  lemma OthersDoNotPublish(s: State, a: Client.Action)
    requires Frozen.CloseInv(s) && TookSnapshot(s.close.pub) && Client.Enabled(s, a) && !Publishes(a)
    ensures Client.Step(s, a).close.pub == s.close.pub
  {
    hide Starter.Enabled, Starter.Step, AcceptRetained, Admissible, Reserve, Parkable, FinishRun, Release, DiscardFirst;
    match a
    case ByStarter(r, b) => Fifo.StarterFrame(s, r, b);
    case ByReader(b) => ReaderKeepsClose(s, b);
    case ByCloser(b) =>
      if b.DiscardQueued? { DiscardKeepsClose(s); }
    case ByDispatcher(b) => DispatcherKeepsClose(s, b);
  }

  lemma DiscardKeepsClose(s: State)
    requires s.q.queue != []
    ensures DiscardFirst(s).close == s.close && DiscardFirst(s).ev.owner == s.ev.owner
    ensures DiscardFirst(s).ev.ready == s.ev.ready
  {
  }

  lemma ReaderKeepsClose(s: State, a: Reader.Action)
    requires Reader.Enabled(s, a) && s.close.closed
    ensures Reader.Step(s, a).close == s.close
  {
    hide Reader.CanRoute, Reader.CanReaderAccept, Reserve, Parkable, AcceptRetained, Admissible;
    if a.Accept? { Frozen.ReaderAccepts(s, a.bytes); }
    hide Reader.DoReaderAccept;
  }

  lemma DispatcherKeepsClose(s: State, a: Dispatch.Action)
    requires Dispatch.Enabled(s, a) && s.close.closed
    ensures Dispatch.Step(s, a).close == s.close
  {
  }

  /** Resolved evidence stays resolved, and evidence keeps its owner. */
  ghost predicate EvidenceGrows(a: Evidence, b: Evidence) {
    a.ready <= b.ready && forall no <- a.owner :: no in b.owner
  }

  lemma ResolveGrows(s: State, p: Parked, r: RunId)
    ensures EvidenceGrows(s.ev, Resolve(s, p, r).ev) && p.no in Resolve(s, p, r).ev.ready
    ensures Resolve(s, p, r).ev.owner == s.ev.owner
  {
    hide AcceptRetained;
    AcceptFrame(s, r, p);
  }

  lemma StepGrows(s: State, a: Client.Action)
    requires Client.Enabled(s, a)
    ensures EvidenceGrows(s.ev, Client.Step(s, a).ev)
  {
    hide Starter.Enabled, Starter.Step, Reader.Enabled, Reader.Step, Closing.Enabled, Closing.Step;
    hide Dispatch.Enabled, Dispatch.Step;
    match a
    case ByStarter(r, b) => StarterGrows(s, r, b);
    case ByReader(b) => ReaderGrows(s, b);
    case ByCloser(b) => CloserGrows(s, b);
    case ByDispatcher(b) => DispatcherGrows(s, b);
  }

  lemma StarterGrows(s: State, r: RunId, a: Starter.Action)
    requires Starter.Enabled(s, r, a)
    ensures EvidenceGrows(s.ev, Starter.Step(s, r, a).ev)
  {
    hide Resolve, AcceptRetained, FinishRun, Without, With, Starter.Mine, Starter.KeepOthers, ListLeases;
    hide Starter.DoRegister, Starter.DoAttachPublish, Starter.DoFinishCollect, Starter.DoUnregister;
    match a
    case AttachResolve => ResolveGrows(s, s.slots[r].caller.list[s.slots[r].caller.next], r);
    case FinishResolve => ResolveGrows(s, s.slots[r].caller.list[s.slots[r].caller.finNext], r);
    case Register => Fifo.RegisterFrame(s, r); RegistersNoEvidence(s, r, a);
    case RegisterAccept => AcceptFrame(s, r, s.slots[r].caller.list[s.slots[r].caller.regNext]);
    case AttachPublish => RegistersNoEvidence(s, r, a);
    case FinishCollect => RegistersNoEvidence(s, r, a);
    case Unregister => RegistersNoEvidence(s, r, a);
    case RegisterComplete =>
      var c := s.slots[r].caller;
      FinishKeepsEvidence(SetCaller(s, r, c.(todo := None)), c.todo.value.run, c.todo.value.err, ByRegister);
    case FinishRefused => FinishKeepsEvidence(SetCaller(s, r, Over), r, Some(s.slots[r].caller.refusal), ByError);
    case AttachNext =>
      var c := s.slots[r].caller;
      var no := c.list[c.next].no;
      if no in s.ev.completion {
        FinishKeepsEvidence(SetCaller(s, r, c.(next := c.next + 1, resolved := false)),
                            s.ev.completion[no].run, s.ev.completion[no].err, ByReplay);
      }
    case FinishComplete =>
      var c := s.slots[r].caller;
      var no := c.list[c.doneNext].no;
      if no in s.ev.completion {
        FinishKeepsEvidence(SetCaller(s, r, c.(doneNext := c.doneNext + 1)),
                            s.ev.completion[no].run, s.ev.completion[no].err, ByFinish(no));
      }
    case FinishEnd(err) =>
      FinishKeepsEvidence(LetGo(SetCaller(s, r, Over), ListLeases(s.slots[r].caller.list)), r, Some(err), ByError);
    case ExternalFinish(err) => FinishKeepsEvidence(s, r, Some(err), ByError);
    case _ =>
  }

  lemma FinishKeepsEvidence(s: State, r: RunId, err: Option<Err>, via: Via)
    ensures FinishRun(s, r, err, via).ev == s.ev
  {
  }

  lemma RegistersNoEvidence(s: State, r: RunId, a: Starter.Action)
    requires Starter.Enabled(s, r, a) && (a.Register? || a.AttachPublish? || a.FinishCollect? || a.Unregister?)
    ensures Starter.Step(s, r, a).ev == s.ev
  {
    hide Without, With, Starter.Mine, Starter.KeepOthers;
  }

  lemma ReaderGrows(s: State, a: Reader.Action)
    requires Reader.Enabled(s, a)
    ensures EvidenceGrows(s.ev, Reader.Step(s, a).ev)
  {
    hide Reader.CanRoute, Reader.CanReaderAccept, Reserve, Parkable, AcceptRetained, Admissible, FinishRun;
    match a
    case Accept(bytes) => AcceptKeepsEvidence(s, bytes);
    case Complete =>
      if s.reader.inline != [] { FinishKeepsEvidence(s, s.reader.inline[0].run, s.reader.inline[0].err, ByReader); }
    case _ =>
  }

  lemma AcceptKeepsEvidence(s: State, bytes: nat)
    requires Reader.CanReaderAccept(s)
    ensures Reader.DoReaderAccept(s, bytes).ev == s.ev
  {
    hide AcceptRetained, Admissible, Reserve;
    var rd := s.reader;
    var (b, l) := Reserve(s.mem.budget, 3, bytes);
    if l.Some? {
      var s1 := LetGo(s.(reader := rd.(targets := rd.targets[1..])), multiset{l.value});
      AcceptFrame(s1.(mem := s1.mem.(budget := b)), rd.targets[0], Parked(rd.frame, rd.note, l.value));
    }
  }

  lemma CloserGrows(s: State, a: Closing.Action)
    requires Closing.Enabled(s, a)
    ensures EvidenceGrows(s.ev, Closing.Step(s, a).ev)
  {
    hide Resolve, FinishRun, Release, DiscardFirst, Closing.CanSnapshot, Concat, ConcatReplays, RetainAll;
    hide Closing.MarkAll, Totals.Union;
    match a
    case PublishPending =>
      var p := s.close.pub.pending[0];
      if p.no in s.ev.owner { ResolveGrows(s, p, s.ev.owner[p.no]); }
    case PublishReplay =>
      var p := s.close.pub.replay[0];
      if p.no in s.ev.owner { ResolveGrows(s, p, s.ev.owner[p.no]); }
    case PublishFinish => FinishKeepsEvidence(s, s.close.pub.finishing[0], Cause(s), ByError);
    case DiscardQueued => DiscardKeepsClose(s);
    case _ =>
  }

  lemma DispatcherGrows(s: State, a: Dispatch.Action)
    requires Dispatch.Enabled(s, a)
    ensures EvidenceGrows(s.ev, Dispatch.Step(s, a).ev)
  {
    hide FinishRun;
    if a.Complete? {
      FinishKeepsEvidence(s, s.q.disp.completions[0].run, s.q.disp.completions[0].err, ByDispatch(s.q.disp.e.frame));
    }
  }

  // ----------------------------------------------------------------- publishing

  /** The publisher's own steps: what it takes off a list it settles. */
  lemma PublishSettles(s: State, a: Closing.Action, r: RunId, no: nat)
    requires Closing.Enabled(s, a) && Publishes(Client.ByCloser(a)) && PhaseInv(s)
    ensures RunSettles(s, r) ==> RunSettles(Closing.Step(s, a), r)
    ensures EvidenceSettles(s, no) ==> EvidenceSettles(Closing.Step(s, a), no)
  {
    hide PhaseInv, RunSettles, EvidenceSettles, Resolve;
    match a
    case PublishPending => PendingSettles(s, r, no);
    case PublishReplay => ReplaySettles(s, r, no);
    case PublishFinish => FinishSettles(s, r, no);
    case PublishDone => DoneSettles(s, r, no);
    case _ =>
  }

  lemma PendingSettles(s: State, r: RunId, no: nat)
    requires Closing.CanPublishPending(s)
    ensures RunSettles(s, r) ==> RunSettles(Closing.DoPublishPending(s), r)
    ensures EvidenceSettles(s, no) ==> EvidenceSettles(Closing.DoPublishPending(s), no)
  {
    hide Resolve, Truthful;
    var p := s.close.pub.pending[0];
    assert s.close.pub.pending == [p] + s.close.pub.pending[1..];
    if p.no in s.ev.owner { ResolveKeepsRun(s, p, s.ev.owner[p.no], r); ResolveGrows(s, p, s.ev.owner[p.no]); }
  }

  lemma ReplaySettles(s: State, r: RunId, no: nat)
    requires Closing.CanPublishReplay(s)
    ensures RunSettles(s, r) ==> RunSettles(Closing.DoPublishReplay(s), r)
    ensures EvidenceSettles(s, no) ==> EvidenceSettles(Closing.DoPublishReplay(s), no)
  {
    hide Resolve, Truthful;
    var p := s.close.pub.replay[0];
    assert s.close.pub.replay == [p] + s.close.pub.replay[1..];
    if p.no in s.ev.owner { ResolveKeepsRun(s, p, s.ev.owner[p.no], r); ResolveGrows(s, p, s.ev.owner[p.no]); }
  }

  lemma ResolveKeepsRun(s: State, p: Parked, q: RunId, r: RunId)
    ensures var t := Resolve(s, p, q);
            && t.close == s.close
            && (r in s.slots ==> r in t.slots && (s.slots[r].run.terminal ==> t.slots[r].run.terminal))
  {
    hide Resolve, Truthful;
    Frozen.ResolveEvolves(s, p, q);
    assert r in s.slots ==> Frozen.SlotEvolves(s.slots[r], Resolve(s, p, q).slots[r], s.close.reason);
  }

  lemma FinishSettles(s: State, r: RunId, no: nat)
    requires Closing.CanPublishFinish(s) && PhaseInv(s)
    ensures RunSettles(s, r) ==> RunSettles(Closing.DoPublishFinish(s), r)
    ensures EvidenceSettles(s, no) ==> EvidenceSettles(Closing.DoPublishFinish(s), no)
  {
    hide PhaseInv;
    var list := s.close.pub.finishing;
    assert list == [list[0]] + list[1..];
    FinishingBegun(s);
  }

  lemma FinishingBegun(s: State)
    requires Closing.CanPublishFinish(s) && PhaseInv(s)
    ensures s.close.pub.finishing[0] in s.slots
  {
    assert s.close.pub.finishing[0] in s.close.pub.finishing;
  }

  lemma DoneSettles(s: State, r: RunId, no: nat)
    requires Closing.CanPublishDone(s)
    ensures RunSettles(s, r) ==> RunSettles(Closing.Step(s, Closing.PublishDone), r)
    ensures EvidenceSettles(s, no) ==> EvidenceSettles(Closing.Step(s, Closing.PublishDone), no)
  {
  }

  lemma OthersSettle(s: State, t: State, r: RunId, no: nat)
    requires t.close.pub == s.close.pub && Frozen.RunsEvolve(s, t) && EvidenceGrows(s.ev, t.ev)
    ensures RunSettles(s, r) ==> RunSettles(t, r)
    ensures EvidenceSettles(s, no) ==> EvidenceSettles(t, no)
  {
    hide Truthful;
    if RunSettles(s, r) { assert Frozen.SlotEvolves(s.slots[r], t.slots[r], s.close.reason); }
  }

  lemma StepSettles(s: State, a: Client.Action, t: State, r: RunId, no: nat)
    requires Base(s) && Goes(s, a, t) && TookSnapshot(s.close.pub)
    ensures RunSettles(s, r) ==> RunSettles(t, r)
    ensures EvidenceSettles(s, no) ==> EvidenceSettles(t, no)
  {
    hide Base, RunSettles, EvidenceSettles, PhaseInv, Frozen.CloseInv, Frozen.RunsEvolve, Frozen.CloseEvolves;
    hide EvidenceGrows, TookSnapshot;
    hide Reader.Enabled, Reader.Step, Starter.Enabled, Starter.Step, Closing.Enabled, Closing.Step;
    hide Dispatch.Enabled, Dispatch.Step;
    Scope.Parts(s);
    if Publishes(a) {
      PublishSettles(s, a.closer, r, no);
    } else {
      OthersDoNotPublish(s, a);
      Frozen.Steps(s, a);
      StepGrows(s, a);
      OthersSettle(s, t, r, no);
    }
  }

  // ----------------------------------------------------------------- whole runs

  ghost predicate Snapshots(a: Client.Action) { a.ByCloser? && a.closer.Snapshot? }

  /** The snapshot puts every registered run and all parked evidence on a list. */
  lemma SnapshotLists(s: State, a: Closing.Action, r: RunId, no: nat)
    requires a.Snapshot? && Closing.Enabled(s, a) && Base(s)
    ensures Scope.IsRegistered(s, r) ==> RunSettles(Closing.Step(s, a), r)
    ensures IsParked(s, no) ==> EvidenceSettles(Closing.Step(s, a), no)
  {
    hide Base, PhaseInv, RegistryInv, Scope.IsRegistered, IsParked, RunSettles, EvidenceSettles, Closing.CanSnapshot;
    Scope.Parts(s);
    if Scope.IsRegistered(s, r) { RunListed(s, a.turns, a.runs, a.finishing, r); }
    if IsParked(s, no) { EvidenceListed(s, a.turns, a.runs, a.finishing, no); }
  }

  lemma RunListed(s: State, turns: seq<Id>, runs: seq<RunId>, finishing: seq<RunId>, r: RunId)
    requires Closing.CanSnapshot(s, turns, runs, finishing) && RegistryInv(s) && Scope.IsRegistered(s, r)
    ensures RunSettles(Closing.DoSnapshot(s, turns, runs, finishing), r)
  {
    hide RegistryInv, Concat, ConcatReplays, RetainAll, Leases, Totals.Union;
    assert r in Closing.Registered(s);
    assert r in multiset(Closing.Registered(s));
    assert r in finishing by { assert r in multiset(finishing); }
    InSlots(s, r);
  }

  lemma InSlots(s: State, r: RunId)
    requires RegistryInv(s) && Scope.IsRegistered(s, r)
    ensures r in s.slots
  {
  }

  /** Evidence parked for an armed turn, or still to be replayed by a run that is
      attaching itself. */
  ghost predicate IsParked(s: State, no: nat) {
    no in s.ev.owner
    && ((exists t <- s.reg.pend :: exists p <- s.reg.pend[t] :: p.no == no)
        || (exists r <- s.slots :: s.slots[r].caller.Replay? && exists p <- s.slots[r].caller.list :: p.no == no))
  }

  lemma EvidenceListed(s: State, turns: seq<Id>, runs: seq<RunId>, finishing: seq<RunId>, no: nat)
    requires Closing.CanSnapshot(s, turns, runs, finishing) && IsParked(s, no)
    ensures EvidenceSettles(Closing.DoSnapshot(s, turns, runs, finishing), no)
  {
    hide RetainAll, Leases, Totals.Union, Concat, ConcatReplays, Closing.Registered;
    if t :| t in s.reg.pend && exists p <- s.reg.pend[t] :: p.no == no {
      var p :| p in s.reg.pend[t] && p.no == no;
      assert t in multiset(s.reg.pend.Keys);
      assert t in turns by { assert t in multiset(turns); }
      InConcat(s.reg.pend, turns, t, p);
    } else {
      var r :| r in s.slots && s.slots[r].caller.Replay? && exists p <- s.slots[r].caller.list :: p.no == no;
      var p :| p in s.slots[r].caller.list && p.no == no;
      assert r in multiset(Closing.Replaying(s));
      assert r in runs by { assert r in multiset(runs); }
      InReplays(s.slots, runs, r, p);
    }
  }

  lemma {:induction false} InConcat(m: map<Id, seq<Parked>>, keys: seq<Id>, t: Id, p: Parked)
    requires t in keys && p in ListAt(m, t)
    ensures p in Concat(m, keys)
  {
    if keys[0] != t { InConcat(m, keys[1..], t, p); }
  }

  lemma {:induction false} InReplays(slots: map<RunId, Slot>, rs: seq<RunId>, r: RunId, p: Parked)
    requires r in rs && r in slots && p in ReplayList(slots[r].caller)
    ensures p in ConcatReplays(slots, rs)
  {
    if rs[0] != r { InReplays(slots, rs[1..], r, p); }
  }

  lemma {:induction false} AlwaysSettles(
    states: seq<State>, actions: seq<Client.Action>, i: nat, j: nat, r: RunId, no: nat)
    requires Client.IsRun(states, actions) && i < j < |states| && Snapshots(actions[i])
    ensures TookSnapshot(states[j].close.pub)
    ensures Scope.IsRegistered(states[i], r) ==> RunSettles(states[j], r)
    ensures IsParked(states[i], no) ==> EvidenceSettles(states[j], no)
    decreases j
  {
    hide Base, Scope.IsRegistered, IsParked, RunSettles, EvidenceSettles, Client.Step, Client.Enabled;
    AlwaysBase(states, actions, j - 1);
    StepAt(states, actions, j - 1);
    if j == i + 1 {
      SnapshotAt(states[i], actions[i]);
      SnapshotLists(states[i], actions[i].closer, r, no);
    } else {
      AlwaysSettles(states, actions, i, j - 1, r, no);
      StepSettles(states[j - 1], actions[j - 1], states[j], r, no);
      Frozen.NothingThaws(states, actions, j - 1, j);
    }
  }

  lemma SnapshotAt(s: State, a: Client.Action)
    requires Snapshots(a) && Client.Enabled(s, a)
    ensures Closing.Enabled(s, a.closer) && Client.Step(s, a) == Closing.Step(s, a.closer)
    ensures TookSnapshot(Closing.Step(s, a.closer).close.pub)
  {
    hide Closing.CanSnapshot, Concat, ConcatReplays, RetainAll, Leases, Totals.Union;
  }

  /** Once publication is done, every run that was registered at the snapshot is
      finished, with the close cause unless it had finished before; and the evidence
      that was parked then is resolved. */
  lemma PublicationSettles(states: seq<State>, actions: seq<Client.Action>, i: nat, j: nat, r: RunId, no: nat)
    requires Client.IsRun(states, actions) && i < j < |states| && Snapshots(actions[i])
    requires states[j].close.pub.Published?
    ensures Scope.IsRegistered(states[i], r) ==>
              && r in states[i].slots && r in states[j].slots && states[j].slots[r].run.terminal
              && states[j].close.reason.Some?
              && (states[i].slots[r].run.terminal || states[j].slots[r].run.err == states[j].close.reason)
    ensures IsParked(states[i], no) ==> no in states[j].ev.ready
  {
    hide Base, RegistryInv, Client.IsRun, Scope.IsRegistered, IsParked, Truthful, Frozen.CloseInv;
    AlwaysSettles(states, actions, i, j, r, no);
    if Scope.IsRegistered(states[i], r) {
      AlwaysBase(states, actions, i);
      Scope.Parts(states[i]);
      InSlots(states[i], r);
      Frozen.NothingThaws(states, actions, i, j);
      SnapshotClosed(states, actions, i);
      assert Frozen.SlotEvolves(states[i].slots[r], states[j].slots[r], states[i].close.reason);
    }
  }

  lemma SnapshotClosed(states: seq<State>, actions: seq<Client.Action>, i: nat)
    requires Client.IsRun(states, actions) && i + 1 < |states| && Snapshots(actions[i])
    ensures states[i].close.reason.Some?
  {
    hide Client.Step, Concat, ConcatReplays;
    Frozen.CauseIffClosed(states, actions, i);
    assert Client.Enabled(states[i], actions[i]);
  }

  // ------------------------------------------------ nobody registers after closing

  /** Nobody becomes registered. */
  ghost predicate NobodyNew(s: State, t: State) { forall r :: Scope.IsRegistered(t, r) ==> Scope.IsRegistered(s, r) }

  lemma SameRegistry(s: State, t: State)
    requires t.reg.streams == s.reg.streams && t.reg.attaching == s.reg.attaching
    ensures NobodyNew(s, t)
  {
    forall r | Scope.IsRegistered(t, r) ensures Scope.IsRegistered(s, r) {
      if u :| u in t.reg.streams && r in t.reg.streams[u] {
        assert u in s.reg.streams && r in s.reg.streams[u];
      } else {
        var u :| u in t.reg.attaching && r in t.reg.attaching[u];
        assert u in s.reg.attaching && r in s.reg.attaching[u];
      }
    }
  }

  /** Runs leave the registries. */
  lemma FewerRegistered(s: State, t: State, thread: Id, turn: Id, q: RunId)
    requires t.reg.streams == Without(s.reg.streams, turn, q) || t.reg.streams == s.reg.streams
    requires t.reg.attaching == Without(s.reg.attaching, thread, q) || t.reg.attaching == s.reg.attaching
    ensures NobodyNew(s, t)
  {
    forall r | Scope.IsRegistered(t, r) ensures Scope.IsRegistered(s, r) {
      if u :| u in t.reg.streams && r in t.reg.streams[u] {
        assert u in s.reg.streams && r in s.reg.streams[u];
      } else {
        var u :| u in t.reg.attaching && r in t.reg.attaching[u];
        assert u in s.reg.attaching && r in s.reg.attaching[u];
      }
    }
  }

  /** Publishing a turn moves a run that was attaching. */
  lemma PublishedWasAttaching(s: State, q: RunId)
    requires RegistryInv(s) && Starter.CanAttachPublish(s, q)
    ensures NobodyNew(s, Starter.DoAttachPublish(s, q))
  {
    hide StreamsOk, AttachingOk, ArmedOk, KeysOk, ParkedOk, Emptied;
    var x := s.slots[q];
    var t := Starter.DoAttachPublish(s, q);
    if x.run.terminal {
      FewerRegistered(s, t, x.run.threadId, x.run.turnId, q);
    } else {
      assert q in Under(s.reg.attaching, x.run.threadId);
      forall r | Scope.IsRegistered(t, r) ensures Scope.IsRegistered(s, r) {
        if r != q {
          if u :| u in t.reg.streams && r in t.reg.streams[u] {
            assert u in s.reg.streams && r in s.reg.streams[u];
          } else {
            var u :| u in t.reg.attaching && r in t.reg.attaching[u];
            assert u in s.reg.attaching && r in s.reg.attaching[u];
          }
        }
      }
    }
  }

  lemma StarterRegisters(s: State, q: RunId, a: Starter.Action)
    requires RegistryInv(s) && s.close.closed && Starter.Enabled(s, q, a)
    ensures NobodyNew(s, Starter.Step(s, q, a))
  {
    hide RegistryInv, NobodyNew, Resolve, FinishRun, Without, With, Starter.Mine, Starter.KeepOthers, ListLeases;
    hide AcceptRetained, Starter.DoAttachPublish, Starter.DoFinishCollect;
    match a
    case AttachPublish => PublishedWasAttaching(s, q);
    case FinishCollect =>
      CollectLeaves(s, q);
      FewerRegistered(s, Starter.Step(s, q, a), s.slots[q].run.threadId, "", q);
    case Unregister =>
      FewerRegistered(s, Starter.Step(s, q, a), s.slots[q].run.threadId, s.slots[q].run.turnId, q);
    case _ => StarterKeepsRegistry(s, q, a);
  }

  lemma CollectLeaves(s: State, q: RunId)
    requires Starter.CanFinishCollect(s, q)
    ensures var t := Starter.DoFinishCollect(s, q);
            t.reg.streams == s.reg.streams && t.reg.attaching == Without(s.reg.attaching, s.slots[q].run.threadId, q)
  {
    hide Without, Starter.Mine, Starter.KeepOthers;
  }

  lemma FinishKeepsRegistry(s: State, r: RunId, err: Option<Err>, via: Via)
    ensures FinishRun(s, r, err, via).reg == s.reg && FinishRun(s, r, err, via).close == s.close
  {
  }

  lemma StarterKeepsRegistry(s: State, q: RunId, a: Starter.Action)
    requires s.close.closed && Starter.Enabled(s, q, a) && !a.AttachPublish? && !a.FinishCollect? && !a.Unregister?
    ensures NobodyNew(s, Starter.Step(s, q, a))
  {
    hide NobodyNew, Resolve, FinishRun, ListLeases, AcceptRetained;
    match a {
      case RegisterAccept => AcceptFrame(s, q, s.slots[q].caller.list[s.slots[q].caller.regNext]);
      case AttachResolve => ResolveFrame(s, s.slots[q].caller.list[s.slots[q].caller.next], q);
      case FinishResolve => ResolveFrame(s, s.slots[q].caller.list[s.slots[q].caller.finNext], q);
      case RegisterComplete =>
        var c := s.slots[q].caller;
        FinishKeepsRegistry(SetCaller(s, q, c.(todo := None)), c.todo.value.run, c.todo.value.err, ByRegister);
      case FinishRefused => FinishKeepsRegistry(SetCaller(s, q, Over), q, Some(s.slots[q].caller.refusal), ByError);
      case AttachNext =>
        var c := s.slots[q].caller;
        var no := c.list[c.next].no;
        if no in s.ev.completion {
          FinishKeepsRegistry(SetCaller(s, q, c.(next := c.next + 1, resolved := false)),
                              s.ev.completion[no].run, s.ev.completion[no].err, ByReplay);
        }
      case FinishComplete =>
        var c := s.slots[q].caller;
        var no := c.list[c.doneNext].no;
        if no in s.ev.completion {
          FinishKeepsRegistry(SetCaller(s, q, c.(doneNext := c.doneNext + 1)),
                              s.ev.completion[no].run, s.ev.completion[no].err, ByFinish(no));
        }
      case FinishEnd(err) =>
        FinishKeepsRegistry(LetGo(SetCaller(s, q, Over), ListLeases(s.slots[q].caller.list)), q, Some(err), ByError);
      case ExternalFinish(err) => FinishKeepsRegistry(s, q, Some(err), ByError);
      case _ =>
    }
    SameRegistry(s, Starter.Step(s, q, a));
  }

  lemma ReaderKeepsRegistry(s: State, a: Reader.Action)
    requires Reader.Enabled(s, a)
    ensures NobodyNew(s, Reader.Step(s, a))
  {
    hide NobodyNew, FinishRun, Reader.CanRoute, Reader.CanReaderAccept, Reader.CanArmTurn, ReleaseWaiter, Reserve;
    hide Reader.DoRoute, Reader.DoReaderAccept, Reader.DoArmTurn, Reader.DoArmThread;
    match a {
      case Route(note, order, bytes) => Reader.RouteKeepsRuns(s, note, order, bytes);
      case ArmTurn(r, turn, bytes) => Reader.ArmKeepsRuns(s, r, turn, bytes);
      case ArmThread(thread, bytes) => Reader.ArmThreadKeepsRuns(s, thread, bytes);
      case Accept(bytes) => AcceptKeepsRegistry(s, bytes);
      case Complete =>
        if s.reader.inline != [] { FinishKeepsRegistry(s, s.reader.inline[0].run, s.reader.inline[0].err, ByReader); }
      case Reject => WaiterKeepsRegistry(s, s.reader.frame, s.reader.fenced);
      case _ =>
    }
    SameRegistry(s, Reader.Step(s, a));
  }

  lemma AcceptKeepsRegistry(s: State, bytes: nat)
    requires Reader.CanReaderAccept(s)
    ensures Reader.DoReaderAccept(s, bytes).reg == s.reg
  {
    hide Reserve, AcceptRetained, Admissible;
    var rd := s.reader;
    var (b, l) := Reserve(s.mem.budget, 3, bytes);
    if l.Some? {
      var s1 := LetGo(s.(reader := rd.(targets := rd.targets[1..])), multiset{l.value});
      AcceptFrame(s1.(mem := s1.mem.(budget := b)), rd.targets[0], Parked(rd.frame, rd.note, l.value));
    }
  }

  lemma WaiterKeepsRegistry(s: State, frame: nat, evidence: bool)
    ensures ReleaseWaiter(s, frame, evidence).reg == s.reg && ReleaseWaiter(s, frame, evidence).close == s.close
  {
  }

  lemma CloserKeepsRegistry(s: State, a: Closing.Action)
    requires Closing.Enabled(s, a)
    ensures NobodyNew(s, Closing.Step(s, a))
  {
    hide NobodyNew, Resolve, FinishRun, Release, Closing.CanSnapshot, Concat, ConcatReplays, RetainAll, Closing.MarkAll;
    hide Totals.Union, ReleaseWaiter, Reserve, Retain;
    match a {
      case PublishPending =>
        var p := s.close.pub.pending[0];
        if p.no in s.ev.owner { ResolveFrame(s, p, s.ev.owner[p.no]); }
      case PublishReplay =>
        var p := s.close.pub.replay[0];
        if p.no in s.ev.owner { ResolveFrame(s, p, s.ev.owner[p.no]); }
      case PublishFinish => FinishKeepsRegistry(s, s.close.pub.finishing[0], Cause(s), ByError);
      case DiscardQueued => WaiterKeepsRegistry(s, s.q.queue[0].frame, s.q.queue[0].evidence);
      case _ =>
    }
    SameRegistry(s, Closing.Step(s, a));
  }

  lemma DispatcherKeepsRegistry(s: State, a: Dispatch.Action)
    requires Dispatch.Enabled(s, a)
    ensures NobodyNew(s, Dispatch.Step(s, a))
  {
    hide NobodyNew, FinishRun, ReleaseWaiter;
    match a {
      case Deliver => WaiterKeepsRegistry(s, s.q.disp.e.frame, s.q.disp.e.evidence);
      case DiscardHeld => WaiterKeepsRegistry(s, s.q.disp.e.frame, s.q.disp.e.evidence);
      case DiscardHead => WaiterKeepsRegistry(s, s.q.queue[0].frame, s.q.queue[0].evidence);
      case Complete =>
        FinishKeepsRegistry(s, s.q.disp.completions[0].run, s.q.disp.completions[0].err, ByDispatch(s.q.disp.e.frame));
      case _ =>
    }
    SameRegistry(s, Dispatch.Step(s, a));
  }

  lemma StepRegistersNobody(s: State, a: Client.Action)
    requires RegistryInv(s) && s.close.closed && Client.Enabled(s, a)
    ensures NobodyNew(s, Client.Step(s, a))
  {
    hide RegistryInv, NobodyNew, Starter.Enabled, Starter.Step, Reader.Enabled, Reader.Step, Closing.Enabled;
    hide Closing.Step, Dispatch.Enabled, Dispatch.Step;
    match a
    case ByStarter(q, b) => StarterRegisters(s, q, b);
    case ByReader(b) => ReaderKeepsRegistry(s, b);
    case ByCloser(b) => CloserKeepsRegistry(s, b);
    case ByDispatcher(b) => DispatcherKeepsRegistry(s, b);
  }

  /** Once the client is closed nobody registers any more. */
  lemma {:induction false} ClosedRegistersNobody(
    states: seq<State>, actions: seq<Client.Action>, i: nat, j: nat, r: RunId)
    requires Client.IsRun(states, actions) && i <= j < |states| && states[i].close.closed
    ensures states[j].close.closed && (Scope.IsRegistered(states[j], r) ==> Scope.IsRegistered(states[i], r))
    decreases j
  {
    hide Base, Scope.IsRegistered, Client.Enabled, Client.Step, RegistryInv;
    if i < j {
      ClosedRegistersNobody(states, actions, i, j - 1, r);
      AlwaysBase(states, actions, j - 1);
      Scope.Parts(states[j - 1]);
      StepAt(states, actions, j - 1);
      StepRegistersNobody(states[j - 1], actions[j - 1]);
      Frozen.NothingThaws(states, actions, j - 1, j);
    }
  }

  lemma TakesSnapshot(s: State, a: Client.Action)
    requires Base(s) && Client.Enabled(s, a) && !TookSnapshot(s.close.pub) && TookSnapshot(Client.Step(s, a).close.pub)
    ensures Snapshots(a)
  {
    hide Base, TookSnapshot, Starter.Enabled, Starter.Step, Reader.Enabled, Reader.Step, Dispatch.Enabled, Dispatch.Step;
    hide Closing.Enabled, Closing.Step;
    match a
    case ByStarter(r, b) => Fifo.StarterFrame(s, r, b);
    case ByReader(b) => ReaderTakesNone(s, b);
    case ByCloser(b) => if !b.Snapshot? { CloserTakes(s, b); }
    case ByDispatcher(b) => DispatcherTakesNone(s, b);
  }

  lemma ReaderTakesNone(s: State, a: Reader.Action)
    requires Reader.Enabled(s, a) && !TookSnapshot(s.close.pub)
    ensures !TookSnapshot(Reader.Step(s, a).close.pub)
  {
    hide Reserve, AcceptRetained, Admissible, Parkable, FinishRun, Reader.CanRoute, Reader.CanReaderAccept, ReleaseWaiter;
    hide Reader.DoReaderAccept;
    if a.Accept? { Frozen.ReaderAccepts(s, a.bytes); }
    if a.Complete? && s.reader.inline != [] {
      FinishKeepsRegistry(s, s.reader.inline[0].run, s.reader.inline[0].err, ByReader);
    }
  }

  lemma CloserTakes(s: State, a: Closing.Action)
    requires Closing.Enabled(s, a) && !TookSnapshot(s.close.pub) && !a.Snapshot?
    ensures !TookSnapshot(Closing.Step(s, a).close.pub)
  {
    hide Release, Reserve, Retain;
    if a.DiscardQueued? { DiscardKeepsClose(s); }
  }

  lemma DispatcherTakesNone(s: State, a: Dispatch.Action)
    requires Dispatch.Enabled(s, a) && !TookSnapshot(s.close.pub)
    ensures !TookSnapshot(Dispatch.Step(s, a).close.pub)
  {
    hide FinishRun;
    if a.DiscardHead? { DiscardKeepsClose(s); }
    if a.Complete? {
      FinishKeepsRegistry(s, s.q.disp.completions[0].run, s.q.disp.completions[0].err, ByDispatch(s.q.disp.e.frame));
    }
  }

  /** A drained or published client took its snapshot in some earlier step. */
  lemma {:induction false} SnapshotTaken(states: seq<State>, actions: seq<Client.Action>, j: nat) returns (i: nat)
    requires Client.IsRun(states, actions) && j < |states| && TookSnapshot(states[j].close.pub)
    ensures i < j && Snapshots(actions[i]) && states[i].close.closed
  {
    hide Base, Client.Enabled, Client.Step, TookSnapshot;
    if j == 0 {
      NoSnapshotYet(states[0]);
      assert false;
    } else if TookSnapshot(states[j - 1].close.pub) {
      i := SnapshotTaken(states, actions, j - 1);
    } else {
      AlwaysBase(states, actions, j - 1);
      StepAt(states, actions, j - 1);
      TakesSnapshot(states[j - 1], actions[j - 1]);
      SnapshotClosed(states, actions, j - 1);
      Frozen.CauseIffClosed(states, actions, j - 1);
      i := j - 1;
    }
  }

  lemma NoSnapshotYet(s: State)
    requires Client.IsInit(s)
    ensures !TookSnapshot(s.close.pub)
  {
  }

  /** When the close has been published, every run that is registered, whenever it
      registered, is finished. */
  lemma PublishedFinishesAll(states: seq<State>, actions: seq<Client.Action>, j: nat, r: RunId)
    requires Client.IsRun(states, actions) && j < |states| && states[j].close.pub.Published?
    requires Scope.IsRegistered(states[j], r)
    ensures r in states[j].slots && states[j].slots[r].run.terminal
  {
    hide Client.IsRun, Scope.IsRegistered;
    var i := SnapshotTaken(states, actions, j);
    ClosedRegistersNobody(states, actions, i, j, r);
    PublicationSettles(states, actions, i, j, r, 0);
  }
}
