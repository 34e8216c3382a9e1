/** Order through attachment: the turn frames of a run are accepted in the order of
    ingestion, on the live path, from the parked lists, by the replay of an
    attachment, by finishing, and by the failure snapshot. It is a claim about each
    run: one whose turn id no other run was bound to, and which no snapshot
    overtook with a live frame. Module Exactness shows that the condition on the
    snapshot is exact. */
module Order {
  import opened Wrappers
  import opened Attribution
  import opened Retention
  import opened ExactRun
  import opened ClientState
  import opened Phases
  import opened Binding
  import opened Focus
  import opened Reached
  import Reader
  import Starter
  import Closing
  import Dispatch
  import Client
  import Frozen
  import Provenance
  import Registration
  import Once

  /** The run takes no more frames. */
  predicate Stopped(run: Run) { run.terminal || run.terminalAdmitted }

  /** The turn frames of a history ascend. */
  ghost predicate Ascending(history: seq<Frame>) {
    forall i, j :: 0 <= i < j < |history| && IsTurn(history[i]) && IsTurn(history[j]) ==> history[i].no < history[j].no
  }

  /** While the run takes frames, those accepted come before all open evidence. */
  ghost predicate Ahead(f: RunId, run: Run, ev: Evidence) {
    Stopped(run)
    || forall i, n :: 0 <= i < |run.history| && IsTurn(run.history[i]) && Open(ev, f, n) ==> run.history[i].no < n
  }

  predicate InList(list: seq<Parked>, n: nat) { exists i :: 0 <= i < |list| && list[i].no == n }

  predicate InRest(list: seq<Parked>, from: nat, n: nat) { exists i :: from <= i < |list| && list[i].no == n }

  /** Where open evidence of a run waits, by the phase of the run: in the parked
      list of its turn, in the rest of its starter's list, or with the publisher. */
  predicate WaitsAt(x: Slot, n: nat, parked: seq<Parked>, pub: Publisher) {
    if x.taken then pub.Draining? && InList(pub.pending, n)
    else if Closing.BeforeCollection(x.caller) then InList(parked, n)
    else match x.caller
      case Replay(list, next, resolved) =>
        && InRest(list, if resolved then next + 1 else next, n)
        && (x.copied ==> pub.Draining? && InList(pub.replay, n))
      case FinResolve(list, next) => InRest(list, next, n)
      case _ => false
  }

  ghost predicate Covered(f: RunId, x: Slot, parked: seq<Parked>, ev: Evidence, pub: Publisher) {
    !x.run.terminal ==> forall n :: Open(ev, f, n) ==> WaitsAt(x, n, parked, pub)
  }

  /** A starter's list is its own evidence, in order; after the snapshot took a
      run's parked frames its list is empty. */
  ghost predicate OwnList(f: RunId, x: Slot, ev: Evidence, pub: Publisher) {
    && (x.caller.Replay? || x.caller.FinResolve? ==>
          Once.Sorted(x.caller.list) && forall p <- x.caller.list :: Owns(ev, f, p.no))
    && (x.taken && (x.caller.Replay? || x.caller.FinResolve?) ==> x.caller.list == [])
    && (x.copied ==> !x.taken && Registration.IsStreaming(x))
    && (x.taken || x.copied ==> pub.Draining? || pub.Published?)
  }

  /** What is parked for the turn is the run's own, in order; a starter that
      collected left nothing. */
  ghost predicate ParkedOrdered(f: RunId, x: Slot, parked: seq<Parked>, ev: Evidence) {
    && Once.Sorted(parked) && (forall p <- parked :: Owns(ev, f, p.no))
    && (parked != [] ==> x.run.terminal || Closing.BeforeCollection(x.caller))
  }

  /** Evidence of the run ascends in a list of the publisher. */
  ghost predicate OwnAscend(f: RunId, list: seq<Parked>, ev: Evidence) {
    forall i, j :: 0 <= i < j < |list| && Owns(ev, f, list[i].no) && Owns(ev, f, list[j].no) ==> list[i].no < list[j].no
  }

  ghost predicate PublisherOrdered(f: RunId, x: Slot, ev: Evidence, pub: Publisher) {
    pub.Draining? ==>
      && OwnAscend(f, pub.pending, ev) && OwnAscend(f, pub.replay, ev)
      && (forall p <- pub.pending :: Owns(ev, f, p.no) ==> x.taken || x.run.terminal)
      && (forall p <- pub.replay :: Owns(ev, f, p.no) ==> x.copied)
  }

  /** Nothing of a run that is still to be offered a live turn frame waits with the
      publisher, unless that frame ends the run's evidence. */
  ghost predicate OfferOrdered(f: RunId, x: Slot, ev: Evidence, rd: ClientState.Reader) {
    Offered(rd, f) && x.taken && !Stopped(x.run) && !rd.note.payload.TurnCompleted? ==> forall n :: !Open(ev, f, n)
  }

  /** The invariant of one run: its slot, its parked frames, its evidence, the
      publisher's lists and the reader's offer. */
  ghost predicate Local(f: RunId, x: Slot, parked: seq<Parked>, ev: Evidence, pub: Publisher, rd: ClientState.Reader) {
    && Ascending(x.run.history) && Ahead(f, x.run, ev) && Covered(f, x, parked, ev, pub) && OwnList(f, x, ev, pub)
    && ParkedOrdered(f, x, parked, ev) && PublisherOrdered(f, x, ev, pub) && OfferOrdered(f, x, ev, rd)
  }

  ghost predicate OrderedRun(s: State, f: RunId) {
    f in s.slots && Local(f, s.slots[f], ParkedOf(s.reg.pend, s.slots[f]), s.ev, s.close.pub, s.reader)
  }

  // ------------------------------------------------------------ steps of others

  lemma TailHolds(list: seq<Parked>, n: nat)
    ensures InList(list, n) ==> list[0].no == n || InList(list[1..], n)
  {
    if InList(list, n) {
      var i :| 0 <= i < |list| && list[i].no == n;
      if i > 0 { assert list[1..][i - 1].no == n; }
    }
  }

  /** Open evidence of the run is still with a publisher that moved past others'. */
  lemma StillPublished(f: RunId, a: seq<Parked>, b: seq<Parked>, ev: Evidence)
    requires Dropped(f, a, b, ev)
    ensures forall n :: Open(ev, f, n) && InList(a, n) ==> InList(b, n)
    ensures forall p <- b :: p in a
    ensures OwnAscend(f, a, ev) ==> OwnAscend(f, b, ev)
  {
    forall n | Open(ev, f, n) && InList(a, n) ensures InList(b, n) {
      TailHolds(a, n);
    }
  }

  lemma SameAscend(f: RunId, list: seq<Parked>, a: Evidence, b: Evidence)
    requires SameFrames(a, b, f) && OwnAscend(f, list, a)
    ensures OwnAscend(f, list, b)
  {
    hide Owns, Open;
  }

  lemma PublisherLess(f: RunId, x: Slot, a: Evidence, b: Evidence, pub: Publisher, pub': Publisher)
    requires PublisherOrdered(f, x, a, pub) && SameFrames(a, b, f) && PublisherSeen(f, pub, pub', b)
    ensures PublisherOrdered(f, x, b, pub')
    ensures pub'.Draining? ==> forall n :: Open(b, f, n) && InList(pub.pending, n) ==> InList(pub'.pending, n)
    ensures pub'.Draining? ==> forall n :: Open(b, f, n) && InList(pub.replay, n) ==> InList(pub'.replay, n)
  {
    if pub'.Draining? {
      SameAscend(f, pub.pending, a, b);
      SameAscend(f, pub.replay, a, b);
      StillPublished(f, pub.pending, pub'.pending, b);
      StillPublished(f, pub.replay, pub'.replay, b);
      hide OwnAscend, InList, Dropped, Owns, Open;
    }
  }

  lemma CoveredLess(f: RunId, x: Slot, parked: seq<Parked>, a: Evidence, b: Evidence, pub: Publisher, pub': Publisher)
    requires Covered(f, x, parked, a, pub) && (forall n :: Open(b, f, n) ==> Open(a, f, n))
    requires pub'.Draining? ==> pub.Draining? && forall n :: Open(b, f, n) && InList(pub.pending, n) ==>
               InList(pub'.pending, n)
    requires pub'.Draining? ==> forall n :: Open(b, f, n) && InList(pub.replay, n) ==> InList(pub'.replay, n)
    requires pub.Draining? && !pub'.Draining? ==> pub.pending == [] && pub.replay == []
    ensures Covered(f, x, parked, b, pub')
  {
    hide Open, InRest;
    if !x.run.terminal {
      forall n | Open(b, f, n) ensures WaitsAt(x, n, parked, pub') {
        assert WaitsAt(x, n, parked, pub);
      }
    }
  }

  /** Somebody else's step. */
  lemma SeenLocal(
    f: RunId, x: Slot, y: Slot, parked: seq<Parked>, a: Evidence, b: Evidence, pub: Publisher, pub': Publisher,
    rd: ClientState.Reader, rd': ClientState.Reader)
    requires Local(f, x, parked, a, pub, rd) && Rests(x, y) && SameFrames(a, b, f) && PublisherSeen(f, pub, pub', b)
    requires OffersSeen(f, rd, rd')
    ensures Local(f, y, parked, b, pub', rd')
  {
    hide Once.Sorted, Open, Owns, Offered, InRest, InList, Dropped, OwnAscend, Ascending;
    PublisherLess(f, x, a, b, pub, pub');
    CoveredLess(f, x, parked, a, b, pub, pub');
    assert Ahead(f, y.run, b);
    assert OwnList(f, y, b, pub');
  }

  lemma SeenOrdered(s: State, s': State, f: RunId)
    requires OrderedRun(s, f) && Seen(s, s', f)
    ensures OrderedRun(s', f)
  {
    hide Local, Rests, ParkedOf, SameFrames, PublisherSeen, OffersSeen;
    SeenLocal(f, s.slots[f], s'.slots[f], ParkedOf(s.reg.pend, s.slots[f]), s.ev, s'.ev, s.close.pub, s'.close.pub,
              s.reader, s'.reader);
  }

  // ------------------------------------------------------------ the run's own steps

  /** The run's slot changes; the rest of its view stays. */
  lemma SlotOrdered(s: State, f: RunId, y: Slot, s': State)
    requires f in s.slots && s'.slots == s.slots[f := y] && s'.ev == s.ev && s'.close == s.close
    requires s'.reader == s.reader
    requires Local(f, y, ParkedOf(s'.reg.pend, y), s.ev, s.close.pub, s.reader)
    ensures OrderedRun(s', f)
  {
  }

  /** A starter that has not collected yet moves on, or stays. */
  lemma MovesLocal(f: RunId, x: Slot, y: Slot, parked: seq<Parked>, ev: Evidence, pub: Publisher,
          rd: ClientState.Reader)
    requires Local(f, x, parked, ev, pub, rd) && y.run.history == x.run.history
    requires y.run.terminal == x.run.terminal && y.run.terminalAdmitted == x.run.terminalAdmitted
    requires y.taken == x.taken && y.copied == x.copied
    requires Closing.BeforeCollection(x.caller) && Closing.BeforeCollection(y.caller)
    ensures Local(f, y, parked, ev, pub, rd)
  {
    hide Once.Sorted, Open, Owns, Offered, InRest, InList, OwnAscend, Ascending;
  }

  /** A run without turn frames and evidence of any kind. */
  lemma UnboundLocal(f: RunId, x: Slot, ev: Evidence, pub: Publisher, rd: ClientState.Reader)
    requires forall g <- x.run.history :: !IsTurn(g)
    requires forall n :: !Owns(ev, f, n)
    requires !x.copied && (x.taken ==> pub.Draining? || pub.Published?)
    requires x.caller.FinResolve? ==> x.caller.list == []
    requires !x.caller.Replay?
    ensures Local(f, x, [], ev, pub, rd)
  {
    assert forall i :: 0 <= i < |x.run.history| ==> x.run.history[i] in x.run.history;
    assert forall n :: Open(ev, f, n) ==> Owns(ev, f, n);
    hide Owns, Open;
  }

  lemma UnboundOwnsNothing(s: State, f: RunId)
    requires BindingInv(s) && f in s.slots && s.slots[f].arm.None?
    ensures forall n :: !Owns(s.ev, f, n)
  {
    hide SlotsBound, OffersBound;
    assert OwnersBound(s.log, s.slots, s.ev.owner);
  }

  /** The starter's list moves to the next frame, or is done. */
  predicate ListAdvances(x: Slot, y: Slot) {
    && y == x.(caller := y.caller, ordered := y.ordered)
    && (|| (x.caller.Replay? && x.caller.resolved
        && y.caller == x.caller.(next := x.caller.next + 1, resolved := false))
        || (x.caller.Replay? && !x.caller.resolved && x.caller.next >= |x.caller.list| && y.caller.Attached?)
        || (x.caller.FinResolve? && x.caller.finNext >= |x.caller.list| && y.caller.FinComplete?)
        || (x.caller.FinComplete? && (y.caller.FinComplete? || y.caller.Over?)))
  }

  lemma AdvancesLocal(f: RunId, x: Slot, y: Slot, parked: seq<Parked>, ev: Evidence, pub: Publisher,
          rd: ClientState.Reader)
    requires Local(f, x, parked, ev, pub, rd) && ListAdvances(x, y)
    ensures Local(f, y, parked, ev, pub, rd)
  {
    hide Ascending, Ahead, Once.Sorted, InList, Open, Owns, OwnAscend, Offered;
  }

  /** The head of a starter's list is resolved. */
  predicate PassesHead(x: Slot, y: Slot, no: nat) {
    && y == x.(caller := y.caller)
    && (|| (x.caller.Replay? && !x.caller.resolved && x.caller.next < |x.caller.list|
            && no == x.caller.list[x.caller.next].no && y.caller == x.caller.(resolved := true))
        || (x.caller.FinResolve? && x.caller.finNext < |x.caller.list|
            && no == x.caller.list[x.caller.finNext].no && y.caller == x.caller.(finNext := x.caller.finNext + 1)))
  }

  lemma PassesLocal(
    f: RunId, x: Slot, y: Slot, no: nat, parked: seq<Parked>, ev: Evidence, pub: Publisher, rd: ClientState.Reader)
    requires Local(f, x, parked, ev, pub, rd) && PassesHead(x, y, no) && no in ev.ready
    ensures Local(f, y, parked, ev, pub, rd)
  {
    hide Ascending, Ahead, Once.Sorted, InList, Owns, OwnAscend, Offered;
  }

  /** The frame a starter is about to resolve is the first open one of its run. */
  lemma HeadIsFirst(f: RunId, x: Slot, y: Slot, no: nat, parked: seq<Parked>, ev: Evidence, pub: Publisher,
          rd: ClientState.Reader)
    requires Local(f, x, parked, ev, pub, rd) && PassesHead(x, y, no)
    ensures Owns(ev, f, no) && (!x.run.terminal ==> forall n :: Open(ev, f, n) ==> no <= n)
  {
    hide Ascending, Ahead, InList, OwnAscend, Offered, Owns, Open;
    var i := if x.caller.Replay? then x.caller.next else x.caller.finNext;
    assert x.caller.list[i] in x.caller.list;
    if !x.run.terminal {
      forall n | Open(ev, f, n) ensures no <= n {
        assert WaitsAt(x, n, parked, pub);
      }
    }
  }

  /** A bound run's parked list moves to its starter. */
  lemma TakesListLocal(f: RunId, x: Slot, y: Slot, parked: seq<Parked>, ev: Evidence, pub: Publisher,
          rd: ClientState.Reader)
    requires Local(f, x, parked, ev, pub, rd) && Closing.BeforeCollection(x.caller)
    requires y == x.(caller := y.caller, arm := y.arm, ordered := y.ordered)
    requires y.caller == Replay(parked, 0, false) || y.caller == FinResolve(parked, 0)
    requires pub.Draining? || pub.Published? ==> parked == []
    ensures Local(f, y, [], ev, pub, rd)
  {
    forall n | InList(parked, n) ensures InRest(parked, 0, n) {}
    hide Ascending, Ahead, Once.Sorted, Open, Owns, OwnAscend, Offered, InRest, InList;
    NothingSorted();
  }

  lemma NothingSorted()
    ensures Once.Sorted([])
  {
  }

  /** A run that ended before it attached leaves its parked frames behind. */
  lemma EndedLocal(f: RunId, x: Slot, y: Slot, parked: seq<Parked>, ev: Evidence, pub: Publisher,
          rd: ClientState.Reader)
    requires Local(f, x, parked, ev, pub, rd) && x.run.terminal && Closing.BeforeCollection(x.caller)
    requires y == x.(caller := Attached, ordered := y.ordered)
    ensures Local(f, y, parked, ev, pub, rd)
  {
    hide Ascending, Ahead, Once.Sorted, Open, Owns, OwnAscend, Offered, InRest, InList;
  }

  /** Whoever resolves the first open evidence of a run keeps its order. */
  lemma TakesOpen(
    f: RunId, x: Slot, p: Parked, parked: seq<Parked>, a: Evidence, b: Evidence, pub: Publisher, rd: ClientState.Reader)
    requires Local(f, x, parked, a, pub, rd) && Open(a, f, p.no)
    requires !x.run.terminal ==> forall n :: Open(a, f, n) ==> p.no <= n
    requires b.owner == a.owner && b.ready == a.ready + {p.no}
    ensures Local(f, Taking(x, p), parked, b, pub, rd)
  {
    var y := Taking(x, p);
    TakesFrame(x, p);
    assert forall n :: Owns(b, f, n) <==> Owns(a, f, n);
    assert forall n :: Open(b, f, n) <==> Open(a, f, n) && n != p.no;
    hide Admissible, Accept, Taking, Open, Owns, Offered, Once.Sorted, InRest, InList;
    assert Ascending(y.run.history);
    assert Ahead(f, y.run, b);
    hide Ascending, Ahead;
    CoveredLess(f, x, parked, a, b, pub, pub);
  }

  /** A live frame comes after everything accepted, and nothing waits. */
  lemma TakesLive(
    f: RunId, x: Slot, p: Parked, parked: seq<Parked>, ev: Evidence, pub: Publisher,
    rd: ClientState.Reader, rd': ClientState.Reader)
    requires Local(f, x, parked, ev, pub, rd) && OffersSeen(f, rd, rd')
    requires ClassOf(p.note).Turn? ==>
               && (forall i :: 0 <= i < |x.run.history| ==> x.run.history[i].no < p.no)
               && (!Stopped(x.run) && !p.note.payload.TurnCompleted? ==> forall n :: !Open(ev, f, n))
    ensures Local(f, Taking(x, p), parked, ev, pub, rd')
  {
    var y := Taking(x, p);
    TakesFrame(x, p);
    hide Admissible, Accept, Taking, Open, Owns, Offered, Once.Sorted, InRest, InList, OwnAscend;
    assert Ascending(y.run.history);
    assert Ahead(f, y.run, ev);
  }

  lemma ResolveOrdered(s: State, p: Parked, f: RunId)
    requires OrderedRun(s, f) && Owns(s.ev, f, p.no)
    requires !s.slots[f].run.terminal ==> forall n :: Open(s.ev, f, n) ==> p.no <= n
    ensures OrderedRun(Resolve(s, p, f), f) && p.no in Resolve(s, p, f).ev.ready
    ensures Resolve(s, p, f) == s || Resolve(s, p, f).slots[f] == Taking(s.slots[f], p)
  {
    hide Local, Resolve, Taking;
    if p.no in s.ev.ready {
      ResolveNoop(s, p, f);
    } else {
      ResolveShape(s, p, f);
      TakesFrame(s.slots[f], p);
      TakesOpen(f, s.slots[f], p, ParkedOf(s.reg.pend, s.slots[f]), s.ev, Resolve(s, p, f).ev, s.close.pub, s.reader);
    }
  }

  // ----------------------------------------------------------------- starters

  lemma RunMoves(s: State, f: RunId, y: Slot, s': State)
    requires OrderedRun(s, f) && s'.slots == s.slots[f := y] && s'.ev == s.ev && s'.close == s.close
    requires s'.reader == s.reader
    requires s'.reg.pend == s.reg.pend && y.arm == s.slots[f].arm && y.run.history == s.slots[f].run.history
    requires y.run.terminal == s.slots[f].run.terminal && y.run.terminalAdmitted == s.slots[f].run.terminalAdmitted
    requires y.taken == s.slots[f].taken && y.copied == s.slots[f].copied
    requires Closing.BeforeCollection(s.slots[f].caller) && Closing.BeforeCollection(y.caller)
    ensures OrderedRun(s', f)
  {
    hide Local;
    MovesLocal(f, s.slots[f], y, ParkedOf(s.reg.pend, s.slots[f]), s.ev, s.close.pub, s.reader);
    SlotOrdered(s, f, y, s');
  }

  lemma RunAdvances(s: State, f: RunId, y: Slot, s': State)
    requires OrderedRun(s, f) && s'.slots == s.slots[f := y] && s'.ev == s.ev && s'.close == s.close
    requires s'.reader == s.reader
    requires s'.reg.pend == s.reg.pend && ListAdvances(s.slots[f], y)
    ensures OrderedRun(s', f)
  {
    hide Local, ListAdvances;
    AdvancesLocal(f, s.slots[f], y, ParkedOf(s.reg.pend, s.slots[f]), s.ev, s.close.pub, s.reader);
    assert ParkedOf(s'.reg.pend, y) == ParkedOf(s.reg.pend, s.slots[f]) by { AdvancesArm(s.slots[f], y); }
    SlotOrdered(s, f, y, s');
  }

  lemma AdvancesArm(x: Slot, y: Slot)
    requires ListAdvances(x, y)
    ensures y.arm == x.arm
  {
  }

  /** A run without a bound turn moves on, whatever its phase. */
  lemma UnboundMoves(s: State, f: RunId, y: Slot, s': State)
    requires OrderedRun(s, f) && BindingInv(s) && s.slots[f].arm.None?
    requires s'.slots == s.slots[f := y] && s'.ev == s.ev && s'.close == s.close && s'.reader == s.reader
    requires y == s.slots[f].(caller := y.caller, ordered := y.ordered) && !y.caller.Replay?
    requires y.caller.FinResolve? ==> y.caller.list == []
    requires !s.slots[f].copied
    ensures OrderedRun(s', f)
  {
    UnboundOwnsNothing(s, f);
    Binding.SlotAt(s, f);
    hide BindingInv, Owns;
    assert s.slots[f].taken ==> s.close.pub.Draining? || s.close.pub.Published?;
    UnboundLocal(f, y, s.ev, s.close.pub, s.reader);
  }

  lemma CopiedStreams(s: State, f: RunId)
    requires OrderedRun(s, f)
    ensures s.slots[f].copied ==> Registration.IsStreaming(s.slots[f])
  {
  }

  lemma CreateOrdered(s: State, f: RunId, thread: Id)
    requires BindingInv(s) && Starter.CanCreateRun(s, f, thread)
    ensures OrderedRun(Starter.DoCreateRun(s, f, thread), f)
  {
    var s' := Starter.DoCreateRun(s, f, thread);
    assert forall n :: !Owns(s.ev, f, n) by { assert OwnersBound(s.log, s.slots, s.ev.owner); }
    hide BindingInv, Owns, Local;
    UnboundLocal(f, s'.slots[f], s.ev, s.close.pub, s.reader);
  }

  lemma RegisterAcceptOrdered(s: State, f: RunId)
    requires OrderedRun(s, f) && Provenance.ProvenanceInv(s) && Starter.CanRegisterAccept(s, f)
    ensures OrderedRun(Starter.DoRegisterAccept(s, f), f)
  {
    Provenance.SlotAt(s, f);
    var c := s.slots[f].caller;
    var p := c.list[c.regNext];
    assert Provenance.ThreadFrame(s.log, p);
    hide Provenance.ProvenanceInv, Provenance.SlotOk, Local, Starter.DoRegisterAccept, Taking;
    var x := s.slots[f];
    var parked := ParkedOf(s.reg.pend, x);
    var s' := Starter.DoRegisterAccept(s, f);
    TakesLive(f, x, p, parked, s.ev, s.close.pub, s.reader, s.reader);
    RegisterAcceptShape(s, f);
    TakesFrame(x, p);
    MovesLocal(f, Taking(x, p), s'.slots[f], parked, s.ev, s.close.pub, s.reader);
  }

  lemma RegisterAcceptShape(s: State, f: RunId)
    requires Starter.CanRegisterAccept(s, f)
    ensures var p := s.slots[f].caller.list[s.slots[f].caller.regNext]; var s' := Starter.DoRegisterAccept(s, f);
            && f in s'.slots && s'.slots[f] == Taking(s.slots[f], p).(caller := s'.slots[f].caller)
                && s'.slots[f].caller.RegReplay?
            && s'.slots == s.slots[f := s'.slots[f]]
            && s'.log == s.log && s'.reader == s.reader && s'.ev == s.ev && s'.close == s.close && s'.reg == s.reg
  {
    hide Retain, Accept, Admissible;
  }

  /** The starter of the run resolves the head of its list. */
  lemma ListResolves(s: State, f: RunId, p: Parked, c: Caller)
    requires OrderedRun(s, f) && PassesHead(s.slots[f], s.slots[f].(caller := c), p.no)
    ensures f in Resolve(s, p, f).slots && OrderedRun(SetCaller(Resolve(s, p, f), f, c), f)
  {
    hide Local, Resolve, PassesHead, Taking;
    var x := s.slots[f];
    var parked := ParkedOf(s.reg.pend, x);
    HeadIsFirst(f, x, x.(caller := c), p.no, parked, s.ev, s.close.pub, s.reader);
    ResolveOrdered(s, p, f);
    ResolveFrame(s, p, f);
    TakesFrame(x, p);
    var s1 := Resolve(s, p, f);
    var y := s1.slots[f];
    SamePasses(x, y, c, p.no);
    PassesLocal(f, y, y.(caller := c), p.no, parked, s1.ev, s1.close.pub, s1.reader);
  }

  lemma SamePasses(x: Slot, y: Slot, c: Caller, no: nat)
    requires PassesHead(x, x.(caller := c), no) && y.caller == x.caller
    ensures PassesHead(y, y.(caller := c), no)
  {
  }

  /** What is parked for the turn of an unshared run is its own. */
  lemma ParkedIsOwn(s: State, f: RunId)
    requires Registration.RegistryInv(s) && f in s.slots && !Shared(s.slots, f)
    ensures forall p <- ParkedOf(s.reg.pend, s.slots[f]) :: Owns(s.ev, f, p.no)
    ensures forall t <- s.reg.pend, p <- s.reg.pend[t] :: Owns(s.ev, f, p.no) ==> Registration.BoundTo(s.slots, f, t)
    ensures s.close.pub.Draining? || s.close.pub.Published? ==> ParkedOf(s.reg.pend, s.slots[f]) == []
  {
    assert Registration.ParkedOk(s.reg.pend, s.ev.owner, s.slots);
    assert s.close.pub.Draining? || s.close.pub.Published? ==> s.reg.pend == map[] by { hide Registration.Agreement; }
    hide Registration.RegistryInv;
    if s.slots[f].arm.Some? {
      forall p <- ParkedOf(s.reg.pend, s.slots[f]) ensures Owns(s.ev, f, p.no) {
        Unshared(s.slots, s.ev.owner[p.no], f);
      }
    }
  }

  lemma AttachPublishOrdered(s: State, f: RunId)
    requires OrderedRun(s, f) && !Shared(s.slots, f) && Registration.RegistryInv(s) && PhaseInv(s)
    requires Starter.CanAttachPublish(s, f)
    ensures OrderedRun(Starter.DoAttachPublish(s, f), f)
  {
    ParkedIsOwn(s, f);
    PhasedAt(s, f);
    AttachPublishShape(s, f);
    var x := s.slots[f];
    var s' := Starter.DoAttachPublish(s, f);
    hide Registration.RegistryInv, PhaseInv, Starter.DoAttachPublish, Local, Owns;
    if x.run.terminal {
      EndedLocal(f, x, s'.slots[f], ParkedOf(s.reg.pend, x), s.ev, s.close.pub, s.reader);
    } else {
      TakesListLocal(f, x, s'.slots[f], ParkedOf(s.reg.pend, x), s.ev, s.close.pub, s.reader);
    }
  }

  lemma AttachPublishShape(s: State, r: RunId)
    requires Starter.CanAttachPublish(s, r)
    ensures var x := s.slots[r]; var s' := Starter.DoAttachPublish(s, r);
            && r in s'.slots && s'.reader == s.reader && s'.ev == s.ev && s'.close == s.close && s'.log == s.log
            && s'.slots == s.slots[r := s'.slots[r]]
            && s'.slots[r] == x.(caller := s'.slots[r].caller, ordered := s'.slots[r].ordered)
            && s'.slots[r].caller == (if x.run.terminal then Attached
                else Replay(ListAt(s.reg.pend, x.run.turnId), 0, false))
            && s'.reg.pend == (if x.run.terminal then s.reg.pend else s.reg.pend - {x.run.turnId})
            && s'.reg.armedTurns == s.reg.armedTurns - {x.run.turnId}
  {
    hide With, Without;
  }

  lemma {:induction false} AllMine(s: State, list: seq<Parked>, r: RunId)
    requires forall p <- list :: Starter.OwnedBy(s, p, r)
    ensures Starter.Mine(s, list, r) == list && Starter.Kept(s, list, r) == []
    decreases |list|
  {
    if list == [] {
    } else {
      AllMine(s, list[..|list| - 1], r);
      assert list == list[..|list| - 1] + [list[|list| - 1]];
    }
  }

  lemma FinishCollectOrdered(s: State, f: RunId)
    requires OrderedRun(s, f) && !Shared(s.slots, f) && Registration.RegistryInv(s) && BindingInv(s)
    requires Starter.CanFinishCollect(s, f)
    ensures OrderedRun(Starter.DoFinishCollect(s, f), f)
  {
    CopiedStreams(s, f);
    ParkedIsOwn(s, f);
    FinishCollectShape(s, f);
    var x := s.slots[f];
    var s' := Starter.DoFinishCollect(s, f);
    hide Registration.RegistryInv, BindingInv, Starter.DoFinishCollect, Local, Starter.Mine, Starter.Kept;
    if x.arm.None? {
      UnboundMoves(s, f, s'.slots[f], s');
    } else {
      AllMine(s, ParkedOf(s.reg.pend, x), f);
      TakesListLocal(f, x, s'.slots[f], ParkedOf(s.reg.pend, x), s.ev, s.close.pub, s.reader);
    }
  }

  lemma FinishCollectShape(s: State, r: RunId)
    requires Starter.CanFinishCollect(s, r)
    ensures var x := s.slots[r]; var s' := Starter.DoFinishCollect(s, r);
            && r in s'.slots && s'.slots == s.slots[r := s'.slots[r]] && s'.log == s.log && s'.reader == s.reader
                && s'.ev == s.ev
            && s'.close == s.close && s'.slots[r] == x.(caller := s'.slots[r].caller, arm := s'.slots[r].arm)
            && (x.arm.None? ==> s'.slots[r].arm.None? && s'.slots[r].caller == FinResolve([], 0)
                                && s'.reg.armedTurns == s.reg.armedTurns)
            && (x.arm.Some? ==>
                  var turn := x.arm.value.turn;
                  && s'.slots[r].arm == Some(x.arm.value.(until := Some(|s.log|)))
                  && s'.slots[r].caller == FinResolve(Starter.Mine(s, ListAt(s.reg.pend, turn), r), 0)
                  && ListAt(s'.reg.pend, turn) == Starter.Kept(s, ListAt(s.reg.pend, turn), r)
                  && s'.reg.armedTurns == if turn in s.reg.armedTurns && s.reg.armedTurns[turn] == r
                                          then s.reg.armedTurns - {turn} else s.reg.armedTurns)
  {
    hide Starter.Mine, Starter.Kept, Without;
  }

  /** A starter moves along its list and completes a run. */
  lemma AdvancesAndFinishes(s: State, f: RunId, c: Caller, done: Option<Completion>, via: Via)
    requires OrderedRun(s, f) && ListAdvances(s.slots[f], s.slots[f].(caller := c))
    ensures OrderedRun(SetCaller(s, f, c), f)
    ensures done.Some? ==> OrderedRun(FinishRun(SetCaller(s, f, c), done.value.run, done.value.err, via), f)
  {
    hide OrderedRun, FinishRun, ListAdvances, Seen;
    InSlots(s, f);
    var s1 := SetCaller(s, f, c);
    RunAdvances(s, f, s1.slots[f], s1);
    if done.Some? {
      SeenFinish(s1, done.value.run, done.value.err, via, f);
      SeenOrdered(s1, FinishRun(s1, done.value.run, done.value.err, via), f);
    }
  }

  lemma InSlots(s: State, f: RunId)
    requires OrderedRun(s, f)
    ensures f in s.slots
  {
  }

  /** Whatever changes in queues, leases, registrations and attachments. */
  lemma ApartOrdered(s: State, s': State, f: RunId)
    requires OrderedRun(s, f) && s'.slots == s.slots && s'.ev == s.ev && s'.close == s.close && s'.reader == s.reader
    requires s'.reg.pend == s.reg.pend
    ensures OrderedRun(s', f)
  {
  }

  lemma RegisterOrdered(s: State, f: RunId, a: Starter.Action)
    requires OrderedRun(s, f) && BindingInv(s) && PhaseInv(s) && Starter.Enabled(s, f, a)
    requires a.Register? || a.FinishRefused? || a.RegisterComplete?
    ensures OrderedRun(Starter.Step(s, f, a), f)
  {
    hide OrderedRun, BindingInv, PhaseInv, FinishRun, Seen;
    InSlots(s, f);
    CopiedStreams(s, f);
    PhasedAt(s, f);
    var s' := Starter.Step(s, f, a);
    match a
    case Register =>
      UnboundMoves(s, f, s'.slots[f], s');
    case FinishRefused =>
      var s1 := SetCaller(s, f, Over);
      UnboundMoves(s, f, s1.slots[f], s1);
      SeenFinish(s1, f, Some(s.slots[f].caller.refusal), ByError, f);
      SeenOrdered(s1, s', f);
    case RegisterComplete =>
      var c := s.slots[f].caller;
      var s1 := SetCaller(s, f, c.(todo := None));
      RunMoves(s, f, s1.slots[f], s1);
      SeenFinish(s1, c.todo.value.run, c.todo.value.err, ByRegister, f);
      SeenOrdered(s1, s', f);
    case _ =>
  }

  lemma FinishEndOrdered(s: State, f: RunId, err: Err)
    requires OrderedRun(s, f) && Starter.CanFinishEnd(s, f)
    ensures OrderedRun(Starter.DoFinishEnd(s, f, err), f)
  {
    hide OrderedRun, FinishRun, ListLeases, Seen;
    var s1 := LetGo(SetCaller(s, f, Over), ListLeases(s.slots[f].caller.list));
    RunAdvances(s, f, s1.slots[f], s1);
    SeenFinish(s1, f, Some(err), ByError, f);
    SeenOrdered(s1, Starter.DoFinishEnd(s, f, err), f);
  }

  /** The starter's steps that touch neither its list nor parked frames. */
  lemma OwnMoves(s: State, f: RunId, a: Starter.Action)
    requires OrderedRun(s, f) && Starter.Enabled(s, f, a)
    requires a.RegisterDone? || a.AttachLock? || a.AttachDone? || a.FinishLock? || a.FinishUnlock? || a.Unregister?
               || a.Collect?
    ensures OrderedRun(Starter.Step(s, f, a), f)
  {
    hide OrderedRun, ListLeases, Without, Seen;
    var s' := Starter.Step(s, f, a);
    match a
    case RegisterDone => RunMoves(s, f, s'.slots[f], s');
    case AttachLock => RunMoves(s, f, s'.slots[f], s');
    case AttachDone => RunAdvances(s, f, s'.slots[f], s');
    case FinishLock => RunMoves(s, f, s'.slots[f], s');
    case FinishUnlock => RunAdvances(s, f, s'.slots[f], s');
    case _ =>
      SeenApart(s, s', f);
      SeenOrdered(s, s', f);
  }

  lemma OwnStarter(s: State, f: RunId, a: Starter.Action)
    requires a.CreateRun? || OrderedRun(s, f)
    requires Registration.RegistryInv(s) && PhaseInv(s) && Provenance.ProvenanceInv(s) && BindingInv(s)
    requires !Shared(s.slots, f) && Starter.Enabled(s, f, a)
    ensures OrderedRun(Starter.Step(s, f, a), f)
  {
    hide OrderedRun, Registration.RegistryInv, PhaseInv, Provenance.ProvenanceInv, BindingInv, FinishRun, Resolve, Seen;
    hide Starter.DoRegister, Starter.DoRegisterAccept, Starter.DoAttachPublish, Starter.DoFinishCollect;
    hide Starter.CanRegisterAccept, Starter.DoFinishEnd;
    match a
    case CreateRun(thread) => CreateOrdered(s, f, thread);
    case Register => RegisterOrdered(s, f, a);
    case FinishRefused => RegisterOrdered(s, f, a);
    case RegisterAccept => RegisterAcceptOrdered(s, f);
    case RegisterComplete => RegisterOrdered(s, f, a);
    case AttachPublish => AttachPublishOrdered(s, f);
    case AttachResolve =>
      var c := s.slots[f].caller;
      ListResolves(s, f, c.list[c.next], c.(resolved := true));
    case AttachNext =>
      var c := s.slots[f].caller;
      var done := CompletionAt(s.ev.completion, c.list[c.next].no);
      AdvancesAndFinishes(s, f, c.(next := c.next + 1, resolved := false), done, ByReplay);
    case FinishCollect => FinishCollectOrdered(s, f);
    case FinishResolve =>
      var c := s.slots[f].caller;
      ListResolves(s, f, c.list[c.finNext], c.(finNext := c.finNext + 1));
    case FinishComplete =>
      var c := s.slots[f].caller;
      var done := CompletionAt(s.ev.completion, c.list[c.doneNext].no);
      AdvancesAndFinishes(s, f, c.(doneNext := c.doneNext + 1), done, ByFinish(c.list[c.doneNext].no));
    case FinishEnd(err) => FinishEndOrdered(s, f, err);
    case ExternalFinish(err) =>
      SeenFinish(s, f, Some(err), ByError, f);
      SeenOrdered(s, Starter.Step(s, f, a), f);
    case _ => OwnMoves(s, f, a);
  }

  // ------------------------------------------------------------------- reader

  /** A frame is ingested that is not parked for the run. */
  lemma OffersLocal(
    f: RunId, x: Slot, parked: seq<Parked>, a: Evidence, b: Evidence, pub: Publisher,
    rd: ClientState.Reader, rd': ClientState.Reader)
    requires Local(f, x, parked, a, pub, rd) && SameFrames(a, b, f) && pub.NoPublisher?
    ensures Local(f, x, parked, b, pub, rd')
  {
    hide Ascending, Once.Sorted, InRest, InList, Open, Owns, Offered;
  }

  lemma SortedSnoc(list: seq<Parked>, p: Parked)
    requires Once.Sorted(list) && forall q <- list :: q.no < p.no
    ensures Once.Sorted(list + [p])
    ensures forall n :: InList(list, n) ==> InList(list + [p], n)
    ensures InList(list + [p], p.no)
  {
    forall i | 0 <= i < |list| ensures list[i].no < p.no {
      assert list[i] in list;
    }
    forall n | InList(list, n) ensures InList(list + [p], n) {
      var i :| 0 <= i < |list| && list[i].no == n;
      assert (list + [p])[i].no == n;
    }
    assert (list + [p])[|list|].no == p.no;
  }

  /** The newest frame is parked for the run, behind everything it has. */
  lemma ParksLocal(
    f: RunId, x: Slot, p: Parked, parked: seq<Parked>, a: Evidence, b: Evidence, pub: Publisher,
    rd: ClientState.Reader, rd': ClientState.Reader)
    requires Local(f, x, parked, a, pub, rd) && pub.NoPublisher? && Closing.BeforeCollection(x.caller)
    requires b == a.(owner := a.owner[p.no := f]) && p.no !in a.owner && (forall n <- a.owner :: n < p.no)
    requires forall g <- x.run.history :: g.no < p.no
    ensures Local(f, x, parked + [p], b, pub, rd')
  {
    forall q <- parked ensures q.no < p.no {
      assert Owns(a, f, q.no);
    }
    SortedSnoc(parked, p);
    assert forall n :: Open(b, f, n) ==> Open(a, f, n) || n == p.no;
    assert forall n :: Owns(a, f, n) ==> Owns(b, f, n);
    assert Owns(b, f, p.no);
    hide Ascending, Once.Sorted, InRest, InList, Open, Owns, Offered;
    assert Ahead(f, x.run, b);
  }

  lemma RouteStarts(s: State, note: Note, order: seq<RunId>)
    requires Reader.CanRoute(s, note, order) && Frozen.CloseInv(s)
    ensures s.close.pub.NoPublisher? && s.reader.Idle? && !s.close.closed
  {
  }

  /** Who a frame is parked for. */
  lemma ArmedOwner(s: State, note: Note)
    requires Registration.RegistryInv(s) && Parkable(s, note)
    ensures var q := s.reg.armedTurns[note.turnId];
            Registration.BoundTo(s.slots, q, note.turnId) && Registration.StandingOf(s.slots[q].caller).Bindable?
            && Closing.BeforeCollection(s.slots[q].caller)
  {
    hide Registration.StreamsOk, Registration.AttachingOk, Registration.LiveRegistered, Registration.ParkedOk;
    hide Registration.KeysOk;
  }

  lemma OwnerAdded(a: Evidence, b: Evidence, no: nat, q: RunId, f: RunId)
    requires b == a.(owner := a.owner[no := q]) && no !in a.owner && q != f
    ensures SameFrames(a, b, f)
  {
  }

  lemma RouteOrdered(s: State, note: Note, order: seq<RunId>, bytes: nat, f: RunId)
    requires OrderedRun(s, f) && Registration.RegistryInv(s) && Provenance.ProvenanceInv(s) && Frozen.CloseInv(s)
    requires Reader.CanRoute(s, note, order) && !Shared(s.slots, f)
    ensures OrderedRun(Reader.DoRoute(s, note, order, bytes), f)
  {
    RouteStarts(s, note, order);
    RouteShape(s, note, order, bytes);
    Provenance.Known(s);
    Provenance.SlotAt(s, f);
    if Parkable(s, note) { ArmedOwner(s, note); }
    assert |s.log| !in s.ev.owner && forall n <- s.ev.owner :: n < |s.log|;
    assert forall g <- s.slots[f].run.history :: g.no < |s.log|;
    hide Registration.RegistryInv, Provenance.ProvenanceInv, Frozen.CloseInv, Reader.CanRoute, Reader.DoRoute;
    hide Local, Parkable;
    hide Provenance.SlotsOk, Provenance.PendOk, Provenance.ThreadPendOk, Provenance.PublisherOk, Provenance.SlotOk;
    var s' := Reader.DoRoute(s, note, order, bytes);
    var x := s.slots[f];
    var parked := ParkedOf(s.reg.pend, x);
    if s'.ev.owner == s.ev.owner && s'.reg.pend == s.reg.pend {
      OffersLocal(f, x, parked, s.ev, s'.ev, s.close.pub, s.reader, s'.reader);
    } else {
      var q := s.reg.armedTurns[note.turnId];
      var l :| s'.reg.pend == ParkTurn(s, note.turnId, Parked(|s.log|, note, l)).reg.pend;
      if q == f {
        ParksLocal(f, x, Parked(|s.log|, note, l), parked, s.ev, s'.ev, s.close.pub, s.reader, s'.reader);
      } else {
        if x.arm.Some? && x.arm.value.turn == note.turnId { Unshared(s.slots, q, f); }
        OwnerAdded(s.ev, s'.ev, |s.log|, q, f);
        OffersLocal(f, x, parked, s.ev, s'.ev, s.close.pub, s.reader, s'.reader);
      }
    }
  }

  /** The live path: everything of the run's turn is behind, nothing waits. */
  lemma LiveIsNext(s: State, f: RunId)
    requires OrderedRun(s, f) && PhaseInv(s) && Provenance.ProvenanceInv(s) && Once.OnceInv(s) && BindingInv(s)
    requires Reader.CanReaderAccept(s) && f == s.reader.targets[0] && ClassOf(s.reader.note).Turn?
    ensures forall i :: 0 <= i < |s.slots[f].run.history| ==> s.slots[f].run.history[i].no < s.reader.frame
    ensures !Stopped(s.slots[f].run) && !s.reader.note.payload.TurnCompleted? ==> forall n :: !Open(s.ev, f, n)
  {
    PhasedAt(s, f);
    Once.SlotAt(s, f);
    Provenance.SlotAt(s, f);
    Provenance.Known(s);
    Binding.Known(s);
    var x := s.slots[f];
    assert TurnBound(x.caller);
    assert x.caller.Attached?;
    hide PhaseInv, Provenance.ProvenanceInv, Once.OnceInv, BindingInv, Ascending, Ahead, Once.SlotOnce, InList, Open;
    hide Provenance.SlotsOk, Provenance.PendOk, Provenance.ThreadPendOk, Provenance.PublisherOk, Provenance.EvidenceOk;
    forall i | 0 <= i < |x.run.history| ensures x.run.history[i].no < s.reader.frame {
      assert x.run.history[i] in x.run.history;
    }
    if !Stopped(x.run) && !x.taken {
      forall n ensures !Open(s.ev, f, n) {
        assert Open(s.ev, f, n) ==> WaitsAt(x, n, ParkedOf(s.reg.pend, x), s.close.pub);
      }
    }
  }

  lemma ReaderAcceptOrdered(s: State, bytes: nat, f: RunId)
    requires OrderedRun(s, f) && PhaseInv(s) && Provenance.ProvenanceInv(s) && Once.OnceInv(s) && BindingInv(s)
    requires Reader.CanReaderAccept(s) && f == s.reader.targets[0]
    ensures OrderedRun(Reader.DoReaderAccept(s, bytes), f)
  {
    hide PhaseInv, Provenance.ProvenanceInv, Once.OnceInv, BindingInv, Reader.DoReaderAccept, Local, Taking, Open;
    var x := s.slots[f];
    var rd := s.reader;
    if ClassOf(rd.note).Turn? { LiveIsNext(s, f); }
    ReaderAcceptShape(s, bytes);
    var s' := Reader.DoReaderAccept(s, bytes);
    var parked := ParkedOf(s.reg.pend, x);
    if s'.slots == s.slots {
      FewerOffers(f, x, parked, s.ev, s.close.pub, rd, s'.reader);
    } else {
      var l :| s'.slots == s.slots[f := Taking(x, Parked(rd.frame, rd.note, l))];
      TakesFrame(x, Parked(rd.frame, rd.note, l));
      TakesLive(f, x, Parked(rd.frame, rd.note, l), parked, s.ev, s.close.pub, rd, s'.reader);
    }
  }

  lemma FewerOffers(f: RunId, x: Slot, parked: seq<Parked>, ev: Evidence, pub: Publisher,
                    rd: ClientState.Reader, rd': ClientState.Reader)
    requires Local(f, x, parked, ev, pub, rd) && OffersSeen(f, rd, rd')
    ensures Local(f, x, parked, ev, pub, rd')
  {
    hide Ascending, Once.Sorted, InRest, InList, Open, Owns, Offered, Ahead, OwnAscend;
  }

  /** A turn id of its own is bound to the run, which has no evidence yet. */
  lemma BindOrdered(s: State, f: RunId, turn: Id, bytes: nat)
    requires OrderedRun(s, f) && PhaseInv(s) && BindingInv(s) && Registration.RegistryInv(s)
    requires Reader.CanArmTurn(s, f, turn) && Reader.DoArmTurn(s, f, turn, bytes).slots != s.slots
    requires !Shared(Reader.DoArmTurn(s, f, turn, bytes).slots, f)
    ensures OrderedRun(Reader.DoArmTurn(s, f, turn, bytes), f)
  {
    PhasedAt(s, f);
    CopiedStreams(s, f);
    UnboundOwnsNothing(s, f);
    Binding.SlotAt(s, f);
    assert s.slots[f].taken ==> s.close.pub.Draining? || s.close.pub.Published?;
    hide PhaseInv, BindingInv, Local, Owns, Reserve;
    var s' := Reader.DoArmTurn(s, f, turn, bytes);
    assert s'.slots == s.slots[f := s.slots[f].(caller := Answered, arm := Some(Arm(turn, |s.log|, None)))];
    NothingParked(s, s', f, turn);
    UnboundLocal(f, s'.slots[f], s'.ev, s'.close.pub, s'.reader);
  }

  lemma NothingParked(s: State, s': State, f: RunId, turn: Id)
    requires Registration.RegistryInv(s) && f in s.slots && s.slots[f].arm.None? && !Shared(s'.slots, f)
    requires f in s'.slots && s'.slots == s.slots[f := s'.slots[f]] && s'.slots[f].arm.Some?
    requires s'.slots[f].arm.value.turn == turn
    ensures ListAt(s.reg.pend, turn) == []
  {
    assert Registration.ParkedOk(s.reg.pend, s.ev.owner, s.slots);
    hide Registration.RegistryInv;
    if ListAt(s.reg.pend, turn) != [] {
      var p := s.reg.pend[turn][0];
      assert p in s.reg.pend[turn];
      Unshared(s'.slots, s.ev.owner[p.no], f);
    }
  }

  lemma ReaderOrdered(s: State, a: Reader.Action, f: RunId)
    requires OrderedRun(s, f) && Registration.RegistryInv(s) && PhaseInv(s) && Provenance.ProvenanceInv(s)
    requires BindingInv(s) && Frozen.CloseInv(s) && Once.OnceInv(s) && Reader.Enabled(s, a)
    requires !Shared(s.slots, f) && !Shared(Reader.Step(s, a).slots, f)
    ensures OrderedRun(Reader.Step(s, a), f)
  {
    hide Registration.RegistryInv, PhaseInv, Provenance.ProvenanceInv, Once.OnceInv, BindingInv, Frozen.CloseInv, Local;
    hide Reader.DoRoute, Reader.DoReaderAccept, Reader.DoArmTurn, Reader.CanRoute, Seen, Shared;
    if a.Route? {
      RouteOrdered(s, a.note, a.order, a.bytes, f);
    } else if a.Accept? && s.reader.targets[0] == f {
      ReaderAcceptOrdered(s, a.bytes, f);
    } else if a.ArmTurn? && a.r == f && Reader.Step(s, a).slots != s.slots {
      BindOrdered(s, f, a.turn, a.bytes);
    } else {
      SeenReader(s, a, f);
      SeenOrdered(s, Reader.Step(s, a), f);
    }
  }

  // ------------------------------------------------------------------ closing

  lemma InEither(a: seq<Parked>, b: seq<Parked>)
    ensures forall p :: p in a + b <==> p in a || p in b
    ensures forall n :: InList(a + b, n) <==> InList(a, n) || InList(b, n)
  {
    forall n ensures InList(a + b, n) <==> InList(a, n) || InList(b, n) {
      if InList(a, n) {
        var i :| 0 <= i < |a| && a[i].no == n;
        assert (a + b)[i].no == n;
      }
      if InList(b, n) {
        var i :| 0 <= i < |b| && b[i].no == n;
        assert (a + b)[|a| + i].no == n;
      }
      if InList(a + b, n) {
        var i :| 0 <= i < |a + b| && (a + b)[i].no == n;
        assert if i < |a| then a[i].no == n else b[i - |a|].no == n;
      }
    }
  }

  predicate Distinct<T(==)>(list: seq<T>) { forall i, j :: 0 <= i < j < |list| ==> list[i] != list[j] }

  lemma Enumerated<T(!new)>(list: seq<T>, elems: set<T>)
    requires Enumerates(list, elems)
    ensures Distinct(list) && forall x :: x in list <==> x in elems
  {
    forall x ensures x in list <==> x in elems {
      assert x in list <==> x in multiset(list);
    }
    forall i, j | 0 <= i < j < |list| ensures list[i] != list[j] {
      if list[i] == list[j] { Once.TwiceInMultiset(list, i, j); }
    }
  }

  ghost predicate NoneOwned(f: RunId, list: seq<Parked>, ev: Evidence) { forall p <- list :: !Owns(ev, f, p.no) }

  /** Of two lists at most one holds evidence of the run. */
  lemma Joined(f: RunId, a: seq<Parked>, b: seq<Parked>, ev: Evidence)
    requires OwnAscend(f, a, ev) && OwnAscend(f, b, ev) && (NoneOwned(f, a, ev) || NoneOwned(f, b, ev))
    ensures OwnAscend(f, a + b, ev)
  {
    var c := a + b;
    assert forall i :: 0 <= i < |a| ==> c[i] in a && c[i] == a[i];
    assert forall i :: |a| <= i < |c| ==> c[i] in b && c[i] == b[i - |a|];
    hide Owns;
  }

  lemma SortedAscends(f: RunId, list: seq<Parked>, ev: Evidence)
    requires Once.Sorted(list)
    ensures OwnAscend(f, list, ev)
  {
  }

  lemma NoneAscends(f: RunId, list: seq<Parked>, ev: Evidence)
    requires NoneOwned(f, list, ev)
    ensures OwnAscend(f, list, ev)
  {
    assert forall i :: 0 <= i < |list| ==> list[i] in list;
  }

  /** The parked lists hold evidence of the run under one turn only. */
  lemma {:induction false} ConcatHolds(f: RunId, m: map<Id, seq<Parked>>, keys: seq<Id>, turn: Id, ev: Evidence)
    requires Distinct(keys) && OwnAscend(f, ListAt(m, turn), ev)
    requires forall k <- m :: k != turn ==> NoneOwned(f, m[k], ev)
    ensures OwnAscend(f, Concat(m, keys), ev)
    ensures turn !in keys ==> NoneOwned(f, Concat(m, keys), ev)
    ensures turn in keys ==> forall n :: InList(ListAt(m, turn), n) ==> InList(Concat(m, keys), n)
    ensures forall p <- Concat(m, keys) :: Owns(ev, f, p.no) ==> p in ListAt(m, turn)
  {
    hide InList, OwnAscend, Owns;
    if keys == [] {
      NoneAscends(f, [], ev);
    } else {
      ConcatHolds(f, m, keys[1..], turn, ev);
      assert keys[0] !in keys[1..];
      InEither(ListAt(m, keys[0]), Concat(m, keys[1..]));
      if keys[0] != turn { NoneAscends(f, ListAt(m, keys[0]), ev); }
      Joined(f, ListAt(m, keys[0]), Concat(m, keys[1..]), ev);
    }
  }

  function ReplayOf(slots: Slots, r: RunId): seq<Parked> { if r in slots then ReplayList(slots[r].caller) else [] }

  /** The replay lists hold evidence of the run in its own list only. */
  lemma {:induction false} ReplaysHold(f: RunId, slots: Slots, rs: seq<RunId>, ev: Evidence)
    requires Distinct(rs) && OwnAscend(f, ReplayOf(slots, f), ev)
    requires forall r <- slots :: r != f ==> NoneOwned(f, ReplayOf(slots, r), ev)
    ensures OwnAscend(f, ConcatReplays(slots, rs), ev)
    ensures f !in rs ==> NoneOwned(f, ConcatReplays(slots, rs), ev)
    ensures f in rs ==> forall n :: InList(ReplayOf(slots, f), n) ==> InList(ConcatReplays(slots, rs), n)
  {
    hide InList, OwnAscend, Owns, ReplayList;
    if rs == [] {
      NoneAscends(f, [], ev);
    } else {
      ReplaysHold(f, slots, rs[1..], ev);
      assert rs[0] !in rs[1..];
      InEither(ReplayOf(slots, rs[0]), ConcatReplays(slots, rs[1..]));
      if rs[0] != f { NoneAscends(f, ReplayOf(slots, rs[0]), ev); }
      Joined(f, ReplayOf(slots, rs[0]), ConcatReplays(slots, rs[1..]), ev);
    }
  }

  /** The publisher has what the run has parked or replays, and nothing else of it. */
  ghost predicate Gathered(f: RunId, x: Slot, parked: seq<Parked>, ev: Evidence, pub: Publisher) {
    && pub.Draining? && OwnAscend(f, pub.pending, ev) && OwnAscend(f, pub.replay, ev)
    && (forall n :: InList(parked, n) ==> InList(pub.pending, n))
    && (forall p <- pub.pending :: Owns(ev, f, p.no) ==> parked != [])
    && (x.caller.Replay? ==> forall n :: InList(x.caller.list, n) ==> InList(pub.replay, n))
    && (forall p <- pub.replay :: Owns(ev, f, p.no) ==> x.caller.Replay?)
  }

  /** The snapshot takes what the run has parked, or copies what it replays. */
  lemma SnapshotLocal(
    f: RunId, x: Slot, parked: seq<Parked>, ev: Evidence, pub: Publisher, pub': Publisher, rd: ClientState.Reader)
    requires Local(f, x, parked, ev, pub, rd) && pub.Claimed? && Gathered(f, x, parked, ev, pub')
    requires Offered(rd, f) && Closing.BeforeCollection(x.caller) && !Stopped(x.run)
               && !rd.note.payload.TurnCompleted? ==>
               forall n :: !Open(ev, f, n)
    ensures Local(f, Closing.Marked(x), [], ev, pub', rd)
  {
    hide Ascending, Ahead, Once.Sorted, Open, Owns, OwnAscend, Offered;
    NothingSorted();
    var y := Closing.Marked(x);
    assert !x.taken && !x.copied;
    if !x.run.terminal {
      forall n | Open(ev, f, n) ensures WaitsAt(y, n, [], pub') {
        assert WaitsAt(x, n, parked, pub);
      }
    }
  }

  lemma SnapshotPending(s: State, turns: seq<Id>, f: RunId)
    requires OrderedRun(s, f) && !Shared(s.slots, f) && Registration.RegistryInv(s)
    requires Enumerates(turns, s.reg.pend.Keys)
    ensures var list := Concat(s.reg.pend, turns); var parked := ParkedOf(s.reg.pend, s.slots[f]);
            && OwnAscend(f, list, s.ev) && (forall n :: InList(parked, n) ==> InList(list, n))
            && (forall p <- list :: Owns(s.ev, f, p.no) ==> parked != [])
  {
    Enumerated(turns, s.reg.pend.Keys);
    ParkedIsOwn(s, f);
    var x := s.slots[f];
    var parked := ParkedOf(s.reg.pend, x);
    assert Once.Sorted(parked);
    SortedAscends(f, parked, s.ev);
    NoneAscends(f, [], s.ev);
    hide Registration.RegistryInv, OrderedRun, OwnAscend, InList, Concat, Owns, Once.Sorted, Enumerates;
    if x.arm.Some? {
      ConcatHolds(f, s.reg.pend, turns, x.arm.value.turn, s.ev);
      NothingIn();
    } else {
      NothingIn();
      assert forall t <- s.reg.pend :: NoneOwned(f, s.reg.pend[t], s.ev);
      ConcatHolds(f, s.reg.pend, turns, "", s.ev);
    }
  }

  lemma NothingIn()
    ensures forall n :: !InList([], n)
  {
  }

  lemma SnapshotReplay(s: State, runs: seq<RunId>, f: RunId)
    requires OrderedRun(s, f) && !Shared(s.slots, f) && BindingInv(s) && Provenance.ProvenanceInv(s)
    requires Enumerates(runs, Closing.Replaying(s))
    ensures var list := ConcatReplays(s.slots, runs);
            && OwnAscend(f, list, s.ev)
            && (s.slots[f].caller.Replay? ==> forall n :: InList(s.slots[f].caller.list, n) ==> InList(list, n))
            && (forall p <- list :: Owns(s.ev, f, p.no) ==> s.slots[f].caller.Replay?)
  {
    Enumerated(runs, Closing.Replaying(s));
    var x := s.slots[f];
    NothingSorted();
    assert Once.Sorted(ReplayOf(s.slots, f));
    SortedAscends(f, ReplayOf(s.slots, f), s.ev);
    hide OrderedRun, BindingInv, Provenance.ProvenanceInv, OwnAscend, InList, ConcatReplays, Owns;
    hide Once.Sorted, Enumerates, Shared;
    forall r <- s.slots | r != f ensures NoneOwned(f, ReplayOf(s.slots, r), s.ev) {
      forall p <- ReplayOf(s.slots, r) ensures !Owns(s.ev, f, p.no) {
        NotOurs(s, r, f, p);
      }
    }
    ReplaysHold(f, s.slots, runs, s.ev);
  }

  lemma SnapshotShape(s: State, turns: seq<Id>, runs: seq<RunId>, finishing: seq<RunId>)
    requires Closing.CanSnapshot(s, turns, runs, finishing)
    ensures s.close.pub.Claimed? && Enumerates(turns, s.reg.pend.Keys) && Enumerates(runs, Closing.Replaying(s))
    ensures var s' := Closing.DoSnapshot(s, turns, runs, finishing);
            && s'.close == s.close.(pub := Draining(Concat(s.reg.pend, turns), ConcatReplays(s.slots, runs), finishing))
            && s'.reg.pend == map[] && s'.reg.armedTurns == map[] && s'.reg.attaching == s.reg.attaching
            && s'.reg.attachment == map[] && s'.reg.streams == s.reg.streams
            && s'.slots == Closing.MarkAll(s.slots) && s'.ev == s.ev && s'.reader == s.reader && s'.log == s.log
                && s'.q == s.q
  {
    hide Concat, ConcatReplays, RetainAll, Closing.MarkAll, Leases;
  }

  /** Offered runs that have not collected stand in the window the snapshot must
      not overtake. */
  lemma NotOvertaken(s: State, f: RunId)
    requires BindingInv(s) && f in s.slots && !Closing.Inverts(s, f)
    requires Offered(s.reader, f) && Closing.BeforeCollection(s.slots[f].caller) && !Stopped(s.slots[f].run)
    requires !s.reader.note.payload.TurnCompleted?
    ensures forall n :: !Open(s.ev, f, n)
  {
    assert OffersBound(s.reader, s.slots);
    assert s.slots[f].caller.Window?;
    assert !Closing.Outstanding(s.ev, f);
  }

  lemma SnapshotOrdered(s: State, turns: seq<Id>, runs: seq<RunId>, finishing: seq<RunId>, f: RunId)
    requires OrderedRun(s, f) && !Shared(s.slots, f) && Registration.RegistryInv(s) && BindingInv(s)
    requires Provenance.ProvenanceInv(s)
    requires Closing.CanSnapshot(s, turns, runs, finishing) && !Closing.Inverts(s, f)
    ensures OrderedRun(Closing.DoSnapshot(s, turns, runs, finishing), f)
  {
    SnapshotShape(s, turns, runs, finishing);
    hide Closing.DoSnapshot, Closing.CanSnapshot, Registration.RegistryInv, BindingInv;
    hide Provenance.ProvenanceInv, Enumerates;
    hide Local, OwnAscend, Concat, ConcatReplays, Closing.Inverts, InList, Owns, Open, Shared, Closing.Marked;
    var s' := Closing.DoSnapshot(s, turns, runs, finishing);
    var x := s.slots[f];
    SnapshotPending(s, turns, f);
    SnapshotReplay(s, runs, f);
    if Offered(s.reader, f) && Closing.BeforeCollection(x.caller) && !Stopped(x.run)
        && !s.reader.note.payload.TurnCompleted? {
      NotOvertaken(s, f);
    }
    SnapshotLocal(f, x, ParkedOf(s.reg.pend, x), s.ev, s.close.pub, s'.close.pub, s.reader);
  }

  /** The publisher's head is the first open frame of its owner. */
  lemma PublishedIsFirst(s: State, p: Parked, fromPending: bool, f: RunId)
    requires OrderedRun(s, f) && s.close.pub.Draining? && Owns(s.ev, f, p.no)
    requires fromPending ==> s.close.pub.pending != [] && p == s.close.pub.pending[0]
    requires !fromPending ==> s.close.pub.replay != [] && p == s.close.pub.replay[0]
    ensures !s.slots[f].run.terminal ==> forall n :: Open(s.ev, f, n) ==> p.no <= n
  {
    hide Ascending, Ahead;
    var x := s.slots[f];
    var list := if fromPending then s.close.pub.pending else s.close.pub.replay;
    assert p in list;
    if !x.run.terminal {
      forall n | Open(s.ev, f, n) ensures p.no <= n {
        assert WaitsAt(x, n, ParkedOf(s.reg.pend, x), s.close.pub);
        assert InList(list, n);
      }
    }
  }

  lemma PublishOwn(s: State, p: Parked, fromPending: bool, ls: multiset<LeaseId>, f: RunId)
    requires OrderedRun(s, f) && s.close.pub.Draining? && Owns(s.ev, f, p.no)
    requires fromPending ==> s.close.pub.pending != [] && p == s.close.pub.pending[0]
    requires !fromPending ==> s.close.pub.replay != [] && p == s.close.pub.replay[0]
    ensures var pub := if fromPending then s.close.pub.(pending := s.close.pub.pending[1..])
                       else s.close.pub.(replay := s.close.pub.replay[1..]);
            OrderedRun(LetGo(SetPublisher(Resolve(s, p, f), pub), ls), f)
  {
    hide OrderedRun, Resolve, Seen, Open;
    PublishedIsFirst(s, p, fromPending, f);
    ResolveOrdered(s, p, f);
    ResolveFrame(s, p, f);
    var s1 := Resolve(s, p, f);
    var pub := if fromPending then s.close.pub.(pending := s.close.pub.pending[1..])
               else s.close.pub.(replay := s.close.pub.replay[1..]);
    InSlots(s1, f);
    assert !Open(s1.ev, f, p.no) by { NotOpen(s1.ev, f, p.no); }
    SeenAdvance(s1, pub, f);
    SeenOrdered(s1, SetPublisher(s1, pub), f);
    ApartOrdered(SetPublisher(s1, pub), LetGo(SetPublisher(s1, pub), ls), f);
  }

  lemma NotOpen(ev: Evidence, f: RunId, no: nat)
    requires no in ev.ready
    ensures !Open(ev, f, no)
  {
  }

  lemma CloserOrdered(s: State, a: Closing.Action, f: RunId)
    requires OrderedRun(s, f) && Registration.RegistryInv(s) && Provenance.ProvenanceInv(s) && BindingInv(s)
    requires Frozen.CloseInv(s)
    requires Closing.Enabled(s, a) && !Shared(s.slots, f) && (a.Snapshot? ==> !Closing.Inverts(s, f))
    ensures OrderedRun(Closing.Step(s, a), f)
  {
    hide OrderedRun, Registration.RegistryInv, Provenance.ProvenanceInv, BindingInv, Frozen.CloseInv;
    hide Closing.Inverts, Seen;
    hide FinishRun, Resolve, Release, Closing.DoSnapshot, Closing.CanSnapshot, Closing.DoPublishFinish;
    hide DiscardFirst, Shared;
    InSlots(s, f);
    if a.Snapshot? {
      SnapshotOrdered(s, a.turns, a.runs, a.finishing, f);
    } else if a.PublishPending? && Owns(s.ev, f, s.close.pub.pending[0].no) {
      PublishOwn(s, s.close.pub.pending[0], true, multiset{s.close.pub.pending[0].lease}, f);
    } else if a.PublishReplay? && Owns(s.ev, f, s.close.pub.replay[0].no) {
      PublishOwn(s, s.close.pub.replay[0], false, multiset{s.close.pub.replay[0].lease}, f);
    } else {
      SeenCloser(s, a, f);
      SeenOrdered(s, Closing.Step(s, a), f);
    }
  }

  /** Opening evidence of the run without acceptance leaves its order alone. */
  lemma ReadyLocal(f: RunId, x: Slot, parked: seq<Parked>, a: Evidence, b: Evidence, pub: Publisher,
          rd: ClientState.Reader)
    requires Local(f, x, parked, a, pub, rd) && b.owner == a.owner && a.ready <= b.ready
    ensures Local(f, x, parked, b, pub, rd)
  {
    assert forall n :: Owns(b, f, n) <==> Owns(a, f, n);
    assert forall n :: Open(b, f, n) ==> Open(a, f, n);
    hide Open, Owns, Ascending, Once.Sorted, InRest, InList, Offered;
    assert Ahead(f, x.run, b);
    hide Ahead;
    CoveredLess(f, x, parked, a, b, pub, pub);
  }

  lemma DispatcherOrdered(s: State, a: Dispatch.Action, f: RunId)
    requires OrderedRun(s, f) && Frozen.CloseInv(s) && Dispatch.Enabled(s, a)
    ensures OrderedRun(Dispatch.Step(s, a), f)
  {
    hide Local, Frozen.CloseInv, Seen, FinishRun;
    if a.BeginStopping? && s.q.disp.Holding? && Open(s.ev, f, s.q.disp.e.frame) {
      ReadyLocal(f, s.slots[f], ParkedOf(s.reg.pend, s.slots[f]), s.ev, Dispatch.Step(s, a).ev, s.close.pub, s.reader);
    } else {
      SeenDispatcher(s, a, f);
      SeenOrdered(s, Dispatch.Step(s, a), f);
    }
  }

  // --------------------------------------------------------------- whole runs

  predicate IsSnapshot(a: Client.Action) { a.ByCloser? && a.closer.Snapshot? }

  lemma StarterOrdered(s: State, q: RunId, a: Starter.Action, f: RunId)
    requires (q == f && a.CreateRun?) || OrderedRun(s, f)
    requires Registration.RegistryInv(s) && PhaseInv(s) && Provenance.ProvenanceInv(s) && BindingInv(s)
    requires !Shared(s.slots, f) && Starter.Enabled(s, q, a)
    ensures OrderedRun(Starter.Step(s, q, a), f)
  {
    hide OrderedRun, Registration.RegistryInv, PhaseInv, Provenance.ProvenanceInv, BindingInv, Seen, Shared;
    hide Starter.Enabled, Starter.Step;
    if q == f {
      OwnStarter(s, f, a);
    } else {
      InSlots(s, f);
      SeenStarter(s, q, a, f);
      SeenOrdered(s, Starter.Step(s, q, a), f);
    }
  }

  /** No failure snapshot so far overtook a live frame of the run with frames that
      can be accepted after it. */
  ghost predicate NeverInverted(states: seq<State>, actions: seq<Client.Action>, i: nat, f: RunId)
    requires i <= |actions| <= |states|
  {
    forall j :: 0 <= j < i && IsSnapshot(actions[j]) ==> !Closing.Inverts(states[j], f)
  }

  lemma StepOrdered(s: State, a: Client.Action, f: RunId)
    requires Base(s) && Client.Enabled(s, a) && (Creates(a, f) || OrderedRun(s, f))
    requires !Shared(s.slots, f) && !Shared(Client.Step(s, a).slots, f)
    requires IsSnapshot(a) ==> !Closing.Inverts(s, f)
    ensures OrderedRun(Client.Step(s, a), f)
  {
    hide OrderedRun, Once.OnceInv, PhaseInv, Registration.RegistryInv, Provenance.ProvenanceInv, BindingInv;
    hide Frozen.CloseInv;
    hide Reader.Enabled, Reader.Step, Starter.Enabled, Starter.Step, Closing.Inverts, Shared;
    hide Closing.Enabled, Closing.Step, Dispatch.Enabled, Dispatch.Step;
    match a
    case ByReader(b) => ReaderOrdered(s, b, f);
    case ByStarter(q, b) => StarterOrdered(s, q, b, f);
    case ByCloser(b) => CloserOrdered(s, b, f);
    case ByDispatcher(b) => DispatcherOrdered(s, b, f);
  }

  lemma {:induction false} AlwaysOrdered(states: seq<State>, actions: seq<Client.Action>, i: nat, f: RunId)
    requires Client.IsRun(states, actions) && i < |states| == |actions| + 1 && f in states[i].slots
    requires !Shared(states[i].slots, f) && NeverInverted(states, actions, i, f)
    ensures OrderedRun(states[i], f)
  {
    hide Client.IsRun, OrderedRun, Client.Enabled, Client.Step, Closing.Inverts, Shared, Base;
    InitEmpty(states, actions);
    if i == 0 {
    } else {
      var s, a := states[i - 1], actions[i - 1];
      StepAt(states, actions, i - 1);
      AlwaysBase(states, actions, i - 1);
      Unbroken(s, a, f);
      if f in s.slots { AlwaysOrdered(states, actions, i - 1, f); } else { Appears(s, a, f); }
      StepOrdered(s, a, f);
    }
  }

  lemma InitEmpty(states: seq<State>, actions: seq<Client.Action>)
    requires Client.IsRun(states, actions)
    ensures states[0].slots == map[]
  {
  }

  /** A run that is unshared was so before. */
  lemma Unbroken(s: State, a: Client.Action, f: RunId)
    requires Base(s) && Client.Enabled(s, a) && !Shared(Client.Step(s, a).slots, f)
    ensures !Shared(s.slots, f)
  {
    hide Client.Enabled, Client.Step, Shared, ArmsKept, ArmsSame, BindingInv;
    StepBinds(s, a);
    if Shared(s.slots, f) { SharedStays(s.slots, Client.Step(s, a).slots, f); }
  }

  ghost predicate Rising(list: seq<nat>) { forall i, j :: 0 <= i < j < |list| ==> list[i] < list[j] }

  lemma RisingSnoc(list: seq<nat>, n: nat)
    requires Rising(list) && forall m <- list :: m < n
    ensures Rising(list + [n])
  {
    forall i | 0 <= i < |list| ensures list[i] < n {
      assert list[i] in list;
    }
  }

  lemma {:induction false} TurnNosRise(history: seq<Frame>)
    requires Ascending(history)
    ensures Rising(TurnNos(history)) && forall n <- TurnNos(history) :: exists f <- history :: IsTurn(f) && f.no == n
    decreases |history|
  {
    if history == [] {
    } else {
      var init, last := history[..|history| - 1], history[|history| - 1];
      TurnNosRise(init);
      assert forall f <- init :: f in history;
      if IsTurn(last) {
        forall n <- TurnNos(init) ensures n < last.no {
          var f :| f in init && IsTurn(f) && f.no == n;
          var i :| 0 <= i < |init| && init[i] == f;
          assert history[i] == f;
        }
        RisingSnoc(TurnNos(init), last.no);
      }
    }
  }

  /** Order through attachment: a run whose turn id no other run was bound to, and
      which no failure snapshot overtook, accepted its turn frames in the order of
      ingestion. */
  lemma TurnFramesInOrder(states: seq<State>, actions: seq<Client.Action>, i: nat, r: RunId)
    requires Client.IsRun(states, actions) && i < |states| && r in states[i].slots
    requires !Shared(states[i].slots, r) && NeverInverted(states, actions, i, r)
    ensures Rising(TurnNos(states[i].slots[r].run.history))
  {
    hide Client.IsRun, Ahead, Covered, OwnList, ParkedOrdered, PublisherOrdered, OfferOrdered;
    Nonempty(states, actions);
    AlwaysOrdered(states, actions, i, r);
    TurnNosRise(states[i].slots[r].run.history);
  }
}
