/** No frame is accepted twice: whatever the interleaving, the accepted frames of a
    run are pairwise distinct, and only the last can be terminal. */
module Once {
  import opened Wrappers
  import opened Attribution
  import opened Retention
  import opened ExactRun
  import opened ClientState
  import opened Phases
  import Reader
  import Starter
  import Closing
  import Dispatch
  import Client
  import Provenance
  import Registration

  predicate Accepted(run: Run, no: nat) { exists i :: 0 <= i < |run.history| && run.history[i].no == no }

  /** Pairwise distinct frames; a terminal frame ends the history. */
  ghost predicate HistoryOnce(run: Run) {
    && (forall i, j :: 0 <= i < j < |run.history| ==> run.history[i].no != run.history[j].no)
    && (forall i :: 0 <= i < |run.history| && run.history[i].note.payload.TurnCompleted? ==>
          run.terminalAdmitted && i == |run.history| - 1)
  }

  ghost predicate Sorted(list: seq<Parked>) { forall i, j :: 0 <= i < j < |list| ==> list[i].no < list[j].no }

  /** The thread frames a registration still has to replay are new to its run. */
  ghost predicate ReplayOnce(x: Slot, owner: map<nat, RunId>) {
    x.caller.RegReplay? ==>
      && Sorted(x.caller.list)
      && forall i :: x.caller.regNext <= i < |x.caller.list| ==>
           x.caller.list[i].no !in owner && !Accepted(x.run, x.caller.list[i].no)
  }

  /** Accepted evidence has been resolved. */
  ghost predicate EvidenceOnce(run: Run, ev: Evidence) {
    forall i :: 0 <= i < |run.history| && run.history[i].no in ev.owner ==> run.history[i].no in ev.ready
  }

  /** A starter replays evidence only. */
  ghost predicate ListOwned(c: Caller, owner: map<nat, RunId>) {
    c.Replay? || c.FinResolve? ==> forall p <- c.list :: p.no in owner
  }

  ghost predicate SlotOnce(x: Slot, ev: Evidence) {
    HistoryOnce(x.run) && ReplayOnce(x, ev.owner) && EvidenceOnce(x.run, ev) && ListOwned(x.caller, ev.owner)
  }

  ghost predicate SlotsOnce(slots: Slots, ev: Evidence) { forall r <- slots :: SlotOnce(slots[r], ev) }

  ghost predicate ThreadsOnce(threadPend: map<Id, seq<Parked>>, owner: map<nat, RunId>) {
    forall t <- threadPend :: Sorted(threadPend[t]) && forall p <- threadPend[t] :: p.no !in owner
  }

  /** The routed frame is new to every run it is still to be offered to. */
  predicate FreshFor(frame: nat, x: Slot) {
    && !Accepted(x.run, frame)
    && (x.caller.RegReplay? ==> forall p <- x.caller.list :: p.no != frame)
  }

  ghost predicate ReaderOnce(rd: ClientState.Reader, slots: Slots, owner: map<nat, RunId>) {
    rd.Routed? && rd.targets != [] ==>
      && rd.frame !in owner
      && (forall i, j :: 0 <= i < j < |rd.targets| ==> rd.targets[i] != rd.targets[j])
      && (forall r <- rd.targets :: r in slots ==> FreshFor(rd.frame, slots[r]))
  }

  ghost predicate Parts(slots: Slots, ev: Evidence, threadPend: map<Id, seq<Parked>>, rd: ClientState.Reader) {
    SlotsOnce(slots, ev) && ThreadsOnce(threadPend, ev.owner) && ReaderOnce(rd, slots, ev.owner)
  }

  ghost predicate OnceInv(s: State) { Parts(s.slots, s.ev, s.reg.threadPend, s.reader) }

  lemma Known(s: State)
    requires OnceInv(s)
    ensures SlotsOnce(s.slots, s.ev) && ThreadsOnce(s.reg.threadPend, s.ev.owner)
    ensures ReaderOnce(s.reader, s.slots, s.ev.owner)
  {
  }

  // ------------------------------------------------------------ shared steps

  /** A slot changes; it keeps to its invariant, and the routed frame stays new. */
  lemma SlotChanges(s: State, r: RunId, x: Slot)
    requires OnceInv(s) && SlotOnce(x, s.ev)
    requires s.reader.Routed? && r in s.reader.targets ==> FreshFor(s.reader.frame, x)
    ensures OnceInv(s.(slots := s.slots[r := x]))
  {
    hide SlotOnce, ThreadsOnce, FreshFor;
  }

  lemma SlotAt(s: State, r: RunId)
    requires OnceInv(s) && r in s.slots
    ensures SlotOnce(s.slots[r], s.ev)
    ensures s.reader.Routed? && r in s.reader.targets ==> FreshFor(s.reader.frame, s.slots[r])
  {
  }

  /** The starter moves on; its run's history stays. */
  lemma CallerMoves(s: State, r: RunId, x: Slot)
    requires OnceInv(s) && r in s.slots && x.run.history == s.slots[r].run.history
    requires x.run.terminalAdmitted == s.slots[r].run.terminalAdmitted
    requires x.caller.RegReplay? ==>
               s.slots[r].caller.RegReplay? && x.caller.list == s.slots[r].caller.list
                   && x.caller.regNext >= s.slots[r].caller.regNext
    requires x.caller.Replay? ==> ListOwned(x.caller, s.ev.owner)
    requires x.caller.FinResolve? ==> ListOwned(x.caller, s.ev.owner)
    ensures OnceInv(s.(slots := s.slots[r := x]))
  {
    hide Parts, Sorted;
    SlotAt(s, r);
    SlotChanges(s, r, x);
  }

  lemma FinishOnce(s: State, r: RunId, err: Option<Err>, via: Via)
    requires OnceInv(s)
    ensures OnceInv(FinishRun(s, r, err, via))
  {
    hide Parts;
    if r in s.slots && !s.slots[r].run.terminal { SlotAt(s, r); CallerMoves(s, r, FinishRun(s, r, err, via).slots[r]); }
  }

  /** Accepting a frame that is new to the run. */
  lemma AcceptOnce(s: State, r: RunId, p: Parked)
    requires OnceInv(s) && (r in s.slots ==> !Accepted(s.slots[r].run, p.no))
    requires p.no in s.ev.owner ==> p.no in s.ev.ready
    requires s.reader.Routed? && r in s.reader.targets ==> p.no != s.reader.frame
    requires r in s.slots && s.slots[r].caller.RegReplay? ==>
               forall i :: s.slots[r].caller.regNext <= i < |s.slots[r].caller.list| ==>
                   s.slots[r].caller.list[i].no != p.no
    ensures OnceInv(AcceptRetained(s, r, p).0)
  {
    hide Parts, Retain, Sorted;
    if r in s.slots && Admissible(s.slots[r].run, p.note) {
      var x := AcceptRetained(s, r, p).0.slots[r];
      SlotAt(s, r);
      AcceptedMore(s.slots[r].run, x.run, Frame(p.no, p.note));
      hide Accepted;
      SlotChanges(s, r, x);
    }
  }

  lemma AcceptedMore(a: Run, b: Run, f: Frame)
    requires b.history == a.history + [f]
    ensures forall no :: Accepted(b, no) <==> Accepted(a, no) || no == f.no
  {
    forall no ensures Accepted(b, no) <==> Accepted(a, no) || no == f.no {
      if Accepted(a, no) {
        var i :| 0 <= i < |a.history| && a.history[i].no == no;
        assert b.history[i].no == no;
      }
      if no == f.no { assert b.history[|a.history|].no == no; }
    }
  }

  lemma ReadyMore(s: State, no: nat)
    requires OnceInv(s)
    ensures OnceInv(s.(ev := s.ev.(ready := s.ev.ready + {no})))
  {
    hide HistoryOnce, ReplayOnce, ListOwned;
    var ev := s.ev.(ready := s.ev.ready + {no});
    forall r <- s.slots ensures SlotOnce(s.slots[r], ev) {
      assert SlotOnce(s.slots[r], s.ev);
    }
  }

  lemma OutcomesMore(s: State, ev: Evidence)
    requires OnceInv(s) && ev.owner == s.ev.owner && ev.ready == s.ev.ready
    ensures OnceInv(s.(ev := ev))
  {
    hide HistoryOnce, ReplayOnce, ListOwned;
    forall r <- s.slots ensures SlotOnce(s.slots[r], ev) {
      assert SlotOnce(s.slots[r], s.ev);
    }
  }

  /** Evidence is resolved at most once, so it is new to whoever accepts it. */
  lemma UnresolvedIsNew(s: State, r: RunId, no: nat)
    requires OnceInv(s) && no in s.ev.owner && no !in s.ev.ready
    ensures r in s.slots ==> !Accepted(s.slots[r].run, no)
    ensures r in s.slots && s.slots[r].caller.RegReplay? ==>
              forall i :: s.slots[r].caller.regNext <= i < |s.slots[r].caller.list| ==>
                  s.slots[r].caller.list[i].no != no
    ensures s.reader.Routed? && s.reader.targets != [] ==> no != s.reader.frame
  {
    if r in s.slots { SlotAt(s, r); }
  }

  lemma ResolveOnce(s: State, p: Parked, r: RunId)
    requires OnceInv(s) && p.no in s.ev.owner
    ensures OnceInv(Resolve(s, p, r))
  {
    hide OnceInv, Accepted;
    if p.no !in s.ev.ready {
      var s0 := s.(ev := s.ev.(ready := s.ev.ready + {p.no}));
      UnresolvedIsNew(s, r, p.no);
      ReadyMore(s, p.no);
      AcceptOnce(s0, r, p);
      AcceptSame(s, s0, r, p);
      hide AcceptRetained;
      OutcomesMore(AcceptRetained(s0, r, p).0, Resolve(s, p, r).ev);
    }
  }

  lemma AcceptSame(s: State, s0: State, r: RunId, p: Parked)
    requires s0 == s.(ev := s0.ev)
    ensures AcceptRetained(s0, r, p).0 == AcceptRetained(s, r, p).0.(ev := s0.ev)
    ensures AcceptRetained(s, r, p).0.ev == s.ev
  {
  }

  // ------------------------------------------------------------------- reader

  lemma IngestedOnce(s: State, note: Note, order: seq<RunId>)
    requires OnceInv(s) && Provenance.ProvenanceInv(s) && Reader.CanRoute(s, note, order)
    requires Registration.RegistryInv(s)
    ensures forall r <- order :: r in s.slots && FreshFor(|s.log|, s.slots[r])
    ensures forall i, j :: 0 <= i < j < |order| ==> order[i] != order[j]
  {
    forall r <- order ensures r in s.slots && FreshFor(|s.log|, s.slots[r]) {
      assert r in multiset(order);
      Provenance.SlotAt(s, r);
      OldFrames(s.log, s.slots[r]);
    }
    if ClassOf(note).Turn? || ClassOf(note).Thread? { TargetsDistinct(s, note, order); }
  }

  lemma OldFrames(log: seq<Note>, x: Slot)
    requires Provenance.SlotOk(log, x)
    ensures FreshFor(|log|, x)
  {
  }

  lemma TargetsDistinct(s: State, note: Note, order: seq<RunId>)
    requires Registration.RegistryInv(s)
    requires multiset(order) == multiset(StreamTargets(s, note)) + multiset(AttachTargets(s, note))
    ensures forall i, j :: 0 <= i < j < |order| ==> order[i] != order[j]
  {
    hide Registration.LiveRegistered, Registration.ArmedOk, Registration.KeysOk, Registration.ParkedOk;
    hide Registration.Emptied;
    assert forall r :: r in StreamTargets(s, note) ==> r !in AttachTargets(s, note);
    forall i, j | 0 <= i < j < |order| ensures order[i] != order[j] {
      if order[i] == order[j] { TwiceInMultiset(order, i, j); }
    }
  }

  lemma TwiceInMultiset<T>(list: seq<T>, i: nat, j: nat)
    requires i < j < |list| && list[i] == list[j]
    ensures multiset(list)[list[i]] >= 2
  {
    assert list == list[..j] + [list[j]] + list[j + 1..];
    assert list[i] in list[..j] by { assert list[..j][i] == list[i]; }
  }

  /** What routing does to the slots, evidence and parked frames. */
  lemma RouteShape(s: State, note: Note, order: seq<RunId>, bytes: nat)
    requires Reader.CanRoute(s, note, order)
    ensures var s' := Reader.DoRoute(s, note, order, bytes);
            && s'.slots == s.slots && s'.log == s.log + [note] && s'.close == s.close
            && s'.reader.Routed? && s'.reader.frame == |s.log| && s'.reader.note == note && s'.reader.targets == order
            && (s'.reg.threadPend == s.reg.threadPend
                || (ClassOf(note).Thread? && s'.ev == s.ev
                    && exists l :: s'.reg.threadPend ==
                         s.reg.threadPend[note.threadId := ListAt(s.reg.threadPend, note.threadId)
                             + [Parked(|s.log|, note, l)]]))
            && s'.ev == s.ev.(owner := s'.ev.owner)
            && (s'.ev.owner == s.ev.owner
                || (order == [] && s'.ev.owner == s.ev.owner[|s.log| := s'.ev.owner[|s.log|]]))
  {
    hide Reserve, Parkable, Reader.CanRoute;
    var l := Reserve(s.mem.budget, 3, bytes).1;
    var s' := Reader.DoRoute(s, note, order, bytes);
    if l.Some? && s'.reg.threadPend != s.reg.threadPend {
      assert s'.reg.threadPend ==
        s.reg.threadPend[note.threadId := ListAt(s.reg.threadPend, note.threadId) + [Parked(|s.log|, note, l.value)]];
    }
  }

  lemma RouteOnce(s: State, note: Note, order: seq<RunId>, bytes: nat)
    requires OnceInv(s) && Provenance.ProvenanceInv(s) && Registration.RegistryInv(s) && Reader.CanRoute(s, note, order)
    ensures OnceInv(Reader.DoRoute(s, note, order, bytes))
  {
    hide Reader.CanRoute, Reader.DoRoute, FreshFor, Registration.RegistryInv, Provenance.ProvenanceInv;
    hide Provenance.SlotsOk, Provenance.PublisherOk, Provenance.ReaderOk, Provenance.PendOk;
    hide SlotsOnce, ThreadsOnce, Provenance.ThreadPendOk;
    IngestedOnce(s, note, order);
    RouteShape(s, note, order, bytes);
    Provenance.Known(s);
    var s' := Reader.DoRoute(s, note, order, bytes);
    OwnersMore(s, s'.ev);
    ThreadsMore(s, s'.reg.threadPend, s'.ev.owner, note);
  }

  /** Only the ingested frame can become evidence. */
  lemma OwnersMore(s: State, ev: Evidence)
    requires OnceInv(s) && Provenance.ProvenanceInv(s) && ev == s.ev.(owner := ev.owner)
    requires forall no :: no != |s.log| ==> (no in ev.owner <==> no in s.ev.owner)
    requires s.ev.owner.Keys <= ev.owner.Keys
    ensures SlotsOnce(s.slots, ev)
  {
    forall r <- s.slots ensures SlotOnce(s.slots[r], ev) {
      SlotAt(s, r);
      Provenance.SlotAt(s, r);
      OwnersMoreAt(s.log, s.slots[r], s.ev, ev);
    }
  }

  lemma OwnersMoreAt(log: seq<Note>, x: Slot, a: Evidence, b: Evidence)
    requires SlotOnce(x, a) && Provenance.SlotOk(log, x) && b == a.(owner := b.owner)
    requires forall no :: no != |log| ==> (no in b.owner <==> no in a.owner)
    requires a.owner.Keys <= b.owner.Keys
    ensures SlotOnce(x, b)
  {
    if x.caller.RegReplay? {
      forall i | 0 <= i < |x.caller.list| ensures x.caller.list[i].no != |log| {
        assert x.caller.list[i] in x.caller.list;
      }
    }
  }

  lemma SortedMore(log: seq<Note>, list: seq<Parked>, p: Parked)
    requires Provenance.ThreadFrames(log, list) && Sorted(list) && p.no == |log|
    ensures Sorted(list + [p])
  {
    forall i | 0 <= i < |list| ensures list[i].no < |log| {
      assert list[i] in list;
    }
  }

  lemma ThreadsMore(s: State, threadPend: map<Id, seq<Parked>>, owner: map<nat, RunId>, note: Note)
    requires ThreadsOnce(s.reg.threadPend, s.ev.owner) && Provenance.ThreadPendOk(s.log, s.reg.threadPend)
    requires forall no :: no != |s.log| ==> (no in owner <==> no in s.ev.owner)
    requires || threadPend == s.reg.threadPend
             || (|s.log| !in owner
                 && exists t, l :: threadPend == s.reg.threadPend[t := ListAt(s.reg.threadPend, t)
                     + [Parked(|s.log|, note, l)]])
    ensures ThreadsOnce(threadPend, owner)
  {
    assert forall t <- s.reg.threadPend, p <- s.reg.threadPend[t] :: Provenance.ThreadFrame(s.log, p);
    if threadPend != s.reg.threadPend {
      var t, l :| threadPend == s.reg.threadPend[t := ListAt(s.reg.threadPend, t) + [Parked(|s.log|, note, l)]];
      SortedMore(s.log, ListAt(s.reg.threadPend, t), Parked(|s.log|, note, l));
    }
    hide Provenance.ThreadPendOk, Sorted;
  }

  lemma TargetDone(s: State)
    requires OnceInv(s) && Reader.CanReaderAccept(s)
    ensures var rd := s.reader.(targets := s.reader.targets[1..]);
            OnceInv(s.(reader := rd)) && s.reader.targets[0] !in rd.targets
  {
    hide SlotsOnce, ThreadsOnce, FreshFor;
  }

  lemma ReaderAcceptOnce(s: State, bytes: nat)
    requires OnceInv(s) && Reader.CanReaderAccept(s)
    ensures OnceInv(Reader.DoReaderAccept(s, bytes))
  {
    var rd := s.reader;
    var r := rd.targets[0];
    if r in s.slots { SlotAt(s, r); }
    TargetDone(s);
    assert rd.frame !in s.ev.owner;
    hide Parts, Reserve, AcceptRetained, Admissible, Accepted, SlotOnce;
    var l := Reserve(s.mem.budget, 3, bytes).1;
    if r in s.slots && Admissible(s.slots[r].run, rd.note) && l.Some? {
      var s1 := LetGo(s.(reader := rd.(targets := rd.targets[1..])), multiset{l.value});
      var s2 := s1.(mem := s1.mem.(budget := Reserve(s.mem.budget, 3, bytes).0));
      var p := Parked(rd.frame, rd.note, l.value);
      AcceptOnce(s2, r, p);
      var s3 := AcceptRetained(s2, r, p).0;
      AcceptFrame(s2, r, p);
      OffersSame(s3, Reader.DoReaderAccept(s, bytes).reader);
    } else {
      OffersSame(s.(reader := rd.(targets := rd.targets[1..])), Reader.DoReaderAccept(s, bytes).reader);
    }
  }

  /** Only the frame on offer and its remaining targets matter. */
  lemma OffersSame(s: State, rd: ClientState.Reader)
    requires OnceInv(s)
    requires rd.Routed? && rd.targets != [] ==>
               s.reader.Routed? && rd.targets == s.reader.targets && rd.frame == s.reader.frame
    ensures OnceInv(s.(reader := rd))
  {
    hide SlotsOnce, ThreadsOnce, FreshFor;
  }

  lemma ReaderStepOnce(s: State, a: Reader.Action)
    requires OnceInv(s) && Provenance.ProvenanceInv(s) && Registration.RegistryInv(s) && Reader.Enabled(s, a)
    ensures OnceInv(Reader.Step(s, a))
  {
    hide Parts, Provenance.ProvenanceInv, Registration.RegistryInv, Reserve, FinishRun;
    hide Reader.DoRoute, Reader.DoReaderAccept, Reader.CanRoute, Reader.CanReaderAccept;
    match a
    case ArmTurn(r, turn, bytes) =>
      CallerMoves(s, r, s.slots[r].(caller := Answered, arm := Some(Arm(turn, |s.log|, None))));
      OffersSame(s, Failing(ErrClientClosed));
      OffersSame(s, Failing(ErrRetention));
    case Route(note, order, bytes) => RouteOnce(s, note, order, bytes);
    case Accept(bytes) => ReaderAcceptOnce(s, bytes);
    case Complete =>
      var cs := s.reader.inline;
      if cs == [] {
        OffersSame(s, Idle);
      } else {
        FinishOnce(s, cs[0].run, cs[0].err, ByReader);
        OffersSame(FinishRun(s, cs[0].run, cs[0].err, ByReader), Completing(cs[1..]));
      }
    case Reject =>
      var s' := Reader.Step(s, a);
      OutcomesMore(s, s'.ev);
      OffersSame(s.(ev := s'.ev), s'.reader);
    case _ => OffersSame(s, Reader.Step(s, a).reader);
  }

  // ----------------------------------------------------------------- starters

  /** A run that was never registered starts with a clean slate. */
  lemma RegistersOnce(s: State, r: RunId)
    requires OnceInv(s) && PhaseInv(s) && r in s.slots && s.slots[r].caller.Created?
    ensures OnceInv(SetCaller(s, r, RegReplay(ListAt(s.reg.threadPend, s.slots[r].run.threadId), 0, None)))
  {
    hide PhaseInv, Parts;
    Phases.PhasedAt(s, r);
    Phases.Known(s);
    Known(s);
    var x := s.slots[r].(caller := RegReplay(ListAt(s.reg.threadPend, s.slots[r].run.threadId), 0, None));
    SlotAt(s, r);
    assert SlotOnce(x, s.ev) by { CleanSlate(s, r, x); }
    assert s.reader.Routed? ==> r !in s.reader.targets;
    SlotChanges(s, r, x);
  }

  lemma CleanSlate(s: State, r: RunId, x: Slot)
    requires OnceInv(s) && r in s.slots && s.slots[r].run.history == []
    requires x == s.slots[r].(caller := RegReplay(ListAt(s.reg.threadPend, s.slots[r].run.threadId), 0, None))
    ensures SlotOnce(x, s.ev)
  {
    hide SlotsOnce, ReaderOnce;
    Known(s);
    var list := ListAt(s.reg.threadPend, x.run.threadId);
    forall i | 0 <= i < |list| ensures list[i].no !in s.ev.owner {
      assert list[i] in list;
    }
  }

  lemma ThreadTaken(s: State, reg: Registry)
    requires OnceInv(s)
    requires forall t <- reg.threadPend :: t in s.reg.threadPend && reg.threadPend[t] == s.reg.threadPend[t]
    ensures OnceInv(s.(reg := reg))
  {
    hide SlotsOnce, ReaderOnce, Sorted;
  }

  lemma RegisterOnce(s: State, r: RunId)
    requires OnceInv(s) && PhaseInv(s) && Starter.CanRegister(s, r)
    ensures OnceInv(Starter.DoRegister(s, r))
  {
    hide Parts, PhaseInv;
    CallerMoves(s, r, s.slots[r].(caller := Refused(ErrClientClosed)));
    CallerMoves(s, r, s.slots[r].(caller := Refused(ErrConcurrentTurnStart)));
    RegistersOnce(s, r);
    if !s.close.closed && Under(s.reg.attaching, s.slots[r].run.threadId) == {} {
      ThreadTaken(SetCaller(s, r, RegReplay(ListAt(s.reg.threadPend, s.slots[r].run.threadId), 0, None)),
                  Starter.DoRegister(s, r).reg);
    }
  }

  /** Replaying a thread frame and moving past it. */
  lemma ReplaysFrame(s: State, r: RunId, p: Parked, x: Slot)
    requires OnceInv(s) && r in s.slots && s.slots[r].caller.RegReplay? && x.caller.RegReplay?
    requires s.slots[r].caller.regNext < |s.slots[r].caller.list|
    requires p == s.slots[r].caller.list[s.slots[r].caller.regNext]
    requires x.caller.list == s.slots[r].caller.list && x.caller.regNext == s.slots[r].caller.regNext + 1
    requires x.run == (if Admissible(s.slots[r].run, p.note)
               then Accept(s.slots[r].run, Frame(p.no, p.note), p.lease).0 else s.slots[r].run)
    ensures OnceInv(s.(slots := s.slots[r := x]))
  {
    hide Parts;
    SlotAt(s, r);
    assert p in s.slots[r].caller.list;
    if Admissible(s.slots[r].run, p.note) { AcceptedMore(s.slots[r].run, x.run, Frame(p.no, p.note)); }
    hide Accepted, Admissible;
    SlotChanges(s, r, x);
  }

  lemma RegisterAcceptOnce(s: State, r: RunId)
    requires OnceInv(s) && Starter.CanRegisterAccept(s, r)
    ensures OnceInv(Starter.DoRegisterAccept(s, r))
  {
    hide Parts, Admissible, Retain, Accept;
    var c := s.slots[r].caller;
    var x := Starter.DoRegisterAccept(s, r).slots[r];
    ReplaysFrame(s, r, c.list[c.regNext], x);
    assert Starter.DoRegisterAccept(s, r).slots == s.slots[r := x];
  }

  lemma AttachPublishOnce(s: State, r: RunId)
    requires OnceInv(s) && Registration.RegistryInv(s) && Starter.CanAttachPublish(s, r)
    ensures OnceInv(Starter.DoAttachPublish(s, r))
  {
    hide Parts, Without, With, Registration.StreamsOk, Registration.AttachingOk, Registration.LiveRegistered;
    hide Registration.ArmedOk, Registration.KeysOk, Registration.Emptied;
    CallerMoves(s, r, Starter.DoAttachPublish(s, r).slots[r]);
    ThreadTaken(s.(slots := Starter.DoAttachPublish(s, r).slots), Starter.DoAttachPublish(s, r).reg);
  }

  lemma FinishCollectOnce(s: State, r: RunId)
    requires OnceInv(s) && Starter.CanFinishCollect(s, r)
    ensures OnceInv(Starter.DoFinishCollect(s, r))
  {
    hide Parts, Without, Starter.Mine, Starter.Kept;
    if s.slots[r].arm.Some? { Registration.KeptIn(s, ListAt(s.reg.pend, s.slots[r].arm.value.turn), r); }
    CallerMoves(s, r, Starter.DoFinishCollect(s, r).slots[r]);
    ThreadTaken(s.(slots := Starter.DoFinishCollect(s, r).slots), Starter.DoFinishCollect(s, r).reg);
  }

  lemma UnregisterOnce(s: State, r: RunId)
    requires OnceInv(s) && Starter.CanUnregister(s, r)
    ensures OnceInv(Starter.DoUnregister(s, r))
  {
    hide Parts, Without, Sorted;
    SlotAt(s, r);
    CallerMoves(s, r, Starter.DoUnregister(s, r).slots[r]);
    ThreadTaken(s.(slots := Starter.DoUnregister(s, r).slots), Starter.DoUnregister(s, r).reg);
  }

  lemma ListResolvesOnce(s: State, r: RunId, p: Parked, c: Caller)
    requires OnceInv(s) && r in s.slots && p.no in s.ev.owner
    requires c.Replay? || c.FinResolve? ==> ListOwned(c, s.ev.owner)
    requires !c.RegReplay?
    ensures r in Resolve(s, p, r).slots && OnceInv(SetCaller(Resolve(s, p, r), r, c))
  {
    hide Parts, Resolve;
    ResolveFrame(s, p, r);
    ResolveOnce(s, p, r);
    SameOwners(s, p, r);
    var s1 := Resolve(s, p, r);
    CallerMoves(s1, r, s1.slots[r].(caller := c));
  }

  lemma SameOwners(s: State, p: Parked, r: RunId)
    ensures Resolve(s, p, r).ev.owner == s.ev.owner
  {
    hide AcceptRetained;
    AcceptFrame(s, r, p);
  }

  lemma StepsAside(s: State, r: RunId, c: Caller, no: nat, via: Via)
    requires OnceInv(s) && r in s.slots && !c.RegReplay?
    requires c.Replay? || c.FinResolve? ==> ListOwned(c, s.ev.owner)
    ensures OnceInv(SetCaller(s, r, c))
    ensures no in s.ev.completion ==>
              OnceInv(FinishRun(SetCaller(s, r, c), s.ev.completion[no].run, s.ev.completion[no].err, via))
  {
    hide Parts, FinishRun;
    CallerMoves(s, r, s.slots[r].(caller := c));
    if no in s.ev.completion { FinishOnce(SetCaller(s, r, c), s.ev.completion[no].run, s.ev.completion[no].err, via); }
  }

  lemma CreateOnce(s: State, r: RunId, thread: Id)
    requires OnceInv(s) && PhaseInv(s) && Starter.CanCreateRun(s, r, thread)
    ensures OnceInv(Starter.DoCreateRun(s, r, thread))
  {
    hide Parts, PhaseInv;
    Phases.Known(s);
    SlotChanges(s, r, Starter.DoCreateRun(s, r, thread).slots[r]);
  }

  lemma AttachStepOnce(s: State, r: RunId, a: Starter.Action)
    requires OnceInv(s) && Starter.Enabled(s, r, a)
    requires a.AttachLock? || a.AttachResolve? || a.AttachNext? || a.AttachDone?
    ensures OnceInv(Starter.Step(s, r, a))
  {
    hide Parts, FinishRun, Resolve, SlotOnce, FreshFor, ListLeases;
    SlotAt(s, r);
    assert ListOwned(s.slots[r].caller, s.ev.owner);
    match a
    case AttachLock => CallerMoves(s, r, Starter.Step(s, r, a).slots[r]);
    case AttachResolve =>
      var c := s.slots[r].caller;
      assert c.list[c.next] in c.list;
      ListResolvesOnce(s, r, c.list[c.next], c.(resolved := true));
    case AttachNext =>
      var c := s.slots[r].caller;
      StepsAside(s, r, c.(next := c.next + 1, resolved := false), c.list[c.next].no, ByReplay);
    case AttachDone => CallerMoves(s, r, Starter.Step(s, r, a).slots[r]);
    case _ =>
  }

  lemma FinishStepOnce(s: State, r: RunId, a: Starter.Action)
    requires OnceInv(s) && Starter.Enabled(s, r, a)
    requires a.FinishLock? || a.FinishResolve? || a.FinishUnlock? || a.FinishComplete?
    ensures OnceInv(Starter.Step(s, r, a))
  {
    hide Starter.DoFinishEnd, Starter.DoFinishCollect, Starter.DoRegister, Starter.DoAttachPublish, ListOwned;
    hide Parts, FinishRun, Resolve, SlotOnce, FreshFor, ListLeases;
    SlotAt(s, r);
    assert ListOwned(s.slots[r].caller, s.ev.owner);
    match a
    case FinishLock => CallerMoves(s, r, Starter.Step(s, r, a).slots[r]);
    case FinishResolve =>
      var c := s.slots[r].caller;
      ListMember(c, c.finNext, s.ev.owner);
      ListResolvesOnce(s, r, c.list[c.finNext], c.(finNext := c.finNext + 1));
    case FinishUnlock => CallerMoves(s, r, Starter.Step(s, r, a).slots[r]);
    case FinishComplete =>
      var c := s.slots[r].caller;
      StepsAside(s, r, c.(doneNext := c.doneNext + 1), c.list[c.doneNext].no, ByFinish(c.list[c.doneNext].no));
    case _ =>
  }

  lemma ListMember(c: Caller, i: nat, owner: map<nat, RunId>)
    requires ListOwned(c, owner) && c.FinResolve? && i < |c.list|
    ensures c.list[i].no in owner && ListOwned(c.(finNext := i + 1), owner)
  {
    assert c.list[i] in c.list;
  }

  lemma FinishEndOnce(s: State, r: RunId, err: Err)
    requires OnceInv(s) && Starter.CanFinishEnd(s, r)
    ensures OnceInv(Starter.DoFinishEnd(s, r, err))
  {
    hide Parts, FinishRun;
    SlotAt(s, r);
    CallerMoves(s, r, s.slots[r].(caller := Over));
    FinishOnce(LetGo(SetCaller(s, r, Over), ListLeases(s.slots[r].caller.list)), r, Some(err), ByError);
  }

  lemma StarterStepOnce(s: State, r: RunId, a: Starter.Action)
    requires OnceInv(s) && PhaseInv(s) && Registration.RegistryInv(s) && Starter.Enabled(s, r, a)
    ensures OnceInv(Starter.Step(s, r, a))
  {
    hide Parts, PhaseInv, Registration.RegistryInv, FinishRun, Resolve, ListLeases;
    hide Starter.DoRegister, Starter.DoRegisterAccept, Starter.DoAttachPublish, Starter.DoFinishCollect;
    hide Starter.DoUnregister;
    hide Starter.CanRegisterAccept, Starter.DoFinishEnd, Starter.DoFinishComplete, Starter.DoAttachNext;
    match a
    case CreateRun(thread) => CreateOnce(s, r, thread);
    case Register => RegisterOnce(s, r);
    case FinishRefused =>
      CallerMoves(s, r, s.slots[r].(caller := Over));
      FinishOnce(SetCaller(s, r, Over), r, Some(s.slots[r].caller.refusal), ByError);
    case RegisterAccept => RegisterAcceptOnce(s, r);
    case RegisterComplete =>
      var c := s.slots[r].caller;
      CallerMoves(s, r, s.slots[r].(caller := c.(todo := None)));
      FinishOnce(SetCaller(s, r, c.(todo := None)), c.todo.value.run, c.todo.value.err, ByRegister);
    case RegisterDone => CallerMoves(s, r, s.slots[r].(caller := Calling));
    case AttachLock => AttachStepOnce(s, r, a);
    case AttachPublish => AttachPublishOnce(s, r);
    case AttachResolve => AttachStepOnce(s, r, a);
    case AttachNext => AttachStepOnce(s, r, a);
    case AttachDone => AttachStepOnce(s, r, a);
    case FinishLock => FinishStepOnce(s, r, a);
    case FinishCollect => FinishCollectOnce(s, r);
    case FinishResolve => FinishStepOnce(s, r, a);
    case FinishUnlock => FinishStepOnce(s, r, a);
    case FinishComplete => FinishStepOnce(s, r, a);
    case FinishEnd(err) => FinishEndOnce(s, r, err);
    case ExternalFinish(err) => FinishOnce(s, r, Some(err), ByError);
    case Unregister => UnregisterOnce(s, r);
    case Collect =>
      SlotAt(s, r);
      CallerMoves(s, r, Starter.Step(s, r, a).slots[r]);
  }

  // ------------------------------------------------- closing and the dispatcher

  lemma SnapshotOnce(s: State, turns: seq<Id>, runs: seq<RunId>, finishing: seq<RunId>)
    requires OnceInv(s) && Closing.CanSnapshot(s, turns, runs, finishing)
    ensures OnceInv(Closing.DoSnapshot(s, turns, runs, finishing))
  {
    hide Concat, ConcatReplays, RetainAll, Leases, HistoryOnce, EvidenceOnce, Accepted, Sorted;
    hide Closing.Overtakes, Closing.CanSnapshot;
  }

  lemma PublishOnce(s: State, p: Parked, pub: Publisher)
    requires OnceInv(s)
    ensures OnceInv(SetPublisher(if p.no in s.ev.owner then Resolve(s, p, s.ev.owner[p.no]) else s, pub))
  {
    hide Resolve, Parts;
    if p.no in s.ev.owner { ResolveOnce(s, p, s.ev.owner[p.no]); }
  }

  lemma CloserStepOnce(s: State, a: Closing.Action)
    requires OnceInv(s) && Closing.Enabled(s, a)
    ensures OnceInv(Closing.Step(s, a))
  {
    hide FinishRun, Resolve, Parts, Release;
    hide Closing.CanSnapshot, Closing.DoSnapshot;
    match a
    case Snapshot(turns, runs, finishing) => SnapshotOnce(s, turns, runs, finishing);
    case PublishPending => PublishOnce(s, s.close.pub.pending[0], s.close.pub.(pending := s.close.pub.pending[1..]));
    case PublishReplay => PublishOnce(s, s.close.pub.replay[0], s.close.pub.(replay := s.close.pub.replay[1..]));
    case PublishFinish => FinishOnce(s, s.close.pub.finishing[0], Cause(s), ByError);
    case DiscardQueued => OutcomesMore(s, Closing.Step(s, a).ev);
    case _ =>
  }

  lemma DispatcherStepOnce(s: State, a: Dispatch.Action)
    requires OnceInv(s) && Dispatch.Enabled(s, a)
    ensures OnceInv(Dispatch.Step(s, a))
  {
    hide FinishRun, Parts;
    match a
    case Complete =>
      var c := s.q.disp.completions[0];
      FinishOnce(s, c.run, c.err, ByDispatch(s.q.disp.e.frame));
    case BeginStopping => if s.q.disp.Holding? { ReadyMore(s, s.q.disp.e.frame); }
    case Deliver => OutcomesMore(s, Dispatch.Step(s, a).ev);
    case DiscardHeld => OutcomesMore(s, Dispatch.Step(s, a).ev);
    case DiscardHead => OutcomesMore(s, Dispatch.Step(s, a).ev);
    case _ =>
  }

  // --------------------------------------------------------------- whole runs

  lemma {:induction false} AlwaysOnce(states: seq<State>, actions: seq<Client.Action>, i: nat)
    requires Client.IsRun(states, actions) && i < |states|
    ensures OnceInv(states[i])
  {
    hide Parts, PhaseInv, Registration.RegistryInv, Provenance.ProvenanceInv;
    hide Reader.Enabled, Reader.Step, Starter.Enabled, Starter.Step;
    hide Closing.Enabled, Closing.Step, Dispatch.Enabled, Dispatch.Step;
    if i == 0 {
      InitOnce(states[0]);
    } else {
      var s := states[i - 1];
      AlwaysOnce(states, actions, i - 1);
      AlwaysPhased(states, actions, i - 1);
      Provenance.AlwaysGenuine(states, actions, i - 1);
      Registration.AlwaysAgrees(states, actions, i - 1);
      match actions[i - 1]
      case ByReader(a) => ReaderStepOnce(s, a);
      case ByStarter(r, a) => StarterStepOnce(s, r, a);
      case ByCloser(a) => CloserStepOnce(s, a);
      case ByDispatcher(a) => DispatcherStepOnce(s, a);
    }
  }

  lemma InitOnce(s: State)
    requires Client.IsInit(s)
    ensures OnceInv(s)
  {
  }

  /** A run never accepts the same frame twice, and accepts nothing after its
      terminal frame. */
  lemma NeverAcceptedTwice(states: seq<State>, actions: seq<Client.Action>, i: nat, r: RunId)
    requires Client.IsRun(states, actions) && i < |states| && r in states[i].slots
    ensures HistoryOnce(states[i].slots[r].run)
  {
    hide Client.IsRun, HistoryOnce;
    AlwaysOnce(states, actions, i);
    SlotAt(states[i], r);
  }
}
