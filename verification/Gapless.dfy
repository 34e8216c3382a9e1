/** No gaps: the accepted turn frames of a run are a prefix of the frames of its turn,
    from the moment the turn was bound. It is a claim about each run: one whose turn
    id no other run was bound to, which no snapshot overtook, and of which stopping
    the dispatcher skipped no frame. */
module Gapless {
  import opened Wrappers
  import opened Attribution
  import opened Retention
  import opened ExactRun
  import opened ClientState
  import opened Phases
  import opened Binding
  import opened Focus
  import opened Reached
  import opened Order
  import Reader
  import Starter
  import Closing
  import Dispatch
  import Client
  import Frozen
  import Provenance
  import Registration
  import Once
  import Fifo

  /** Frame `n` belongs to the turn bound to the run and was ingested while bound. */
  predicate Relevant(log: seq<Note>, x: Slot, n: nat) {
    && x.arm.Some? && x.arm.value.at <= n < |log|
    && (x.arm.value.until.Some? ==> n < x.arm.value.until.value)
    && BelongsTo(log[n], x.run.threadId, x.arm.value.turn)
  }

  predicate Finished(x: Slot) { x.arm.Some? && x.arm.value.until.Some? }

  /** The newest frame while it is on its way, or lost to a failure that ends
      ingestion. */
  predicate OnItsWay(f: RunId, n: nat, frames: nat, rd: ClientState.Reader, closed: bool) {
    n + 1 == frames && Coming(f, rd, closed)
  }

  /** A frame of a finishing run that stopping opened: nothing open is accepted
      after it. */
  ghost predicate LeftLast(f: RunId, x: Slot, log: seq<Note>, ev: Evidence, stopping: bool, n: nat) {
    stopping && Finished(x)
    && forall m: nat :: n < m && Open(ev, f, m) ==>
        exists k: nat :: k < m && Open(ev, f, k) && Dispatch.Completes(log, k)
  }

  /** No turn frame was accepted past a frame of the turn that was not. */
  ghost predicate Tight(x: Slot, log: seq<Note>) {
    forall n: nat, i ::
      Relevant(log, x, n) && 0 <= i < |x.run.history| && IsTurn(x.run.history[i]) && n < x.run.history[i].no ==>
        Once.Accepted(x.run, n)
  }

  /** While a run accepts frames, every frame of its turn is accepted, waits as open
      evidence, is on its way, or was left behind last. */
  ghost predicate AllAccounted(f: RunId, x: Slot, log: seq<Note>, ev: Evidence, rd: ClientState.Reader, closed: bool,
          stopping: bool) {
    Stopped(x.run) || forall n: nat :: Relevant(log, x, n) ==>
      Once.Accepted(x.run, n) || Open(ev, f, n) || OnItsWay(f, n, |log|, rd, closed)
          || LeftLast(f, x, log, ev, stopping, n)
  }

  /** Accepted turn frames and open evidence belong to the turn. */
  ghost predicate OnlyOwn(f: RunId, x: Slot, log: seq<Note>, ev: Evidence) {
    && (forall i :: 0 <= i < |x.run.history| && IsTurn(x.run.history[i]) ==> Relevant(log, x, x.run.history[i].no))
    && (forall n :: Open(ev, f, n) ==> Relevant(log, x, n))
    && (x.arm.Some? ==> x.arm.value.at <= |log|)
    && (Finished(x) ==> x.arm.value.until.value <= |log|)
  }

  ghost predicate Gap(f: RunId, x: Slot, log: seq<Note>, ev: Evidence, rd: ClientState.Reader, closed: bool,
          stopping: bool) {
    Tight(x, log) && AllAccounted(f, x, log, ev, rd, closed, stopping) && OnlyOwn(f, x, log, ev)
  }

  /** Finishing without attachment is what ends a binding, and until the failure
      snapshot a bindable run owns its armed turn. */
  predicate Placed(f: RunId, x: Slot, pub: Publisher, armedTurns: map<Id, RunId>) {
    && (x.arm.Some? && Registration.StandingOf(x.caller).Leaving? ==> Finished(x))
    && (Finished(x) ==> Registration.StandingOf(x.caller).Leaving?)
    && (x.arm.Some? && Registration.StandingOf(x.caller).Bindable? && !pub.Draining? && !pub.Published? ==>
          OwnsArmed(f, x, armedTurns))
    && ((pub.Draining? || pub.Published?) && x.caller.Replay? ==> x.copied || x.caller.list == [])
  }

  /** A turn frame still to be offered belongs to the run's turn and overtakes
      nothing of it. */
  ghost predicate OfferInTurn(f: RunId, x: Slot, log: seq<Note>, ev: Evidence, rd: ClientState.Reader) {
    Offered(rd, f) ==> Relevant(log, x, rd.frame) && (x.taken && !Stopped(x.run) ==> forall n :: !Open(ev, f, n))
  }

  ghost predicate GaplessRun(s: State, f: RunId) {
    && f in s.slots && Gap(f, s.slots[f], s.log, s.ev, s.reader, s.close.closed, s.q.stopping)
    && Placed(f, s.slots[f], s.close.pub, s.reg.armedTurns)
    && OfferInTurn(f, s.slots[f], s.log, s.ev, s.reader)
  }

  // ------------------------------------------------------------ shared steps

  /** Nothing the claim depends on is lost. */
  predicate Keeps(x: Slot, y: Slot) {
    && y.run.history == x.run.history && y.run.threadId == x.run.threadId && y.arm == x.arm
    && (x.run.terminal ==> y.run.terminal) && (x.run.terminalAdmitted ==> y.run.terminalAdmitted)
  }

  lemma SameRelevant(log: seq<Note>, x: Slot, y: Slot)
    requires Keeps(x, y)
    ensures forall n :: Relevant(log, y, n) <==> Relevant(log, x, n)
    ensures forall n :: Once.Accepted(y.run, n) <==> Once.Accepted(x.run, n)
  {
  }

  lemma GapKept(
    f: RunId, x: Slot, y: Slot, log: seq<Note>, a: Evidence, b: Evidence,
    rd: ClientState.Reader, rd': ClientState.Reader, closed: bool, closed': bool, stopping: bool, stopping': bool)
    requires Gap(f, x, log, a, rd, closed, stopping) && Keeps(x, y)
    requires forall n :: Open(b, f, n) <==> Open(a, f, n)
    requires Stopped(x.run) || (Coming(f, rd, closed) ==> Coming(f, rd', closed'))
    requires stopping ==> stopping'
    ensures Gap(f, y, log, b, rd', closed', stopping')
  {
    SameRelevant(log, x, y);
    hide Relevant, Coming, Open, Once.Accepted;
    assert Tight(y, log) && OnlyOwn(f, y, log, b);
    forall n: nat | LeftLast(f, x, log, a, stopping, n) ensures LeftLast(f, y, log, b, stopping', n) {
      SameLeft(f, x, y, log, a, b, stopping, stopping', n);
    }
    hide LeftLast, Tight, OnlyOwn;
  }

  lemma SameLeft(f: RunId, x: Slot, y: Slot, log: seq<Note>, a: Evidence, b: Evidence, stopping: bool, stopping': bool,
          n: nat)
    requires LeftLast(f, x, log, a, stopping, n) && y.arm == x.arm && (stopping ==> stopping')
    requires forall n :: Open(b, f, n) <==> Open(a, f, n)
    ensures LeftLast(f, y, log, b, stopping', n)
  {
    hide Open, Dispatch.Completes;
  }

  lemma PlacedSeen(f: RunId, x: Slot, y: Slot, pub: Publisher, pub': Publisher, armed: map<Id, RunId>,
          armed': map<Id, RunId>)
    requires Placed(f, x, pub, armed) && y.caller == x.caller && y.arm == x.arm && y.copied == x.copied
    requires pub'.Draining? || pub'.Published? <==> pub.Draining? || pub.Published?
    requires OwnsArmed(f, x, armed) ==> OwnsArmed(f, y, armed')
    ensures Placed(f, y, pub', armed')
  {
  }

  lemma OfferKept(f: RunId, x: Slot, y: Slot, log: seq<Note>, a: Evidence, b: Evidence, rd: ClientState.Reader,
          rd': ClientState.Reader)
    requires OfferInTurn(f, x, log, a, rd) && Keeps(x, y) && y.taken == x.taken && OffersSeen(f, rd, rd')
    requires forall n :: Open(b, f, n) ==> Open(a, f, n)
    ensures OfferInTurn(f, y, log, b, rd')
  {
    hide Open, Offered;
  }

  /** Somebody else's step. */
  lemma SeenGapless(s: State, s': State, f: RunId)
    requires GaplessRun(s, f) && Seen(s, s', f)
    ensures GaplessRun(s', f)
  {
    hide Gap, Placed, OfferInTurn, ParkedOf, Dropped, OwnsArmed, Coming, Offered, Open, Owns;
    var x, y := s.slots[f], s'.slots[f];
    GapKept(f, x, y, s.log, s.ev, s'.ev, s.reader, s'.reader, s.close.closed, s'.close.closed, s.q.stopping,
        s'.q.stopping);
    PlacedSeen(f, x, y, s.close.pub, s'.close.pub, s.reg.armedTurns, s'.reg.armedTurns);
    OfferKept(f, x, y, s.log, s.ev, s'.ev, s.reader, s'.reader);
  }

  /** The run's starter moves on; its binding, history and offers stay. */
  lemma MovesGapless(s: State, s': State, f: RunId)
    requires GaplessRun(s, f) && f in s'.slots && Keeps(s.slots[f], s'.slots[f])
    requires s'.slots[f].taken == s.slots[f].taken
    requires s'.log == s.log && s'.reader == s.reader && s'.close == s.close && s'.q.stopping == s.q.stopping
    requires s'.ev.owner == s.ev.owner && s'.ev.ready == s.ev.ready
    requires Placed(f, s'.slots[f], s.close.pub, s'.reg.armedTurns)
    ensures GaplessRun(s', f)
  {
    var x, y := s.slots[f], s'.slots[f];
    assert forall n :: Open(s'.ev, f, n) <==> Open(s.ev, f, n);
    hide Gap, Placed, OfferInTurn, Coming, Open;
    GapKept(f, x, y, s.log, s.ev, s'.ev, s.reader, s.reader, s.close.closed, s.close.closed, s.q.stopping,
        s.q.stopping);
    OfferKept(f, x, y, s.log, s.ev, s'.ev, s.reader, s.reader);
  }

  /** The same, for a starter that keeps its standing. */
  lemma StandsGapless(s: State, s': State, f: RunId)
    requires GaplessRun(s, f) && f in s'.slots && Keeps(s.slots[f], s'.slots[f])
    requires s'.slots[f].taken == s.slots[f].taken
    requires s'.log == s.log && s'.reader == s.reader && s'.close == s.close && s'.q.stopping == s.q.stopping
    requires s'.ev.owner == s.ev.owner && s'.ev.ready == s.ev.ready && s'.reg.armedTurns == s.reg.armedTurns
    requires var a := Registration.StandingOf(s.slots[f].caller); var b := Registration.StandingOf(s'.slots[f].caller);
             b == a || s.slots[f].arm.None?
    requires var c := s'.slots[f].caller; c.Replay? ==> s.slots[f].caller.Replay? && c.list == s.slots[f].caller.list
    requires s'.slots[f].copied == s.slots[f].copied
    ensures GaplessRun(s', f)
  {
    hide Gap, OfferInTurn, Keeps;
    assert s'.slots[f].arm == s.slots[f].arm by { KeepsArm(s.slots[f], s'.slots[f]); }
    MovesGapless(s, s', f);
  }

  lemma KeepsArm(x: Slot, y: Slot)
    requires Keeps(x, y)
    ensures y.arm == x.arm
  {
  }

  // ------------------------------------------------------ accepting one frame

  /** A frame of its turn is admissible for every run that still accepts frames. */
  lemma OwnFrameAdmissible(x: Slot, log: seq<Note>, no: nat)
    requires Relevant(log, x, no) && Phased(x) && !Stopped(x.run)
    ensures Admissible(x.run, log[no])
  {
  }

  lemma RelevantOld(log: seq<Note>, x: Slot, n: nat)
    requires Relevant(log, x, n)
    ensures n < |log|
  {
  }

  /** What was left behind last stays so when the first open frame is taken. */
  lemma LeftStays(f: RunId, x: Slot, y: Slot, p: Parked, log: seq<Note>, a: Evidence, b: Evidence, stopping: bool,
          n: nat)
    requires LeftLast(f, x, log, a, stopping, n) && y.arm == x.arm && !Dispatch.Completes(log, p.no)
    requires forall k :: Open(b, f, k) <==> Open(a, f, k) && k != p.no
    ensures LeftLast(f, y, log, b, stopping, n)
  {
    forall m: nat | n < m && Open(b, f, m)
        ensures exists k: nat :: k < m && Open(b, f, k) && Dispatch.Completes(log, k) {
      var k: nat :| k < m && Open(a, f, k) && Dispatch.Completes(log, k);
      assert Open(b, f, k);
    }
  }

  lemma SameHistory(a: Run, b: Run)
    requires b.history == a.history
    ensures forall n :: Once.Accepted(b, n) <==> Once.Accepted(a, n)
  {
  }

  /** Taking the next frame of its turn leaves no gap. */
  lemma TakesNext(
    f: RunId, x: Slot, p: Parked, log: seq<Note>, a: Evidence, b: Evidence,
    rd: ClientState.Reader, rd': ClientState.Reader, closed: bool, stopping: bool)
    requires Gap(f, x, log, a, rd, closed, stopping) && Phased(x)
    requires Relevant(log, x, p.no) && log[p.no] == p.note
    requires !Stopped(x.run) ==> forall n :: Open(a, f, n) ==> p.no <= n
    requires forall n :: Open(b, f, n) <==> Open(a, f, n) && n != p.no
    requires forall n :: OnItsWay(f, n, |log|, rd, closed) ==> OnItsWay(f, n, |log|, rd', closed) || n == p.no
    requires Finished(x) ==> Open(a, f, p.no)
    ensures Gap(f, Taking(x, p), log, b, rd', closed, stopping)
  {
    var y := Taking(x, p);
    TakesFrame(x, p);
    if !Stopped(x.run) { OwnFrameAdmissible(x, log, p.no); }
    assert forall n :: Relevant(log, y, n) <==> Relevant(log, x, n);
    var admissible := Admissible(x.run, p.note);
    assert Dispatch.Completes(log, p.no) == p.note.payload.TurnCompleted?;
    if admissible { Once.AcceptedMore(x.run, y.run, Frame(p.no, p.note)); } else { SameHistory(x.run, y.run); }
    hide Admissible, Accept, Taking, Phased, Relevant, Open, Once.Accepted, Dispatch.Completes, Coming;
    RelevantOld(log, x, p.no);
    assert OnlyOwn(f, y, log, b);
    if admissible {
      forall n: nat | Relevant(log, x, n) && n < p.no ensures Once.Accepted(x.run, n) {
        assert LeftLast(f, x, log, a, stopping, n) ==> Open(a, f, p.no);
      }
      assert Tight(y, log);
      if !Stopped(y.run) {
        forall n: nat | LeftLast(f, x, log, a, stopping, n) ensures LeftLast(f, y, log, b, stopping, n) {
          LeftStays(f, x, y, p, log, a, b, stopping, n);
        }
      }
    }
    hide OnlyOwn, LeftLast;
  }

  /** Taking a frame of no turn. */
  lemma TakesThread(
    f: RunId, x: Slot, p: Parked, log: seq<Note>, ev: Evidence,
    rd: ClientState.Reader, rd': ClientState.Reader, closed: bool, stopping: bool)
    requires Gap(f, x, log, ev, rd, closed, stopping) && !ClassOf(p.note).Turn?
    requires forall n :: Relevant(log, x, n) && OnItsWay(f, n, |log|, rd, closed) ==> OnItsWay(f, n, |log|, rd', closed)
    ensures Gap(f, Taking(x, p), log, ev, rd', closed, stopping)
  {
    var y := Taking(x, p);
    TakesFrame(x, p);
    assert forall n :: Relevant(log, y, n) <==> Relevant(log, x, n);
    if Admissible(x.run, p.note) { Once.AcceptedMore(x.run, y.run, Frame(p.no, p.note)); }
        else { SameHistory(x.run, y.run); }
    hide Admissible, Accept, Taking, Relevant, Open, Once.Accepted, OnItsWay;
    assert OnlyOwn(f, y, log, ev);
    assert Tight(y, log);
    forall n: nat | LeftLast(f, x, log, ev, stopping, n) ensures LeftLast(f, y, log, ev, stopping, n) {
      SameLeft(f, x, y, log, ev, ev, stopping, stopping, n);
    }
    hide OnlyOwn, LeftLast, Tight;
  }

  lemma TakenPlaced(f: RunId, x: Slot, p: Parked, pub: Publisher, armed: map<Id, RunId>)
    requires Placed(f, x, pub, armed)
    ensures Placed(f, Taking(x, p), pub, armed)
  {
    hide Taking;
    TakesFrame(x, p);
  }

  lemma TakenOffer(f: RunId, x: Slot, p: Parked, log: seq<Note>, a: Evidence, b: Evidence, rd: ClientState.Reader,
          rd': ClientState.Reader)
    requires OfferInTurn(f, x, log, a, rd) && OffersSeen(f, rd, rd') && forall n :: Open(b, f, n) ==> Open(a, f, n)
    ensures OfferInTurn(f, Taking(x, p), log, b, rd')
  {
    hide Taking, Open, Offered;
    TakesFrame(x, p);
  }

  lemma OpenLess(a: Evidence, b: Evidence, f: RunId, no: nat)
    requires b.owner == a.owner && b.ready == a.ready + {no}
    ensures forall n :: Open(b, f, n) <==> Open(a, f, n) && n != no
  {
  }

  lemma OpenRelevant(s: State, f: RunId, no: nat)
    requires GaplessRun(s, f) && Open(s.ev, f, no)
    ensures Relevant(s.log, s.slots[f], no)
  {
  }

  /** Whoever resolves the first open evidence of a run leaves no gap. */
  lemma ResolvesGapless(s: State, p: Parked, f: RunId)
    requires GaplessRun(s, f) && PhaseInv(s) && Owns(s.ev, f, p.no) && Provenance.TurnFrame(s.log, p)
    requires !s.slots[f].run.terminal ==> forall n :: Open(s.ev, f, n) ==> p.no <= n
    ensures GaplessRun(Resolve(s, p, f), f)
  {
    hide PhaseInv, Resolve, Phased, Placed, Gap, OfferInTurn, Taking, OnItsWay, Relevant;
    if p.no in s.ev.ready {
      ResolveNoop(s, p, f);
    } else {
      ResolveShape(s, p, f);
      PhasedAt(s, f);
      OpenRelevant(s, f, p.no);
      var s1 := Resolve(s, p, f);
      OpenLess(s.ev, s1.ev, f, p.no);
      TakesNext(f, s.slots[f], p, s.log, s.ev, s1.ev, s.reader, s.reader, s.close.closed, s.q.stopping);
      TakenPlaced(f, s.slots[f], p, s.close.pub, s.reg.armedTurns);
      TakenOffer(f, s.slots[f], p, s.log, s.ev, s1.ev, s.reader, s.reader);
    }
  }

  // ----------------------------------------------------------------- starters

  lemma CreateGapless(s: State, f: RunId, thread: Id)
    requires BindingInv(s) && Starter.CanCreateRun(s, f, thread)
    ensures GaplessRun(Starter.DoCreateRun(s, f, thread), f)
  {
    assert forall n :: !Open(s.ev, f, n) by { assert OwnersBound(s.log, s.slots, s.ev.owner); }
    assert !Offered(s.reader, f) by { assert OffersBound(s.reader, s.slots); }
    hide BindingInv, Open, Offered;
  }

  lemma InRun(s: State, f: RunId)
    requires GaplessRun(s, f)
    ensures f in s.slots && Placed(f, s.slots[f], s.close.pub, s.reg.armedTurns)
  {
  }

  lemma StandsThenEnds(s: State, s1: State, r: RunId, err: Option<Err>, via: Via, f: RunId)
    requires GaplessRun(s1, f)
    ensures GaplessRun(FinishRun(s1, r, err, via), f)
  {
    hide GaplessRun, FinishRun, Seen;
    InRun(s1, f);
    SeenFinish(s1, r, err, via, f);
    SeenGapless(s1, FinishRun(s1, r, err, via), f);
  }

  lemma RegisterGapless(s: State, f: RunId, a: Starter.Action)
    requires GaplessRun(s, f) && PhaseInv(s) && Starter.Enabled(s, f, a)
    requires a.Register? || a.FinishRefused? || a.RegisterComplete? || a.RegisterDone?
    ensures GaplessRun(Starter.Step(s, f, a), f)
  {
    hide GaplessRun, PhaseInv, FinishRun, ListLeases;
    InRun(s, f);
    PhasedAt(s, f);
    match a
    case Register => StandsGapless(s, Starter.Step(s, f, a), f);
    case FinishRefused =>
      var s1 := SetCaller(s, f, Over);
      StandsGapless(s, s1, f);
      StandsThenEnds(s, s1, f, Some(s.slots[f].caller.refusal), ByError, f);
    case RegisterComplete =>
      var c := s.slots[f].caller;
      var s1 := SetCaller(s, f, c.(todo := None));
      StandsGapless(s, s1, f);
      StandsThenEnds(s, s1, c.todo.value.run, c.todo.value.err, ByRegister, f);
    case RegisterDone => StandsGapless(s, Starter.Step(s, f, a), f);
    case _ =>
  }

  lemma RegisterAcceptGapless(s: State, f: RunId)
    requires GaplessRun(s, f) && Provenance.ProvenanceInv(s) && Starter.CanRegisterAccept(s, f)
    ensures GaplessRun(Starter.DoRegisterAccept(s, f), f)
  {
    hide Provenance.ProvenanceInv, Gap, Placed, OfferInTurn, Taking, Starter.DoRegisterAccept;
    Provenance.ReplaysThread(s, f);
    RegisterAcceptShape(s, f);
    var p := s.slots[f].caller.list[s.slots[f].caller.regNext];
    var x := s.slots[f];
    var s1 := s.(slots := s.slots[f := Taking(x, p)]);
    TakesThread(f, x, p, s.log, s.ev, s.reader, s.reader, s.close.closed, s.q.stopping);
    TakenPlaced(f, x, p, s.close.pub, s.reg.armedTurns);
    TakenOffer(f, x, p, s.log, s.ev, s.ev, s.reader, s.reader);
    TakesFrame(x, p);
    RegisterAcceptQueue(s, f);
    StandsGapless(s1, Starter.DoRegisterAccept(s, f), f);
  }

  lemma RegisterAcceptQueue(s: State, f: RunId)
    requires Starter.CanRegisterAccept(s, f)
    ensures Starter.DoRegisterAccept(s, f).q == s.q
  {
    hide Retain, Accept, Admissible;
  }

  lemma AttachPublishGapless(s: State, f: RunId)
    requires GaplessRun(s, f) && !Shared(s.slots, f) && Registration.RegistryInv(s) && PhaseInv(s)
    requires Starter.CanAttachPublish(s, f)
    ensures GaplessRun(Starter.DoAttachPublish(s, f), f)
  {
    hide GaplessRun, PhaseInv, Registration.RegistryInv, Starter.DoAttachPublish, Owns, Shared;
    PhasedAt(s, f);
    InRun(s, f);
    ParkedIsOwn(s, f);
    AttachPublishShape(s, f);
    AttachPublishQueue(s, f);
    MovesGapless(s, Starter.DoAttachPublish(s, f), f);
  }

  lemma AttachPublishQueue(s: State, f: RunId)
    requires Starter.CanAttachPublish(s, f)
    ensures Starter.DoAttachPublish(s, f).q == s.q
  {
    hide With, Without;
  }

  /** Collecting ends the binding where the log ends. */
  lemma CollectGap(f: RunId, x: Slot, y: Slot, log: seq<Note>, ev: Evidence, rd: ClientState.Reader, closed: bool,
          stopping: bool)
    requires Gap(f, x, log, ev, rd, closed, stopping) && !Finished(x) && OfferInTurn(f, x, log, ev, rd)
    requires y.run == x.run && y.taken == x.taken && x.arm.Some? && y.arm == Some(x.arm.value.(until := Some(|log|)))
    ensures Gap(f, y, log, ev, rd, closed, stopping) && OfferInTurn(f, y, log, ev, rd)
  {
    assert forall n :: Relevant(log, y, n) <==> Relevant(log, x, n);
    hide Relevant, Open, Coming, Offered;
  }

  lemma FinishCollectGapless(s: State, f: RunId)
    requires GaplessRun(s, f) && Starter.CanFinishCollect(s, f)
    ensures GaplessRun(Starter.DoFinishCollect(s, f), f)
  {
    hide Gap, OfferInTurn, Starter.DoFinishCollect, Starter.Mine, Starter.Kept;
    FinishCollectShape(s, f);
    FinishCollectQueue(s, f);
    var x := s.slots[f];
    var s' := Starter.DoFinishCollect(s, f);
    if x.arm.None? {
      MovesGapless(s, s', f);
    } else {
      CollectGap(f, x, s'.slots[f], s.log, s.ev, s.reader, s.close.closed, s.q.stopping);
    }
  }

  lemma FinishCollectQueue(s: State, f: RunId)
    requires Starter.CanFinishCollect(s, f)
    ensures Starter.DoFinishCollect(s, f).q == s.q
  {
    hide Starter.Mine, Starter.KeepOthers, Without;
  }

  lemma ListFrame(s: State, f: RunId, i: nat)
    requires Provenance.ProvenanceInv(s) && f in s.slots && (s.slots[f].caller.Replay? || s.slots[f].caller.FinResolve?)
    requires i < |s.slots[f].caller.list|
    ensures Provenance.TurnFrame(s.log, s.slots[f].caller.list[i])
  {
    hide Provenance.ProvenanceInv, Provenance.HistoryOk;
    Provenance.SlotAt(s, f);
    assert s.slots[f].caller.list[i] in s.slots[f].caller.list;
  }

  /** The starter of the run resolves the head of its list. */
  lemma ListResolvesGapless(s: State, f: RunId, p: Parked, c: Caller)
    requires GaplessRun(s, f) && OrderedRun(s, f) && PhaseInv(s) && Provenance.TurnFrame(s.log, p)
    requires PassesHead(s.slots[f], s.slots[f].(caller := c), p.no)
    ensures f in Resolve(s, p, f).slots && GaplessRun(SetCaller(Resolve(s, p, f), f, c), f)
  {
    hide GaplessRun, Local, PhaseInv, Resolve, PassesHead, Provenance.TurnFrame, Open;
    var x := s.slots[f];
    HeadIsFirst(f, x, x.(caller := c), p.no, ParkedOf(s.reg.pend, x), s.ev, s.close.pub, s.reader);
    ResolvesGapless(s, p, f);
    ResolveFrame(s, p, f);
    ResolveSlot(s, p, f);
    var s1 := Resolve(s, p, f);
    assert Registration.StandingOf(c) == Registration.StandingOf(x.caller)
        && (c.Replay? ==> x.caller.Replay? && c.list == x.caller.list) by { PassesStanding(x, c, p.no); }
    StandsGapless(s1, SetCaller(s1, f, c), f);
  }

  lemma PassesStanding(x: Slot, c: Caller, no: nat)
    requires PassesHead(x, x.(caller := c), no)
    ensures Registration.StandingOf(c) == Registration.StandingOf(x.caller)
    ensures c.Replay? ==> x.caller.Replay? && c.list == x.caller.list
  {
  }

  lemma StepsAsideGapless(s: State, f: RunId, c: Caller, done: Option<Completion>, via: Via)
    requires GaplessRun(s, f) && Registration.StandingOf(c) == Registration.StandingOf(s.slots[f].caller)
    requires c.Replay? ==> s.slots[f].caller.Replay? && c.list == s.slots[f].caller.list
    ensures GaplessRun(SetCaller(s, f, c), f)
    ensures done.Some? ==> GaplessRun(FinishRun(SetCaller(s, f, c), done.value.run, done.value.err, via), f)
  {
    hide GaplessRun, FinishRun;
    InRun(s, f);
    StandsGapless(s, SetCaller(s, f, c), f);
    if done.Some? { StandsThenEnds(s, SetCaller(s, f, c), done.value.run, done.value.err, via, f); }
  }

  lemma FinishEndGapless(s: State, f: RunId, err: Err)
    requires GaplessRun(s, f) && Starter.CanFinishEnd(s, f)
    ensures GaplessRun(Starter.DoFinishEnd(s, f, err), f)
  {
    hide GaplessRun, FinishRun, ListLeases;
    InRun(s, f);
    var s1 := LetGo(SetCaller(s, f, Over), ListLeases(s.slots[f].caller.list));
    StandsGapless(s, s1, f);
    StandsThenEnds(s, s1, f, Some(err), ByError, f);
  }

  /** The starter's steps that leave its run's binding and list alone. */
  lemma OwnMovesGapless(s: State, f: RunId, a: Starter.Action)
    requires GaplessRun(s, f) && PhaseInv(s) && Starter.Enabled(s, f, a)
    requires a.AttachLock? || a.AttachDone? || a.FinishLock? || a.FinishUnlock? || a.Unregister? || a.Collect?
    ensures GaplessRun(Starter.Step(s, f, a), f)
  {
    hide GaplessRun, PhaseInv, Seen, Starter.Step;
    InRun(s, f);
    PhasedAt(s, f);
    MoveShape(s, f, a);
    MoveRegistry(s, f, a);
    OwnMoveShape(s, f, a);
    var s' := Starter.Step(s, f, a);
    if a.Unregister? || a.Collect? {
      SeenApart(s, s', f);
      SeenGapless(s, s', f);
    } else {
      StandsGapless(s, s', f);
    }
  }

  lemma OwnMoveShape(s: State, f: RunId, a: Starter.Action)
    requires f in s.slots && Starter.Enabled(s, f, a) && f in Starter.Step(s, f, a).slots
    requires a.AttachLock? || a.AttachDone? || a.FinishLock? || a.FinishUnlock? || a.Unregister? || a.Collect?
    ensures var x := s.slots[f]; var y := Starter.Step(s, f, a).slots[f];
            && y.taken == x.taken && y.copied == x.copied && y.run.terminal == x.run.terminal
            && y.run.terminalAdmitted == x.run.terminalAdmitted
            && (a.Unregister? || a.Collect? ==> Rests(x, y))
            && (!a.Unregister? && !a.Collect? ==>
                  !y.caller.Replay?
                  && (Registration.StandingOf(y.caller) == Registration.StandingOf(x.caller) || x.caller.Calling?))
  {
    hide ListLeases, Without, FinishRun, Resolve, AcceptRetained;
    hide Starter.DoCreateRun, Starter.DoFinishRefused, Starter.DoRegisterAccept, Starter.DoRegisterComplete;
    hide Starter.DoAttachPublish, Starter.DoAttachResolve, Starter.DoAttachNext, Starter.DoFinishCollect;
    hide Starter.DoFinishResolve, Starter.DoFinishComplete, Starter.DoFinishEnd, Starter.DoExternalFinish;
  }

  lemma OwnStarterGapless(s: State, f: RunId, a: Starter.Action)
    requires a.CreateRun? || (GaplessRun(s, f) && OrderedRun(s, f))
    requires Registration.RegistryInv(s) && PhaseInv(s) && Provenance.ProvenanceInv(s) && BindingInv(s)
    requires !Shared(s.slots, f) && Starter.Enabled(s, f, a)
    ensures GaplessRun(Starter.Step(s, f, a), f)
  {
    hide GaplessRun, OrderedRun, Registration.RegistryInv, PhaseInv, Provenance.ProvenanceInv, BindingInv;
    hide FinishRun, Resolve;
    hide Starter.DoRegister, Starter.DoRegisterAccept, Starter.DoAttachPublish, Starter.DoFinishCollect, Seen;
    hide Starter.CanRegisterAccept, Starter.DoFinishEnd, Provenance.TurnFrame, Shared;
    match a
    case CreateRun(thread) => CreateGapless(s, f, thread);
    case RegisterAccept => RegisterAcceptGapless(s, f);
    case AttachPublish => AttachPublishGapless(s, f);
    case AttachResolve =>
      var c := s.slots[f].caller;
      ListFrame(s, f, c.next);
      ListResolvesGapless(s, f, c.list[c.next], c.(resolved := true));
    case AttachNext =>
      var c := s.slots[f].caller;
      var done := CompletionAt(s.ev.completion, c.list[c.next].no);
      StepsAsideGapless(s, f, c.(next := c.next + 1, resolved := false), done, ByReplay);
    case FinishCollect => FinishCollectGapless(s, f);
    case FinishResolve =>
      var c := s.slots[f].caller;
      ListFrame(s, f, c.finNext);
      ListResolvesGapless(s, f, c.list[c.finNext], c.(finNext := c.finNext + 1));
    case FinishComplete =>
      var c := s.slots[f].caller;
      var done := CompletionAt(s.ev.completion, c.list[c.doneNext].no);
      StepsAsideGapless(s, f, c.(doneNext := c.doneNext + 1), done, ByFinish(c.list[c.doneNext].no));
    case FinishEnd(err) => FinishEndGapless(s, f, err);
    case ExternalFinish(err) => StandsThenEnds(s, s, f, Some(err), ByError, f);
    case _ =>
      if a.Register? || a.FinishRefused? || a.RegisterComplete? || a.RegisterDone? {
        RegisterGapless(s, f, a);
      } else {
        OwnMovesGapless(s, f, a);
      }
  }

  lemma StarterGapless(s: State, q: RunId, a: Starter.Action, f: RunId)
    requires (q == f && a.CreateRun?) || (GaplessRun(s, f) && OrderedRun(s, f))
    requires Registration.RegistryInv(s) && PhaseInv(s) && Provenance.ProvenanceInv(s) && BindingInv(s)
    requires !Shared(s.slots, f) && Starter.Enabled(s, q, a)
    ensures GaplessRun(Starter.Step(s, q, a), f)
  {
    hide GaplessRun, OrderedRun, Registration.RegistryInv, PhaseInv, Provenance.ProvenanceInv, BindingInv, Seen, Shared;
    hide Starter.Enabled, Starter.Step;
    if q == f {
      OwnStarterGapless(s, f, a);
    } else {
      InRun(s, f);
      SeenStarter(s, q, a, f);
      SeenGapless(s, Starter.Step(s, q, a), f);
    }
  }

  // ------------------------------------------------------------------- reader

  /** A thread-scoped frame is nobody's turn frame. */
  lemma ThreadFrameIrrelevant(x: Slot, log: seq<Note>, n: nat)
    requires Phased(x) && n < |log| && !ClassOf(log[n]).Turn?
    ensures !Relevant(log, x, n)
  {
  }

  /** The run at the head of the offers takes the routed frame if it may. */
  lemma TakesLiveGapless(s: State, f: RunId, p: Parked, rd': ClientState.Reader)
    requires GaplessRun(s, f) && OrderedRun(s, f) && PhaseInv(s) && Provenance.ProvenanceInv(s) && Once.OnceInv(s)
    requires BindingInv(s)
    requires Reader.CanReaderAccept(s) && f == s.reader.targets[0] && p.no == s.reader.frame && p.note == s.reader.note
    ensures Gap(f, Taking(s.slots[f], p), s.log, s.ev, rd', s.close.closed, s.q.stopping)
  {
    Provenance.Known(s);
    Once.Known(s);
    PhasedAt(s, f);
    var x := s.slots[f];
    assert p.no + 1 == |s.log| && s.log[p.no] == p.note && p.no !in s.ev.owner;
    if ClassOf(p.note).Turn? {
      LiveOffer(s, f);
    } else {
      ThreadFrameIrrelevant(x, s.log, p.no);
    }
    hide GaplessRun, OrderedRun, PhaseInv, Provenance.ProvenanceInv, Once.OnceInv, BindingInv;
    hide Reader.CanReaderAccept, Gap;
    hide Relevant, Phased, Coming, Provenance.SlotsOk, Provenance.PendOk, Provenance.ThreadPendOk;
    hide Provenance.PublisherOk;
    hide Provenance.EvidenceOk, Once.SlotsOnce, Once.ThreadsOnce, Once.ReaderOnce;
    TakesRouted(s, f, p, rd');
  }

  lemma TakesRouted(s: State, f: RunId, p: Parked, rd': ClientState.Reader)
    requires f in s.slots && Gap(f, s.slots[f], s.log, s.ev, s.reader, s.close.closed, s.q.stopping)
    requires Phased(s.slots[f])
    requires p.no + 1 == |s.log| && s.log[p.no] == p.note
    requires !ClassOf(p.note).Turn? ==> !Relevant(s.log, s.slots[f], p.no)
    requires ClassOf(p.note).Turn? ==>
               && Relevant(s.log, s.slots[f], p.no) && !Finished(s.slots[f])
               && (!Stopped(s.slots[f].run) ==> forall n :: Open(s.ev, f, n) ==> p.no <= n)
               && !Open(s.ev, f, p.no)
    ensures Gap(f, Taking(s.slots[f], p), s.log, s.ev, rd', s.close.closed, s.q.stopping)
  {
    hide Gap, Relevant, Phased, Coming;
    if ClassOf(p.note).Turn? {
      TakesNext(f, s.slots[f], p, s.log, s.ev, s.ev, s.reader, rd', s.close.closed, s.q.stopping);
    } else {
      TakesThread(f, s.slots[f], p, s.log, s.ev, s.reader, rd', s.close.closed, s.q.stopping);
    }
  }

  /** What the offer of a turn frame says when the run's turn has come. */
  lemma LiveOffer(s: State, f: RunId)
    requires GaplessRun(s, f) && OrderedRun(s, f) && PhaseInv(s) && Provenance.ProvenanceInv(s) && Once.OnceInv(s)
    requires BindingInv(s)
    requires Reader.CanReaderAccept(s) && f == s.reader.targets[0] && ClassOf(s.reader.note).Turn?
    ensures Relevant(s.log, s.slots[f], s.reader.frame) && !Finished(s.slots[f]) && !Open(s.ev, f, s.reader.frame)
    ensures !Stopped(s.slots[f].run) ==> forall n :: !Open(s.ev, f, n)
  {
    PhasedAt(s, f);
    Once.Known(s);
    Binding.Known(s);
    var x := s.slots[f];
    assert x.caller.Attached?;
    hide PhaseInv, Provenance.ProvenanceInv, Once.OnceInv, BindingInv, Ascending, Ahead, InList, Gap;
    hide Once.SlotsOnce, Once.ThreadsOnce;
    if !Stopped(x.run) && !x.taken {
      forall n ensures !Open(s.ev, f, n) {
        assert Open(s.ev, f, n) ==> WaitsAt(x, n, ParkedOf(s.reg.pend, x), s.close.pub);
      }
    }
  }

  lemma ReaderAcceptGapless(s: State, bytes: nat, f: RunId)
    requires GaplessRun(s, f) && OrderedRun(s, f) && PhaseInv(s) && Provenance.ProvenanceInv(s) && Once.OnceInv(s)
    requires BindingInv(s)
    requires Reader.CanReaderAccept(s) && f == s.reader.targets[0]
    ensures GaplessRun(Reader.DoReaderAccept(s, bytes), f)
  {
    hide OrderedRun, PhaseInv, Provenance.ProvenanceInv, Once.OnceInv, BindingInv, Reader.DoReaderAccept, Gap;
    hide Taking, OfferInTurn;
    hide Placed;
    var s' := Reader.DoReaderAccept(s, bytes);
    var rd := s.reader;
    var x := s.slots[f];
    ReaderAcceptShape(s, bytes);
    ReaderAcceptQueue(s, bytes);
    if s'.slots != s.slots || s'.reader.failed.None? {
      var l :| s'.slots == s.slots[f := Taking(x, Parked(rd.frame, rd.note, l))];
      var p := Parked(rd.frame, rd.note, l);
      TakesLiveGapless(s, f, p, s'.reader);
      TakenPlaced(f, x, p, s.close.pub, s.reg.armedTurns);
      TakenOffer(f, x, p, s.log, s.ev, s.ev, rd, s'.reader);
    } else {
      GapKept(f, x, x, s.log, s.ev, s.ev, rd, s'.reader, s.close.closed, s.close.closed, s.q.stopping, s.q.stopping);
      OfferKept(f, x, x, s.log, s.ev, s.ev, rd, s'.reader);
    }
  }

  lemma ReaderAcceptQueue(s: State, bytes: nat)
    requires Reader.CanReaderAccept(s)
    ensures Reader.DoReaderAccept(s, bytes).q == s.q
  {
    hide Retain, Accept, Admissible, Reserve;
  }

  lemma InOrder(s: State, note: Note, order: seq<RunId>, r: RunId)
    requires Reader.CanRoute(s, note, order) && ClassOf(note).Turn?
    ensures r in order <==> r in StreamTargets(s, note) || r in AttachTargets(s, note)
  {
    assert r in order <==> r in multiset(order);
  }

  /** Nobody else is bound to the turn, so the frame has no live target. */
  lemma NobodyElse(s: State, note: Note, order: seq<RunId>, f: RunId)
    requires Reader.CanRoute(s, note, order) && Registration.RegistryInv(s) && PhaseInv(s) && !Shared(s.slots, f)
    requires f in s.slots && !TurnBound(s.slots[f].caller) && Registration.BoundTo(s.slots, f, note.turnId)
    requires ClassOf(note).Turn?
    ensures order == []
  {
    hide Registration.RegistryInv, PhaseInv, Reader.CanRoute, Shared;
    TargetsBound(s, note, order);
    if order != [] {
      var q := order[0];
      assert OfTurn(s.slots, q, note) && TurnBound(s.slots[q].caller);
      Unshared(s.slots, q, f);
    }
  }

  /** Who is offered, or parks, a turn frame: the run its turn is bound to. */
  lemma Finds(s: State, note: Note, order: seq<RunId>, f: RunId)
    requires Reader.CanRoute(s, note, order) && Registration.RegistryInv(s) && PhaseInv(s) && !Shared(s.slots, f)
    requires f in s.slots && s.close.pub.NoPublisher? && !s.slots[f].run.terminal
    requires Placed(f, s.slots[f], s.close.pub, s.reg.armedTurns)
    requires s.slots[f].arm.Some? && !Finished(s.slots[f])
    requires BelongsTo(note, s.slots[f].run.threadId, s.slots[f].arm.value.turn)
    ensures ClassOf(note).Turn?
    ensures f in order || (order == [] && Parkable(s, note) && s.reg.armedTurns[note.turnId] == f)
  {
    var x := s.slots[f];
    PhasedAt(s, f);
    assert Matches(s, f, note);
    if TurnBound(x.caller) {
      assert f in StreamTargets(s, note) || f in AttachTargets(s, note) by {
        hide PhaseInv, Registration.StreamsOk, Registration.AttachingOk, Registration.ArmedOk;
        hide Registration.KeysOk, Registration.ParkedOk, Reader.CanRoute, Shared;
      }
      InOrder(s, note, order, f);
    } else {
      hide PhaseInv, Registration.RegistryInv, Reader.CanRoute, Shared;
      NobodyElse(s, note, order, f);
    }
  }

  /** Ingestion adds one frame; nothing else becomes relevant. */
  lemma RelevantGrows(log: seq<Note>, note: Note, x: Slot)
    ensures forall n :: n != |log| ==> (Relevant(log + [note], x, n) <==> Relevant(log, x, n))
  {
  }

  /** One run sees a frame ingested. */
  lemma SeesIngested(
    f: RunId, x: Slot, log: seq<Note>, note: Note, a: Evidence, b: Evidence,
    rd: ClientState.Reader, rd': ClientState.Reader)
    requires Gap(f, x, log, a, rd, false, false) && !rd.Routed? && Provenance.HistoryOk(log, x.run.history)
    requires b == a.(owner := b.owner) && |log| !in a.owner && |log| !in a.ready
    requires b.owner == a.owner || (|log| in b.owner && b.owner == a.owner[|log| := b.owner[|log|]])
    requires |log| in b.owner && b.owner[|log|] == f ==> Relevant(log + [note], x, |log|)
    requires !x.run.terminal && Relevant(log + [note], x, |log|) ==> Open(b, f, |log|) || Coming(f, rd', false)
    ensures Gap(f, x, log + [note], b, rd', false, false)
  {
    RelevantGrows(log, note, x);
    assert forall g <- x.run.history :: g.no < |log|;
    assert forall n :: n != |log| ==> (Open(b, f, n) <==> Open(a, f, n));
    hide Relevant, Open, Once.Accepted;
    assert forall i :: 0 <= i < |x.run.history| ==> x.run.history[i] in x.run.history;
    assert forall n :: !LeftLast(f, x, log, a, false, n);
    hide LeftLast;
  }

  /** A frame of the run's turn becomes relevant to it when ingested. */
  lemma IngestedRelevant(s: State, note: Note, f: RunId)
    requires OfTurn(s.slots, f, note) && ClassOf(note).Turn? && GaplessRun(s, f)
    requires !Registration.StandingOf(s.slots[f].caller).Leaving?
    ensures Relevant(s.log + [note], s.slots[f], |s.log|)
  {
    hide Tight, AllAccounted, OfferInTurn;
  }

  lemma ParksRelevant(s: State, note: Note)
    requires ClassOf(note).Turn? && Parkable(s, note) && Registration.RegistryInv(s) && PhaseInv(s)
    requires s.reg.armedTurns[note.turnId] in s.slots && GaplessRun(s, s.reg.armedTurns[note.turnId])
    ensures Relevant(s.log + [note], s.slots[s.reg.armedTurns[note.turnId]], |s.log|)
  {
    hide GaplessRun, Registration.RegistryInv, PhaseInv;
    ParksBound(s, note);
    ArmedOwner(s, note);
    IngestedRelevant(s, note, s.reg.armedTurns[note.turnId]);
  }

  lemma TurnBoundStays(c: Caller)
    requires TurnBound(c)
    ensures !Registration.StandingOf(c).Leaving?
  {
  }

  /** What is known of the next frame when it is ingested. */
  lemma NextFrame(s: State, f: RunId)
    requires GaplessRun(s, f) && Provenance.ProvenanceInv(s)  && Fifo.QueueInv(s)
    requires !s.close.closed && forall n <- s.ev.ready :: n < |s.log|
    ensures |s.log| !in s.ev.owner && |s.log| !in s.ev.ready && Provenance.HistoryOk(s.log, s.slots[f].run.history)
    ensures !s.q.stopping
  {
    Provenance.SlotAt(s, f);
    Provenance.Known(s);
    hide GaplessRun, Provenance.ProvenanceInv, Provenance.SlotsOk, Provenance.PendOk, Provenance.ThreadPendOk;
  }

  lemma RouteGapless(s: State, note: Note, order: seq<RunId>, bytes: nat, f: RunId)
    requires GaplessRun(s, f) && OrderedRun(s, f) && Base(s) && Reader.CanRoute(s, note, order) && !Shared(s.slots, f)
    ensures GaplessRun(Reader.DoRoute(s, note, order, bytes), f)
  {
    hide GaplessRun, OrderedRun, Registration.RegistryInv, PhaseInv, Provenance.ProvenanceInv;
    hide Frozen.CloseInv, Reader.CanRoute, Reader.DoRoute;
    hide BindingInv, Once.OnceInv, Fifo.QueueInv, Shared, Provenance.HistoryOk;
    RouteStarts(s, note, order);
    RouteShape(s, note, order, bytes);
    RouteQueue(s, note, order, bytes);
    NextFrame(s, f);
    TakenLate(s, f);
    var s' := Reader.DoRoute(s, note, order, bytes);
    IngestsFor(s, s', note, order, f);
    IngestedGapless(s, s', note, f);
  }

  lemma TakenLate(s: State, f: RunId)
    requires OrderedRun(s, f)
    ensures s.slots[f].taken ==> s.close.pub.Draining? || s.close.pub.Published?
  {
  }

  lemma RouteQueue(s: State, note: Note, order: seq<RunId>, bytes: nat)
    requires Reader.CanRoute(s, note, order)
    ensures Reader.DoRoute(s, note, order, bytes).q == s.q
  {
    hide Reserve, Parkable, Reader.CanRoute;
  }

  /** A frame of the run's turn is offered to it or parked for it, and so is no
      other. */
  lemma IngestsFor(s: State, s': State, note: Note, order: seq<RunId>, f: RunId)
    requires GaplessRun(s, f) && Registration.RegistryInv(s) && PhaseInv(s) && !Shared(s.slots, f)
    requires Reader.CanRoute(s, note, order) && s.close.pub.NoPublisher? && |s.log| !in s.ev.owner
    requires |s.log| !in s.ev.ready
    requires s'.reader.Routed? && s'.reader.targets == order && s'.reader.note == note
    requires s'.ev == s.ev.(owner := s'.ev.owner)
    requires s'.ev.owner == s.ev.owner ==>
               (ClassOf(note).Turn? && Parkable(s, note) && order == [] ==> s'.reader.failed.Some?)
    requires s'.ev.owner != s.ev.owner ==>
               ClassOf(note).Turn? && Parkable(s, note) && order == []
               && s'.ev.owner == s.ev.owner[|s.log| := s.reg.armedTurns[note.turnId]]
    ensures var log := s.log + [note]; var x := s.slots[f];
            && (Owns(s'.ev, f, |s.log|) ==> Relevant(log, x, |s.log|))
            && (Offered(s'.reader, f) ==> Relevant(log, x, |s.log|))
            && (!x.run.terminal && Relevant(log, x, |s.log|) ==> Open(s'.ev, f, |s.log|) || Coming(f, s'.reader, false))
  {
    hide Gap, OfferInTurn, Registration.RegistryInv, PhaseInv, Reader.CanRoute, Shared, Placed;
    var x := s.slots[f];
    if Owns(s'.ev, f, |s.log|) { ParksRelevant(s, note); }
    if Offered(s'.reader, f) {
      TargetsBound(s, note, order);
      TurnBoundStays(x.caller);
      IngestedRelevant(s, note, f);
    }
    if !x.run.terminal && Relevant(s.log + [note], x, |s.log|) {
      StillBound(s, note, f);
      Finds(s, note, order, f);
    }
  }

  lemma StillBound(s: State, note: Note, f: RunId)
    requires GaplessRun(s, f) && Relevant(s.log + [note], s.slots[f], |s.log|)
    ensures s.slots[f].arm.Some? && !Finished(s.slots[f])
    ensures BelongsTo(note, s.slots[f].run.threadId, s.slots[f].arm.value.turn)
  {
  }

  lemma IngestedGapless(s: State, s': State, note: Note, f: RunId)
    requires GaplessRun(s, f) && !s.close.closed && !s.q.stopping && !s.reader.Routed? && s.close.pub.NoPublisher?
    requires Base(s) && |s.log| !in s.ev.owner && |s.log| !in s.ev.ready
    requires Provenance.HistoryOk(s.log, s.slots[f].run.history)
    requires s'.slots == s.slots && s'.log == s.log + [note] && s'.close == s.close && s'.q == s.q
    requires s'.reg.armedTurns == s.reg.armedTurns && s'.ev == s.ev.(owner := s'.ev.owner) && s'.reader.Routed?
    requires s'.reader.frame == |s.log|
    requires s'.ev.owner == s.ev.owner
               || (|s.log| in s'.ev.owner && s'.ev.owner == s.ev.owner[|s.log| := s'.ev.owner[|s.log|]])
    requires !s.slots[f].taken
    requires var log := s.log + [note]; var x := s.slots[f];
             && (Owns(s'.ev, f, |s.log|) ==> Relevant(log, x, |s.log|))
             && (Offered(s'.reader, f) ==> Relevant(log, x, |s.log|))
             && (!x.run.terminal && Relevant(log, x, |s.log|) ==>
                 Open(s'.ev, f, |s.log|) || Coming(f, s'.reader, false))
    ensures GaplessRun(s', f)
  {
    hide Base, Gap, Relevant, Placed, Coming, Offered, Open;
    SeesIngested(f, s.slots[f], s.log, note, s.ev, s'.ev, s.reader, s'.reader);
  }

  /** A turn id of its own is bound to the run; nothing of it was ingested yet. */
  lemma BindGapless(s: State, f: RunId, turn: Id, bytes: nat)
    requires GaplessRun(s, f) && PhaseInv(s) && BindingInv(s) && Reader.CanArmTurn(s, f, turn)
    requires Reader.DoArmTurn(s, f, turn, bytes).slots != s.slots
    ensures GaplessRun(Reader.DoArmTurn(s, f, turn, bytes), f)
  {
    hide PhaseInv, BindingInv, Reserve, Owns, GaplessRun;
    PhasedAt(s, f);
    UnboundOwnsNothing(s, f);
    Binding.SlotAt(s, f);
    var s' := Reader.DoArmTurn(s, f, turn, bytes);
    assert s'.slots == s.slots[f := s.slots[f].(caller := Answered, arm := Some(Arm(turn, |s.log|, None)))];
    assert OwnsArmed(f, s'.slots[f], s'.reg.armedTurns);
    JustBound(f, s.slots[f], s'.slots[f], s'.log, s'.ev, s'.reader, s'.close.closed, s'.q.stopping);
    BoundPlaced(s', f);
  }

  lemma JustBound(f: RunId, x: Slot, y: Slot, log: seq<Note>, ev: Evidence, rd: ClientState.Reader, closed: bool,
          stopping: bool)
    requires x.arm.None? && HistoryBound(x) && y.run == x.run && y.arm.Some? && y.arm.value.at == |log|
    requires y.arm.value.until.None?
    requires forall n :: !Owns(ev, f, n)
    ensures Gap(f, y, log, ev, rd, closed, stopping)
  {
    assert forall i :: 0 <= i < |x.run.history| ==> x.run.history[i] in x.run.history;
    assert forall n :: Open(ev, f, n) ==> Owns(ev, f, n);
    assert forall n :: !Relevant(log, y, n);
    hide Owns, Open, Relevant, Coming, LeftLast;
  }

  lemma BoundPlaced(s: State, f: RunId)
    requires f in s.slots && Gap(f, s.slots[f], s.log, s.ev, s.reader, s.close.closed, s.q.stopping)
    requires s.slots[f].caller.Answered? && OwnsArmed(f, s.slots[f], s.reg.armedTurns)
    requires s.slots[f].arm.value.until.None?
    requires s.reader.Idle?
    ensures GaplessRun(s, f)
  {
    hide Gap;
  }

  lemma ReaderGapless(s: State, a: Reader.Action, f: RunId)
    requires GaplessRun(s, f) && OrderedRun(s, f) && Base(s) && Reader.Enabled(s, a)
    requires !Shared(s.slots, f) && !Shared(Reader.Step(s, a).slots, f)
    ensures GaplessRun(Reader.Step(s, a), f)
  {
    hide GaplessRun, OrderedRun, Registration.RegistryInv, PhaseInv, Provenance.ProvenanceInv, Once.OnceInv, BindingInv;
    hide Frozen.CloseInv, Fifo.QueueInv, Seen, Shared;
    hide Reader.DoRoute, Reader.DoReaderAccept, Reader.DoArmTurn, Reader.CanRoute;
    InRun(s, f);
    if a.Route? {
      RouteGapless(s, a.note, a.order, a.bytes, f);
    } else if a.Accept? && s.reader.targets[0] == f {
      ReaderAcceptGapless(s, a.bytes, f);
    } else if a.ArmTurn? && a.r == f && Reader.Step(s, a).slots != s.slots {
      BindGapless(s, f, a.turn, a.bytes);
    } else {
      SeenReader(s, a, f);
      SeenGapless(s, Reader.Step(s, a), f);
    }
  }

  // ------------------------------------------------- closing and the dispatcher

  lemma MarkedOffer(s: State, f: RunId)
    requires GaplessRun(s, f) && OrderedRun(s, f) && BindingInv(s) && s.close.pub.Claimed? && !Closing.Overtakes(s, f)
    ensures OfferInTurn(f, Closing.Marked(s.slots[f]), s.log, s.ev, s.reader)
  {
    TakenLate(s, f);
    assert OffersBound(s.reader, s.slots);
    var x := s.slots[f];
    assert Closing.Outstanding(s.ev, f) <==> exists n :: Open(s.ev, f, n);
    hide OrderedRun, BindingInv, Gap, Open;
  }

  lemma SnapshotGapless(s: State, turns: seq<Id>, runs: seq<RunId>, finishing: seq<RunId>, f: RunId)
    requires GaplessRun(s, f) && OrderedRun(s, f) && BindingInv(s)
    requires Closing.CanSnapshot(s, turns, runs, finishing) && !Closing.Overtakes(s, f)
    ensures GaplessRun(Closing.DoSnapshot(s, turns, runs, finishing), f)
  {
    hide OrderedRun, BindingInv, Closing.CanSnapshot, Closing.DoSnapshot, Gap, OfferInTurn, Closing.Overtakes;
    hide Concat, ConcatReplays;
    SnapshotShape(s, turns, runs, finishing);
    MarkedOffer(s, f);
    var x := s.slots[f];
    GapKept(f, x, Closing.Marked(x), s.log, s.ev, s.ev, s.reader, s.reader, s.close.closed, s.close.closed,
            s.q.stopping, s.q.stopping);
  }

  lemma PublishOwnGapless(s: State, p: Parked, fromPending: bool, ls: multiset<LeaseId>, f: RunId)
    requires GaplessRun(s, f) && OrderedRun(s, f) && PhaseInv(s) && Provenance.TurnFrame(s.log, p)
    requires s.close.pub.Draining? && Owns(s.ev, f, p.no)
    requires fromPending ==> s.close.pub.pending != [] && p == s.close.pub.pending[0]
    requires !fromPending ==> s.close.pub.replay != [] && p == s.close.pub.replay[0]
    ensures var pub := if fromPending then s.close.pub.(pending := s.close.pub.pending[1..])
                       else s.close.pub.(replay := s.close.pub.replay[1..]);
            GaplessRun(LetGo(SetPublisher(Resolve(s, p, f), pub), ls), f)
  {
    hide GaplessRun, OrderedRun, PhaseInv, Resolve, Seen, Open, Provenance.TurnFrame;
    PublishedIsFirst(s, p, fromPending, f);
    ResolvesGapless(s, p, f);
    ResolveOrdered(s, p, f);
    ResolveFrame(s, p, f);
    var s1 := Resolve(s, p, f);
    var pub := if fromPending then s.close.pub.(pending := s.close.pub.pending[1..])
               else s.close.pub.(replay := s.close.pub.replay[1..]);
    InRun(s1, f);
    NotOpen(s1.ev, f, p.no);
    SeenAdvance(s1, pub, f);
    SeenGapless(s1, SetPublisher(s1, pub), f);
    Regardless(SetPublisher(s1, pub), LetGo(SetPublisher(s1, pub), ls), f);
  }

  lemma Regardless(s: State, s': State, f: RunId)
    requires GaplessRun(s, f) && s' == s.(mem := s'.mem)
    ensures GaplessRun(s', f)
  {
  }

  lemma CloserGapless(s: State, a: Closing.Action, f: RunId)
    requires GaplessRun(s, f) && OrderedRun(s, f) && Base(s) && Closing.Enabled(s, a)
    requires a.Snapshot? ==> !Closing.Overtakes(s, f)
    ensures GaplessRun(Closing.Step(s, a), f)
  {
    hide GaplessRun, OrderedRun, Registration.RegistryInv, PhaseInv, Provenance.ProvenanceInv, Once.OnceInv, BindingInv;
    hide Frozen.CloseInv, Fifo.QueueInv, Seen, Closing.Overtakes, Provenance.TurnFrame;
    hide FinishRun, Resolve, Release, Closing.DoSnapshot, Closing.CanSnapshot, Closing.DoPublishFinish, DiscardFirst;
    InRun(s, f);
    if a.Snapshot? {
      SnapshotGapless(s, a.turns, a.runs, a.finishing, f);
    } else if a.PublishPending? && Owns(s.ev, f, s.close.pub.pending[0].no) {
      PublishedGenuine(s, s.close.pub.pending[0]);
      PublishOwnGapless(s, s.close.pub.pending[0], true, multiset{s.close.pub.pending[0].lease}, f);
    } else if a.PublishReplay? && Owns(s.ev, f, s.close.pub.replay[0].no) {
      PublishedGenuine(s, s.close.pub.replay[0]);
      PublishOwnGapless(s, s.close.pub.replay[0], false, multiset{s.close.pub.replay[0].lease}, f);
    } else {
      SeenCloser(s, a, f);
      SeenGapless(s, Closing.Step(s, a), f);
    }
  }

  /** Evidence that is still open when publication is over belongs to a run that
      finishes without attachment. */
  lemma OnlyFinishedWait(s: State, f: RunId, no: nat)
    requires GaplessRun(s, f) && OrderedRun(s, f) && Registration.RegistryInv(s) && !Shared(s.slots, f)
    requires s.close.pub.Published? && Open(s.ev, f, no) && !s.slots[f].run.terminal
    ensures Finished(s.slots[f]) && s.slots[f].caller.FinResolve?
    ensures forall n :: Open(s.ev, f, n) ==> InRest(s.slots[f].caller.list, s.slots[f].caller.finNext, n)
  {
    ParkedIsOwn(s, f);
    OpenRelevant(s, f, no);
    hide Registration.RegistryInv, Gap, OfferInTurn, Ascending, Ahead, Shared, Open, InRest;
    var x := s.slots[f];
    NothingIn();
    assert WaitsAt(x, no, [], s.close.pub);
    forall n | Open(s.ev, f, n) ensures InRest(x.caller.list, x.caller.finNext, n) {
      assert WaitsAt(x, n, [], s.close.pub);
    }
    assert x.arm.Some?;
  }

  /** Stopping opens a frame of the run that nobody accepted; nothing is accepted
      past it. */
  lemma StopLeaves(s: State, f: RunId, b: Evidence)
    requires s.q.disp.Holding? && s.q.disp.e.evidence && Open(s.ev, f, s.q.disp.e.frame) && !Dispatch.Skips(s, f)
    requires f in s.slots && !Stopped(s.slots[f].run) && Finished(s.slots[f])
    requires forall n :: Open(b, f, n) <==> Open(s.ev, f, n) && n != s.q.disp.e.frame
    ensures LeftLast(f, s.slots[f], s.log, b, true, s.q.disp.e.frame)
  {
    hide Open, Dispatch.Completes;
    forall m: nat | s.q.disp.e.frame < m && Open(b, f, m)
      ensures exists k: nat :: k < m && Open(b, f, k) && Dispatch.Completes(s.log, k)
    {
      assert !Dispatch.WaitsBehind(s, f, m);
      var k: nat :| Open(s.ev, f, k) && k < m && k != s.q.disp.e.frame && Dispatch.Completes(s.log, k);
      assert Open(b, f, k);
    }
  }

  lemma StopGap(
    f: RunId, x: Slot, log: seq<Note>, a: Evidence, b: Evidence, rd: ClientState.Reader, closed: bool, no: nat)
    requires Gap(f, x, log, a, rd, closed, false) && forall n :: Open(b, f, n) <==> Open(a, f, n) && n != no
    requires Stopped(x.run) || LeftLast(f, x, log, b, true, no)
    ensures Gap(f, x, log, b, rd, closed, true)
  {
    assert forall n :: !LeftLast(f, x, log, a, false, n);
    hide Relevant, Once.Accepted, Open, Coming, LeftLast;
  }

  lemma StopGapless(s: State, f: RunId)
    requires GaplessRun(s, f) && OrderedRun(s, f) && Registration.RegistryInv(s) && Frozen.CloseInv(s)
    requires !Shared(s.slots, f)
    requires Dispatch.CanBeginStopping(s) && !Dispatch.Skips(s, f)
    requires s.q.disp.Holding? && s.q.disp.e.evidence && Open(s.ev, f, s.q.disp.e.frame)
    ensures GaplessRun(Dispatch.DoBeginStopping(s), f)
  {
    assert s.close.pub.Published?;
    hide OrderedRun, Registration.RegistryInv, Frozen.CloseInv, Dispatch.Skips, Shared, Gap, LeftLast;
    var s' := Dispatch.DoBeginStopping(s);
    var x := s.slots[f];
    var no := s.q.disp.e.frame;
    OpenLess(s.ev, s'.ev, f, no);
    if !Stopped(x.run) {
      OnlyFinishedWait(s, f, no);
      StopLeaves(s, f, s'.ev);
    }
    StopGap(f, x, s.log, s.ev, s'.ev, s.reader, s.close.closed, no);
    OfferKept(f, x, x, s.log, s.ev, s'.ev, s.reader, s.reader);
  }

  lemma DispatcherGapless(s: State, a: Dispatch.Action, f: RunId)
    requires GaplessRun(s, f) && OrderedRun(s, f) && Base(s) && !Shared(s.slots, f) && Dispatch.Enabled(s, a)
    requires a.BeginStopping? ==> !Dispatch.Skips(s, f)
    ensures GaplessRun(Dispatch.Step(s, a), f)
  {
    hide GaplessRun, OrderedRun, Registration.RegistryInv, PhaseInv, Provenance.ProvenanceInv, Once.OnceInv, BindingInv;
    hide Frozen.CloseInv, Seen, FinishRun, Dispatch.Skips, Shared, Dispatch.DoBeginStopping, Open;
    InRun(s, f);
    if a.BeginStopping? && s.q.disp.Holding? && Open(s.ev, f, s.q.disp.e.frame) {
      HeldEvidence(s, f);
      StopGapless(s, f);
    } else {
      SeenDispatcher(s, a, f);
      SeenGapless(s, Dispatch.Step(s, a), f);
    }
  }

  /** An entry whose frame is evidence says so. */
  lemma HeldEvidence(s: State, f: RunId)
    requires Fifo.QueueInv(s) && s.q.disp.Holding? && Open(s.ev, f, s.q.disp.e.frame)
    ensures s.q.disp.e.evidence
  {
  }

  // --------------------------------------------------------------- whole runs

  predicate IsStop(a: Client.Action) { a.ByDispatcher? && a.dispatcher.BeginStopping? }

  /** The step loses frames of the run: a snapshot that overtakes a live frame of
      it, or a stop that skips one of its frames. */
  ghost predicate Loses(s: State, a: Client.Action, f: RunId) {
    (IsSnapshot(a) && Closing.Overtakes(s, f)) || (IsStop(a) && Dispatch.Skips(s, f))
  }

  ghost predicate NeverLost(states: seq<State>, actions: seq<Client.Action>, i: nat, f: RunId)
    requires i <= |actions| <= |states|
  {
    forall j :: 0 <= j < i ==> !Loses(states[j], actions[j], f)
  }

  lemma StepGapless(s: State, a: Client.Action, f: RunId)
    requires Base(s) && Client.Enabled(s, a) && (Creates(a, f) || (GaplessRun(s, f) && OrderedRun(s, f)))
    requires !Shared(s.slots, f) && !Shared(Client.Step(s, a).slots, f) && !Loses(s, a, f)
    ensures GaplessRun(Client.Step(s, a), f)
  {
    hide GaplessRun, OrderedRun, Shared, Closing.Overtakes, Dispatch.Skips;
    hide Once.OnceInv, PhaseInv, Registration.RegistryInv, Provenance.ProvenanceInv, BindingInv;
    hide Frozen.CloseInv, Fifo.QueueInv;
    hide Reader.Enabled, Reader.Step, Starter.Enabled, Starter.Step, ResolvedOld;
    hide Closing.Enabled, Closing.Step, Dispatch.Enabled, Dispatch.Step;
    match a
    case ByReader(b) => ReaderGapless(s, b, f);
    case ByStarter(q, b) => StarterGapless(s, q, b, f);
    case ByCloser(b) => CloserGapless(s, b, f);
    case ByDispatcher(b) => DispatcherGapless(s, b, f);
  }

  lemma NotInverted(states: seq<State>, actions: seq<Client.Action>, i: nat, f: RunId)
    requires i <= |actions| <= |states| && NeverLost(states, actions, i, f)
    ensures NeverInverted(states, actions, i, f)
  {
    hide Closing.Overtakes;
  }

  lemma {:induction false} AlwaysGapless(states: seq<State>, actions: seq<Client.Action>, i: nat, f: RunId)
    requires Client.IsRun(states, actions) && i < |states| == |actions| + 1 && f in states[i].slots
    requires !Shared(states[i].slots, f) && NeverLost(states, actions, i, f)
    ensures GaplessRun(states[i], f)
  {
    hide Client.IsRun, GaplessRun, OrderedRun, Client.Enabled, Client.Step, Loses, NeverInverted, Shared, Base;
    InitEmpty(states, actions);
    if i == 0 {
    } else {
      var s, a := states[i - 1], actions[i - 1];
      StepAt(states, actions, i - 1);
      AlwaysBase(states, actions, i - 1);
      Unbroken(s, a, f);
      if f in s.slots {
        AlwaysGapless(states, actions, i - 1, f);
        NotInverted(states, actions, i - 1, f);
        AlwaysOrdered(states, actions, i - 1, f);
      } else {
        Appears(s, a, f);
      }
      StepGapless(s, a, f);
    }
  }

  /** The positions of a turn's frames among those ingested from `from` to `to`. */
  function TurnLog(log: seq<Note>, thread: Id, turn: Id, from: nat, to: nat): seq<nat>
    requires to <= |log|
  {
    if to <= from then []
    else TurnLog(log, thread, turn, from, to - 1) + (if BelongsTo(log[to - 1], thread, turn) then [to - 1] else [])
  }

  lemma {:induction false} TurnLogHolds(log: seq<Note>, thread: Id, turn: Id, from: nat, to: nat)
    requires to <= |log|
    ensures Rising(TurnLog(log, thread, turn, from, to))
    ensures forall n :: n in TurnLog(log, thread, turn, from, to) <==> from <= n < to && BelongsTo(log[n], thread, turn)
  {
    if from < to {
      TurnLogHolds(log, thread, turn, from, to - 1);
      RisingSnoc(TurnLog(log, thread, turn, from, to - 1), to - 1);
    }
  }

  lemma {:induction false} TurnLogGrows(log: seq<Note>, thread: Id, turn: Id, from: nat, mid: nat, end: nat)
    requires mid <= end <= |log|
    ensures TurnLog(log, thread, turn, from, mid) <= TurnLog(log, thread, turn, from, end)
    decreases end
  {
    if mid < end { TurnLogGrows(log, thread, turn, from, mid, end - 1); }
  }

  lemma RisingInit(a: seq<nat>)
    requires Rising(a) && a != []
    ensures var m := a[|a| - 1];
            Rising(a[..|a| - 1]) && m in a && forall n :: n in a[..|a| - 1] <==> n in a && n < m
    ensures forall n <- a :: n <= a[|a| - 1]
  {
    var m := a[|a| - 1];
    assert a == a[..|a| - 1] + [m];
  }

  /** Ascending lists with the same elements are equal. */
  lemma {:induction false} RisingUnique(a: seq<nat>, b: seq<nat>)
    requires Rising(a) && Rising(b) && forall n :: n in a <==> n in b
    ensures a == b
    decreases |a|
  {
    assert forall n :: n in a ==> n in b;
    assert |b| > 0 ==> b[0] in b;
    if a == [] {
    } else {
      assert a[0] in b;
      RisingInit(a);
      RisingInit(b);
      hide Rising;
      assert a[|a| - 1] == b[|b| - 1];
      var a', b' := a[..|a| - 1], b[..|b| - 1];
      forall n ensures n in a' <==> n in b' {
        assert (n in a' <==> n in a && n < a[|a| - 1]) && (n in b' <==> n in b && n < b[|b| - 1]);
      }
      RisingUnique(a', b');
      assert a == a[..|a| - 1] + [a[|a| - 1]] && b == b[..|b| - 1] + [b[|b| - 1]];
    }
  }

  /** An ascending selection that leaves out nothing below its last element is a
      prefix. */
  lemma ClosedIsPrefix(log: seq<Note>, thread: Id, turn: Id, from: nat, to: nat, list: seq<nat>)
    requires to <= |log| && Rising(list)
    requires forall n <- list :: from <= n < to && BelongsTo(log[n], thread, turn)
    requires forall n, m :: from <= n < m && m in list && BelongsTo(log[n], thread, turn) ==> n in list
    ensures list <= TurnLog(log, thread, turn, from, to)
  {
    if list == [] {
    } else {
      var last := list[|list| - 1];
      assert last in list;
      forall n | n in list ensures n <= last {
        var i :| 0 <= i < |list| && list[i] == n;
      }
      TurnLogHolds(log, thread, turn, from, last + 1);
      RisingUnique(list, TurnLog(log, thread, turn, from, last + 1));
      TurnLogGrows(log, thread, turn, from, last + 1, to);
    }
  }

  lemma {:induction false} InTurnNos(history: seq<Frame>, i: nat)
    requires i < |history| && IsTurn(history[i])
    ensures history[i].no in TurnNos(history)
    decreases |history|
  {
    if i < |history| - 1 { InTurnNos(history[..|history| - 1], i); }
  }

  lemma TurnNosRelevant(f: RunId, x: Slot, log: seq<Note>, ev: Evidence, n: nat)
    requires OnlyOwn(f, x, log, ev) && Ascending(x.run.history) && n in TurnNos(x.run.history)
    ensures Relevant(log, x, n)
    ensures exists i :: 0 <= i < |x.run.history| && IsTurn(x.run.history[i]) && x.run.history[i].no == n
  {
    hide Ascending, Relevant;
    TurnNosRise(x.run.history);
    var g :| g in x.run.history && IsTurn(g) && g.no == n;
    var i :| 0 <= i < |x.run.history| && x.run.history[i] == g;
    assert Relevant(log, x, x.run.history[i].no);
  }

  lemma RelevantBelow(f: RunId, x: Slot, log: seq<Note>, ev: Evidence, n: nat, m: nat)
    requires Tight(x, log) && OnlyOwn(f, x, log, ev) && Ascending(x.run.history)
    requires Provenance.HistoryOk(log, x.run.history)
    requires m in TurnNos(x.run.history) && n < m && Relevant(log, x, n) && ClassOf(log[n]).Turn?
    ensures n in TurnNos(x.run.history)
  {
    hide OnlyOwn, Ascending, Relevant;
    TurnNosRelevant(f, x, log, ev, m);
    var i :| 0 <= i < |x.run.history| && IsTurn(x.run.history[i]) && x.run.history[i].no == m;
    assert n < x.run.history[i].no;
    var j :| 0 <= j < |x.run.history| && x.run.history[j].no == n;
    assert x.run.history[j] in x.run.history;
    InTurnNos(x.run.history, j);
  }

  /** The frames of the run's turn ingested while it was bound. */
  function TurnOf(s: State, x: Slot): seq<nat>
    requires x.arm.Some? && (Finished(x) ==> x.arm.value.until.value <= |s.log|)
  {
    TurnLog(s.log, x.run.threadId, x.arm.value.turn, x.arm.value.at, if Finished(x) then x.arm.value.until.value
        else |s.log|)
  }

  /** The turn frames the run accepted are the first of its turn, without gaps. */
  ghost predicate Whole(s: State, r: RunId)
    requires r in s.slots
  {
    var x := s.slots[r];
    if x.arm.None? then TurnNos(x.run.history) == []
    else (Finished(x) ==> x.arm.value.until.value <= |s.log|) && TurnNos(x.run.history) <= TurnOf(s, x)
  }

  /** The accepted turn frames of one run, given what holds of it. */
  lemma HistoryIsPrefix(s: State, f: RunId)
    requires GaplessRun(s, f) && Ascending(s.slots[f].run.history)
    requires Provenance.HistoryOk(s.log, s.slots[f].run.history) && s.slots[f].arm.Some?
    requires s.slots[f].arm.value.turn != ""
    ensures Whole(s, f)
  {
    var x := s.slots[f];
    var list := TurnNos(x.run.history);
    var thread, turn, from := x.run.threadId, x.arm.value.turn, x.arm.value.at;
    var end := if Finished(x) then x.arm.value.until.value else |s.log|;
    TurnNosRise(x.run.history);
    hide Tight, AllAccounted, Ascending, TurnNos, Rising, TurnLog;
    assert end <= |s.log|;
    hide OnlyOwn;
    forall n | n in list ensures from <= n < end && BelongsTo(s.log[n], thread, turn) {
      TurnNosRelevant(f, x, s.log, s.ev, n);
    }
    forall n, m | from <= n < m && m in list && BelongsTo(s.log[n], thread, turn) ensures n in list {
      assert Relevant(s.log, x, n) && ClassOf(s.log[n]).Turn?;
      RelevantBelow(f, x, s.log, s.ev, n, m);
    }
    ClosedIsPrefix(s.log, thread, turn, from, end, list);
  }

  /** Order through attachment, in full: the turn frames accepted by a run, whose
      turn id no other run was bound to and which no step made lose frames, are a
      prefix, without gaps, of the frames of its turn ingested since it was bound. */
  lemma TurnFramesWithoutGaps(states: seq<State>, actions: seq<Client.Action>, i: nat, r: RunId)
    requires Client.IsRun(states, actions) && i < |states| && r in states[i].slots
    requires !Shared(states[i].slots, r) && NeverLost(states, actions, i, r)
    ensures Whole(states[i], r)
  {
    hide Client.IsRun, GaplessRun, PhaseInv, Once.OnceInv, Provenance.ProvenanceInv, BindingInv, Shared;
    hide Loses, NeverInverted;
    hide Registration.RegistryInv, Frozen.CloseInv, Fifo.QueueInv, ResolvedOld, Whole;
    hide Ahead, Covered, OwnList, ParkedOrdered, PublisherOrdered, OfferOrdered, Ascending;
    var s := states[i];
    Nonempty(states, actions);
    AlwaysBase(states, actions, i);
    if s.slots[r].arm.None? {
      UnboundAcceptsNoTurnFrame(states, actions, i, r);
      UnboundWhole(s, r);
    } else {
      AlwaysGapless(states, actions, i, r);
      NotInverted(states, actions, i, r);
      AlwaysOrdered(states, actions, i, r);
      PhasedAt(s, r);
      Provenance.SlotAt(s, r);
      HistoryIsPrefix(s, r);
    }
  }

  lemma UnboundWhole(s: State, r: RunId)
    requires r in s.slots && s.slots[r].arm.None? && TurnNos(s.slots[r].run.history) == []
    ensures Whole(s, r)
  {
  }
}
