/** Registry agreement: where each run is registered, which identities are armed,
    and what the failure snapshot empties for good. */
module Registration {
  import opened Wrappers
  import opened Attribution
  import opened Retention
  import opened ExactRun
  import opened ClientState
  import opened Phases
  import Reader
  import Starter
  import Closing
  import Dispatch
  import Client
  import Frozen
  import Provenance

  datatype Standing = Fresh | Waiting | Bindable | Streaming | Leaving

  /** What a starter's phase means for the registries: a waiting run is attaching,
      a bindable run is attaching and may own an armed turn, a streaming run is
      registered under its turn. */
  function StandingOf(c: Caller): Standing {
    match c
    case Created => Fresh
    case RegReplay(_, _, _) => Standing.Waiting
    case Calling => Standing.Waiting
    case Answered => Bindable
    case Window => Bindable
    case FinLocked => Bindable
    case Replay(_, _, _) => Streaming
    case Attached => Streaming
    case _ => Leaving
  }

  predicate IsAttaching(x: Slot) { StandingOf(x.caller).Waiting? || StandingOf(x.caller).Bindable? }

  predicate IsStreaming(x: Slot) { StandingOf(x.caller).Streaming? }

  /** A registered run has not been unregistered, and owes its unregister step once
      it is terminal. */
  predicate Current(r: RunId, x: Slot, unreg: set<RunId>) { !x.gone && (x.run.terminal ==> r in unreg) }

  ghost predicate StreamsOk(streams: map<Id, set<RunId>>, slots: Slots, unreg: set<RunId>) {
    forall t <- streams ::
      && streams[t] != {} && t != ""
      && forall r <- streams[t] ::
           r in slots && IsStreaming(slots[r]) && slots[r].run.turnId == t && Current(r, slots[r], unreg)
  }

  ghost predicate AttachingOk(attaching: map<Id, set<RunId>>, slots: Slots, unreg: set<RunId>) {
    forall t <- attaching ::
      && attaching[t] != {}
      && (forall r <- attaching[t] ::
            r in slots && IsAttaching(slots[r]) && slots[r].run.threadId == t && Current(r, slots[r], unreg))
      && (forall q, r :: q in attaching[t] && r in attaching[t] ==> q == r)
  }

  /** Every run that is not terminal is registered as its phase says. */
  ghost predicate LiveRegistered(slots: Slots, streams: map<Id, set<RunId>>, attaching: map<Id, set<RunId>>) {
    forall r <- slots | !slots[r].run.terminal ::
      && (IsAttaching(slots[r]) ==> r in Under(attaching, slots[r].run.threadId))
      && (IsStreaming(slots[r]) ==> r in Under(streams, slots[r].run.turnId))
  }

  predicate BoundTo(slots: Slots, r: RunId, turn: Id) {
    r in slots && slots[r].arm.Some? && slots[r].arm.value.turn == turn
  }

  ghost predicate ArmedOk(armedTurns: map<Id, RunId>, slots: Slots) {
    forall t <- armedTurns ::
      BoundTo(slots, armedTurns[t], t) && StandingOf(slots[armedTurns[t]].caller).Bindable?
  }

  /** Attachment leases are held for exactly the armed thread and turn ids. */
  ghost predicate KeysOk(reg: Registry) {
    && (forall t :: ThreadKey(t) in reg.attachment <==> t in reg.armedThreads)
    && (forall t :: TurnKey(t) in reg.attachment <==> t in reg.armedTurns)
  }

  /** Parked turn frames are evidence of the run their turn was armed for. */
  ghost predicate ParkedOk(pend: map<Id, seq<Parked>>, owner: map<nat, RunId>, slots: Slots) {
    forall t <- pend, p <- pend[t] ::
      p.no in owner && BoundTo(slots, owner[p.no], t) && p.note.turnId == t
  }

  ghost predicate Emptied(reg: Registry) {
    && reg.armedThreads == {} && reg.armedTurns == map[] && reg.attachment == map[]
    && reg.pend == map[] && reg.threadPend == map[]
  }

  ghost predicate Agreement(slots: Slots, reg: Registry, unreg: set<RunId>, owner: map<nat, RunId>) {
    && StreamsOk(reg.streams, slots, unreg)
    && AttachingOk(reg.attaching, slots, unreg)
    && LiveRegistered(slots, reg.streams, reg.attaching)
    && ArmedOk(reg.armedTurns, slots)
    && KeysOk(reg)
    && ParkedOk(reg.pend, owner, slots)
  }

  ghost predicate RegistryInv(s: State) {
    && Agreement(s.slots, s.reg, s.unreg, s.ev.owner)
    && (s.close.pub.Draining? || s.close.pub.Published? ==> Emptied(s.reg))
  }

  // ------------------------------------------------------------- consequences

  /** A run is never both attaching and streaming, and it is registered under its
      own identity. */
  lemma NeverInBoth(s: State, t: Id, u: Id, r: RunId)
    requires RegistryInv(s) && r in Under(s.reg.streams, t)
    ensures s.slots[r].run.turnId == t && r !in Under(s.reg.attaching, u)
  {
  }

  lemma UnregisteredStaysOut(s: State, r: RunId, t: Id)
    requires RegistryInv(s) && r in s.slots && s.slots[r].gone
    ensures r !in Under(s.reg.streams, t) && r !in Under(s.reg.attaching, t)
  {
  }

  /** Finishing without attachment scans every armed turn and every parked list
      for the run; only its own turn can hold any. */
  lemma FinishScansEverything(s: State, r: RunId, t: Id)
    requires RegistryInv(s) && r in s.slots
    ensures t in s.reg.armedTurns && s.reg.armedTurns[t] == r ==> BoundTo(s.slots, r, t)
    ensures forall p <- ListAt(s.reg.pend, t) :: Starter.OwnedBy(s, p, r) ==> BoundTo(s.slots, r, t)
  {
  }

  // ------------------------------------------------------------ shared steps

  /** A slot moves on within what its registrations allow. */
  predicate Steady(x: Slot, y: Slot) {
    && (StandingOf(y.caller) == StandingOf(x.caller)
        || (StandingOf(x.caller).Waiting? && StandingOf(y.caller).Bindable?))
    && y.run.threadId == x.run.threadId && (y.run.turnId == x.run.turnId || StandingOf(x.caller).Bindable?)
    && (x.run.terminal ==> y.run.terminal) && y.gone == x.gone
    && (x.arm.Some? ==> y.arm.Some? && y.arm.value.turn == x.arm.value.turn)
  }

  /** Every slot moves on steadily; whoever becomes terminal owes its unregister
      step. */
  ghost predicate Continues(a: Slots, u: set<RunId>, b: Slots, v: set<RunId>) {
    && u <= v && a.Keys == b.Keys
    && forall r <- a :: Steady(a[r], b[r]) && (b[r].run.terminal && !a[r].run.terminal ==> r in v)
  }

  lemma StreamsContinue(streams: map<Id, set<RunId>>, a: Slots, u: set<RunId>, b: Slots, v: set<RunId>)
    requires StreamsOk(streams, a, u) && Continues(a, u, b, v)
    ensures StreamsOk(streams, b, v)
  {
  }

  lemma AttachingContinue(attaching: map<Id, set<RunId>>, a: Slots, u: set<RunId>, b: Slots, v: set<RunId>)
    requires AttachingOk(attaching, a, u) && Continues(a, u, b, v)
    ensures AttachingOk(attaching, b, v)
  {
  }

  lemma LiveContinue(reg: Registry, a: Slots, u: set<RunId>, b: Slots, v: set<RunId>)
    requires LiveRegistered(a, reg.streams, reg.attaching) && Continues(a, u, b, v)
    ensures LiveRegistered(b, reg.streams, reg.attaching)
  {
  }

  lemma ArmedContinue(reg: Registry, a: Slots, u: set<RunId>, b: Slots, v: set<RunId>, owner: map<nat, RunId>)
    requires ArmedOk(reg.armedTurns, a) && ParkedOk(reg.pend, owner, a) && Continues(a, u, b, v)
    ensures ArmedOk(reg.armedTurns, b) && ParkedOk(reg.pend, owner, b)
  {
  }

  lemma AgreementContinues(reg: Registry, a: Slots, u: set<RunId>, b: Slots, v: set<RunId>, owner: map<nat, RunId>)
    requires Agreement(a, reg, u, owner) && Continues(a, u, b, v)
    ensures Agreement(b, reg, v, owner)
  {
    hide StreamsOk, AttachingOk, LiveRegistered, ArmedOk, KeysOk, ParkedOk, Continues;
    StreamsContinue(reg.streams, a, u, b, v);
    AttachingContinue(reg.attaching, a, u, b, v);
    LiveContinue(reg, a, u, b, v);
    ArmedContinue(reg, a, u, b, v, owner);
  }

  lemma OneContinues(a: Slots, u: set<RunId>, r: RunId, x: Slot)
    requires r in a && Steady(a[r], x)
    ensures Continues(a, u, a[r := x], if x.run.terminal && !a[r].run.terminal then u + {r} else u)
  {
    hide Steady;
    assert forall y: Slot :: Steady(y, y) by { forall y: Slot ensures Steady(y, y) { SteadySame(y); } }
  }

  lemma SteadySame(x: Slot)
    ensures Steady(x, x)
  {
  }

  lemma SlotMovesOn(s: State, r: RunId, x: Slot)
    requires RegistryInv(s) && r in s.slots && Steady(s.slots[r], x) && x.run.terminal == s.slots[r].run.terminal
    ensures RegistryInv(s.(slots := s.slots[r := x]))
  {
    hide Agreement, Emptied, Steady;
    OneContinues(s.slots, s.unreg, r, x);
    AgreementContinues(s.reg, s.slots, s.unreg, s.slots[r := x], s.unreg, s.ev.owner);
  }

  lemma FinishRegistry(s: State, r: RunId, err: Option<Err>, via: Via)
    requires RegistryInv(s)
    ensures RegistryInv(FinishRun(s, r, err, via))
  {
    hide Agreement, Emptied;
    if r in s.slots && !s.slots[r].run.terminal {
      var x := s.slots[r].(run := Finish(s.slots[r].run, Cause(s), err), via := via);
      OneContinues(s.slots, s.unreg, r, x);
      AgreementContinues(s.reg, s.slots, s.unreg, s.slots[r := x], s.unreg + {r}, s.ev.owner);
    }
  }

  lemma AcceptRegistry(s: State, r: RunId, p: Parked)
    requires RegistryInv(s)
    ensures RegistryInv(AcceptRetained(s, r, p).0)
  {
    hide Agreement, Emptied, Retain;
    if r in s.slots && Admissible(s.slots[r].run, p.note) {
      var run := Accept(s.slots[r].run, Frame(p.no, p.note), p.lease).0;
      SlotMovesOn(s, r, s.slots[r].(run := run));
    }
  }

  lemma ResolveRegistry(s: State, p: Parked, r: RunId)
    requires RegistryInv(s)
    ensures RegistryInv(Resolve(s, p, r))
  {
    hide Agreement, Emptied, AcceptRetained;
    AcceptFrame(s, r, p);
    AcceptRegistry(s, r, p);
  }

  // ------------------------------------------------------------------- reader

  // ------------------------------------------------------------------- reader

  lemma ParkedMore(s: State, note: Note, l: LeaseId)
    requires RegistryInv(s) && Provenance.ProvenanceInv(s) && Parkable(s, note)
    ensures var p := Parked(|s.log|, note, l);
            ParkedOk(s.reg.pend[note.turnId := ListAt(s.reg.pend, note.turnId) + [p]],
                     s.ev.owner[p.no := s.reg.armedTurns[note.turnId]], s.slots)
  {
    hide Provenance.ProvenanceInv, Provenance.SlotsOk, Provenance.ThreadPendOk, Provenance.PublisherOk;
    hide Provenance.EvidenceOk;
    hide StreamsOk, AttachingOk, LiveRegistered, Emptied, KeysOk, MatchesRun;
    Provenance.Known(s);
    assert forall t <- s.reg.pend, p <- s.reg.pend[t] :: Provenance.TurnFrame(s.log, p);
  }

  lemma RouteRegistry(s: State, note: Note, order: seq<RunId>, bytes: nat)
    requires RegistryInv(s) && Frozen.CloseInv(s) && Provenance.ProvenanceInv(s) && Reader.CanRoute(s, note, order)
    ensures RegistryInv(Reader.DoRoute(s, note, order, bytes))
  {
    hide Reserve, StreamsOk, AttachingOk, LiveRegistered, ArmedOk, KeysOk, ParkedOk, Emptied;
    assert !s.close.pub.Draining? && !s.close.pub.Published?;
    hide Reader.CanRoute, Provenance.ProvenanceInv, Parkable;
    var l := Reserve(s.mem.budget, 4, bytes).1;
    if Parkable(s, note) && l.Some? { ParkedMore(s, note, l.value); }
    KeysSame(s.reg, Reader.DoRoute(s, note, order, bytes).reg);
  }

  lemma KeysSame(a: Registry, b: Registry)
    requires a.attachment == b.attachment && a.armedThreads == b.armedThreads && a.armedTurns == b.armedTurns
    ensures KeysOk(a) == KeysOk(b)
  {
  }

  lemma ReaderAcceptRegistry(s: State, bytes: nat)
    requires RegistryInv(s) && Reader.CanReaderAccept(s)
    ensures RegistryInv(Reader.DoReaderAccept(s, bytes))
  {
    hide Reserve, AcceptRetained, Agreement, Emptied, Admissible;
    var rd := s.reader;
    var r := rd.targets[0];
    var l := Reserve(s.mem.budget, 3, bytes).1;
    if r in s.slots && Admissible(s.slots[r].run, rd.note) && l.Some? {
      var s1 := LetGo(s.(reader := rd.(targets := rd.targets[1..])), multiset{l.value});
      var s2 := s1.(mem := s1.mem.(budget := Reserve(s.mem.budget, 3, bytes).0));
      AcceptFrame(s2, r, Parked(rd.frame, rd.note, l.value));
      AcceptRegistry(s2, r, Parked(rd.frame, rd.note, l.value));
    }
  }

  lemma BindSteady(s: State, r: RunId, x: Slot)
    requires PhaseInv(s) && r in s.slots && s.slots[r].caller.Calling?
    requires x == s.slots[r].(caller := Answered, arm := x.arm)
    ensures Steady(s.slots[r], x)
  {
    PhasedAt(s, r);
  }

  lemma BindRegistry(s: State, r: RunId, turn: Id, bytes: nat)
    requires RegistryInv(s) && PhaseInv(s) && Frozen.CloseInv(s) && Reader.CanArmTurn(s, r, turn)
    ensures RegistryInv(Reader.DoArmTurn(s, r, turn, bytes))
  {
    hide Reserve, RegistryInv, Steady, Phased, PhaseInv;
    var x := s.slots[r].(caller := Answered, arm := Some(Arm(turn, |s.log|, None)));
    BindSteady(s, r, x);
    SlotMovesOn(s, r, x);
    if !s.close.closed { BoundRegistry(s, r, turn, x, Reader.DoArmTurn(s, r, turn, bytes)); }
        else { RejectedRegistry(s); }
  }

  lemma RejectedRegistry(s: State)
    requires RegistryInv(s)
    ensures RegistryInv(s.(reader := Failing(ErrClientClosed)))
  {
  }

  lemma BoundRegistry(s: State, r: RunId, turn: Id, x: Slot, s': State)
    requires RegistryInv(s) && r in s.slots && RegistryInv(s.(slots := s.slots[r := x])) && !s.close.pub.Draining?
    requires !s.close.pub.Published?
    requires s'.close.pub == s.close.pub && s'.unreg == s.unreg && s'.ev.owner == s.ev.owner
    requires x.caller.Answered? && x.arm.Some? && x.arm.value.turn == turn
    requires || (s'.slots == s.slots && s'.reg == s.reg)
             || (s'.slots == s.slots[r := x] && TurnKey(turn) in s'.reg.attachment
                 && s'.reg == s.reg.(armedTurns := s.reg.armedTurns[turn := r], attachment := s'.reg.attachment)
                 && s'.reg.attachment.Keys == s.reg.attachment.Keys + {TurnKey(turn)})
    ensures RegistryInv(s')
  {
    hide StreamsOk, AttachingOk, LiveRegistered, ParkedOk, Emptied;
  }

  lemma KeysArmThread(reg: Registry, thread: Id, attachment: map<Key, LeaseId>)
    requires KeysOk(reg) && attachment.Keys == reg.attachment.Keys + {ThreadKey(thread)}
    ensures KeysOk(reg.(armedThreads := reg.armedThreads + {thread}, attachment := attachment))
  {
  }

  lemma ArmThreadRegistry(s: State, thread: Id, bytes: nat)
    requires RegistryInv(s) && Frozen.CloseInv(s) && Reader.CanArmThread(s, thread)
    ensures RegistryInv(Reader.DoArmThread(s, thread, bytes))
  {
    hide Reserve, StreamsOk, AttachingOk, LiveRegistered, ArmedOk, ParkedOk, Emptied, KeysOk;
    if !s.close.closed {
      var l := Reserve(s.mem.budget, 1, bytes).1;
      if ThreadKey(thread) in s.reg.attachment {
        KeysArmThread(s.reg, thread, s.reg.attachment);
      } else if l.Some? {
        KeysArmThread(s.reg, thread, s.reg.attachment[ThreadKey(thread) := l.value]);
      }
    }
  }

  lemma ReaderRegistry(s: State, a: Reader.Action)
    requires RegistryInv(s) && PhaseInv(s) && Frozen.CloseInv(s) && Provenance.ProvenanceInv(s) && Reader.Enabled(s, a)
    ensures RegistryInv(Reader.Step(s, a))
  {
    hide Agreement, PhaseInv, Provenance.ProvenanceInv, Reserve, FinishRun;
    hide Reader.DoRoute, Reader.DoReaderAccept, Reader.DoArmThread, Reader.DoArmTurn, Reader.CanRoute;
    hide Reader.CanReaderAccept;
    match a
    case ArmThread(thread, bytes) => ArmThreadRegistry(s, thread, bytes);
    case ArmTurn(r, turn, bytes) => BindRegistry(s, r, turn, bytes);
    case Route(note, order, bytes) => RouteRegistry(s, note, order, bytes);
    case Accept(bytes) => ReaderAcceptRegistry(s, bytes);
    case Complete =>
      if s.reader.inline != [] { FinishRegistry(s, s.reader.inline[0].run, s.reader.inline[0].err, ByReader); }
    case _ =>
  }

  // ----------------------------------------------------------------- starters

  /** A run that is not streaming changes: no stream notices. */
  lemma StreamsElsewhere(streams: map<Id, set<RunId>>, slots: Slots, unreg: set<RunId>, r: RunId, x: Slot)
    requires StreamsOk(streams, slots, unreg) && (r in slots ==> !IsStreaming(slots[r]))
    ensures StreamsOk(streams, slots[r := x], unreg)
  {
  }

  lemma AttachingElsewhere(attaching: map<Id, set<RunId>>, slots: Slots, unreg: set<RunId>, r: RunId, x: Slot)
    requires AttachingOk(attaching, slots, unreg) && (r in slots ==> !IsAttaching(slots[r]))
    ensures AttachingOk(attaching, slots[r := x], unreg)
  {
  }

  /** A run leaves the attaching registry, whatever becomes of it. */
  lemma LeavesAttaching(attaching: map<Id, set<RunId>>, slots: Slots, unreg: set<RunId>, r: RunId, x: Slot)
    requires AttachingOk(attaching, slots, unreg) && r in slots
    ensures AttachingOk(Without(attaching, slots[r].run.threadId, r), slots[r := x], unreg)
  {
  }

  lemma LeavesStreams(streams: map<Id, set<RunId>>, slots: Slots, unreg: set<RunId>, r: RunId, x: Slot)
    requires StreamsOk(streams, slots, unreg) && r in slots
    ensures StreamsOk(Without(streams, slots[r].run.turnId, r), slots[r := x], unreg)
  {
  }

  lemma JoinsStreams(streams: map<Id, set<RunId>>, slots: Slots, unreg: set<RunId>, r: RunId)
    requires StreamsOk(streams, slots, unreg) && r in slots
    requires IsStreaming(slots[r]) && slots[r].run.turnId != "" && Current(r, slots[r], unreg)
    ensures StreamsOk(With(streams, slots[r].run.turnId, r), slots, unreg)
  {
  }

  lemma JoinsAttaching(attaching: map<Id, set<RunId>>, slots: Slots, unreg: set<RunId>, r: RunId)
    requires AttachingOk(attaching, slots, unreg) && r in slots && Under(attaching, slots[r].run.threadId) == {}
    requires IsAttaching(slots[r]) && Current(r, slots[r], unreg)
    ensures AttachingOk(attaching[slots[r].run.threadId := {r}], slots, unreg)
  {
  }

  /** The other runs stay registered when one run changes its registrations. */
  lemma LiveElsewhere(
    slots: Slots, a: Registry, b: Registry, r: RunId, x: Slot)
    requires LiveRegistered(slots, a.streams, a.attaching)
    requires forall t, q :: q != r && q in Under(a.streams, t) ==> q in Under(b.streams, t)
    requires forall t, q :: q != r && q in Under(a.attaching, t) ==> q in Under(b.attaching, t)
    requires x.run.terminal || ((IsAttaching(x) ==> r in Under(b.attaching, x.run.threadId))
                                && (IsStreaming(x) ==> r in Under(b.streams, x.run.turnId)))
    ensures LiveRegistered(slots[r := x], b.streams, b.attaching)
  {
  }

  lemma OthersUnder(m: map<Id, set<RunId>>, k: Id, r: RunId)
    ensures forall t, q :: q != r && q in Under(m, t) ==>
              q in Under(Without(m, k, r), t) && q in Under(With(m, k, r), t)
  {
  }

  lemma KeysDisarmTurn(reg: Registry, turn: Id)
    requires KeysOk(reg)
    ensures KeysOk(reg.(armedTurns := reg.armedTurns - {turn}, attachment := reg.attachment - {TurnKey(turn)}))
  {
  }

  lemma KeysDisarmThread(reg: Registry, thread: Id)
    requires KeysOk(reg)
    ensures KeysOk(reg.(armedThreads := reg.armedThreads - {thread},
              attachment := reg.attachment - {ThreadKey(thread)}))
  {
  }

  lemma CreateRegistry(s: State, r: RunId, thread: Id)
    requires RegistryInv(s) && Starter.CanCreateRun(s, r, thread)
    ensures RegistryInv(Starter.DoCreateRun(s, r, thread))
  {
    hide KeysOk, Emptied, StreamsOk, AttachingOk, LiveRegistered;
    var x := Starter.DoCreateRun(s, r, thread).slots[r];
    StreamsElsewhere(s.reg.streams, s.slots, s.unreg, r, x);
    AttachingElsewhere(s.reg.attaching, s.slots, s.unreg, r, x);
    LiveElsewhere(s.slots, s.reg, s.reg, r, x);
  }

  /** Armed turns and parked evidence when a slot keeps its binding. */
  lemma BindingsKept(reg: Registry, owner: map<nat, RunId>, slots: Slots, r: RunId, x: Slot)
    requires ArmedOk(reg.armedTurns, slots) && ParkedOk(reg.pend, owner, slots) && r in slots
    requires slots[r].arm.Some? ==> x.arm.Some? && x.arm.value.turn == slots[r].arm.value.turn
    ensures ParkedOk(reg.pend, owner, slots[r := x])
    ensures !StandingOf(slots[r].caller).Bindable? || StandingOf(x.caller).Bindable? ==>
              ArmedOk(reg.armedTurns, slots[r := x])
    ensures slots[r].arm.Some? ==> ArmedOk(reg.armedTurns - {slots[r].arm.value.turn}, slots[r := x])
  {
  }

  lemma RegisteredPieces(s: State, r: RunId, x: Slot)
    requires RegistryInv(s) && PhaseInv(s) && r in s.slots && s.slots[r].caller.Created?
    requires x == s.slots[r].(caller := x.caller) && x.caller.RegReplay? && Under(s.reg.attaching, x.run.threadId) == {}
    ensures var slots := s.slots[r := x];
            var attaching := s.reg.attaching[x.run.threadId := {r}];
            StreamsOk(s.reg.streams, slots, s.unreg) && AttachingOk(attaching, slots, s.unreg)
            && LiveRegistered(slots, s.reg.streams, attaching)
            && ArmedOk(s.reg.armedTurns, slots) && ParkedOk(s.reg.pend, s.ev.owner, slots)
  {
    hide KeysOk, Emptied, StreamsOk, AttachingOk, LiveRegistered, ArmedOk, ParkedOk, PhaseInv, Phased;
    PhasedAt(s, r);
    assert !s.slots[r].gone && !s.slots[r].run.terminal && s.slots[r].arm.None?;
    var attaching := s.reg.attaching[x.run.threadId := {r}];
    StreamsElsewhere(s.reg.streams, s.slots, s.unreg, r, x);
    AttachingElsewhere(s.reg.attaching, s.slots, s.unreg, r, x);
    JoinsAttaching(s.reg.attaching, s.slots[r := x], s.unreg, r);
    LiveElsewhere(s.slots, s.reg, s.reg.(attaching := attaching), r, x);
    BindingsKept(s.reg, s.ev.owner, s.slots, r, x);
  }

  /** What registration does when the thread is free. */
  lemma RegisterShape(s: State, r: RunId)
    requires Starter.CanRegister(s, r) && !s.close.closed && Under(s.reg.attaching, s.slots[r].run.threadId) == {}
    ensures var s' := Starter.DoRegister(s, r);
            var thread := s.slots[r].run.threadId;
            && r in s'.slots && s'.slots == s.slots[r := s'.slots[r]] && s'.unreg == s.unreg && s'.ev == s.ev
            && s'.close == s.close && s'.slots[r] == s.slots[r].(caller := s'.slots[r].caller)
            && s'.slots[r].caller.RegReplay?
            && s'.reg == Registry(s.reg.streams, s.reg.attaching[thread := {r}], s.reg.armedThreads - {thread},
                                  s.reg.armedTurns, s.reg.attachment - {ThreadKey(thread)},
                                  s.reg.pend, s.reg.threadPend - {thread})
  {
    var key := ThreadKey(s.slots[r].run.threadId);
    assert key !in s.reg.attachment ==> s.reg.attachment - {key} == s.reg.attachment;
  }

  lemma RegisterRegistry(s: State, r: RunId)
    requires RegistryInv(s) && PhaseInv(s) && Starter.CanRegister(s, r)
    ensures RegistryInv(Starter.DoRegister(s, r))
  {
    var thread := s.slots[r].run.threadId;
    if s.close.closed || Under(s.reg.attaching, thread) != {} {
      hide RegistryInv, PhaseInv;
      RefusedRegistry(s, r, ErrClientClosed);
      RefusedRegistry(s, r, ErrConcurrentTurnStart);
    } else {
      hide KeysOk, Emptied, StreamsOk, AttachingOk, LiveRegistered, ArmedOk, ParkedOk, PhaseInv, Starter.DoRegister;
      var s' := Starter.DoRegister(s, r);
      RegisterShape(s, r);
      RegisteredPieces(s, r, s'.slots[r]);
      KeysDisarmThread(s.reg, thread);
      KeysSame(s.reg.(armedThreads := s.reg.armedThreads - {thread},
          attachment := s.reg.attachment - {ThreadKey(thread)}), s'.reg);
      EmptiedLess(s, s');
    }
  }

  lemma RefusedRegistry(s: State, r: RunId, err: Err)
    requires RegistryInv(s) && r in s.slots && s.slots[r].caller.Created?
    ensures RegistryInv(SetCaller(s, r, Refused(err)))
  {
    hide KeysOk, Emptied, StreamsOk, AttachingOk, LiveRegistered, ArmedOk, ParkedOk;
    var x := s.slots[r].(caller := Refused(err));
    StreamsElsewhere(s.reg.streams, s.slots, s.unreg, r, x);
    AttachingElsewhere(s.reg.attaching, s.slots, s.unreg, r, x);
    LiveElsewhere(s.slots, s.reg, s.reg, r, x);
    BindingsKept(s.reg, s.ev.owner, s.slots, r, x);
  }

  /** What attachment does to the registries, piece by piece. */
  lemma AttachedPieces(s: State, r: RunId, x: Slot, streams: map<Id, set<RunId>>)
    requires RegistryInv(s) && PhaseInv(s) && r in s.slots && s.slots[r].caller.Window?
    requires x.run == s.slots[r].run && IsStreaming(x) && x.gone == s.slots[r].gone && x.arm == s.slots[r].arm
    requires streams == if x.run.terminal then s.reg.streams else With(s.reg.streams, x.run.turnId, r)
    ensures var slots := s.slots[r := x];
            var attaching := Without(s.reg.attaching, x.run.threadId, r);
            StreamsOk(streams, slots, s.unreg) && AttachingOk(attaching, slots, s.unreg)
            && LiveRegistered(slots, streams, attaching)
            && ArmedOk(s.reg.armedTurns - {x.run.turnId}, slots) && ParkedOk(s.reg.pend, s.ev.owner, slots)
  {
    PhasedAt(s, r);
    assert x.gone ==> x.run.terminal;
    assert x.arm.Some? && x.run.turnId == x.arm.value.turn && x.run.turnId != "";
    hide KeysOk, Emptied, StreamsOk, AttachingOk, LiveRegistered, ArmedOk, ParkedOk, PhaseInv, Phased;
    hide Without, With, Under;
    var attaching := Without(s.reg.attaching, x.run.threadId, r);
    LeavesAttaching(s.reg.attaching, s.slots, s.unreg, r, x);
    StreamsElsewhere(s.reg.streams, s.slots, s.unreg, r, x);
    if !x.run.terminal { JoinsStreams(s.reg.streams, s.slots[r := x], s.unreg, r); }
    OthersUnder(s.reg.attaching, x.run.threadId, r);
    OthersUnder(s.reg.streams, x.run.turnId, r);
    Joined(s.reg.streams, x.run.turnId, r);
    LiveElsewhere(s.slots, s.reg, s.reg.(streams := streams, attaching := attaching), r, x);
    BindingsKept(s.reg, s.ev.owner, s.slots, r, x);
  }

  /** What attachment does to the state. */
  lemma PublishShape(s: State, r: RunId)
    requires Starter.CanAttachPublish(s, r)
    ensures var s' := Starter.DoAttachPublish(s, r);
            var run := s.slots[r].run;
            && r in s'.slots && s'.slots == s.slots[r := s'.slots[r]] && s'.unreg == s.unreg && s'.ev == s.ev
            && s'.close == s.close && s'.slots[r].run == run && s'.slots[r].gone == s.slots[r].gone
            && s'.slots[r].arm == s.slots[r].arm && IsStreaming(s'.slots[r])
            && s'.reg == Registry(if run.terminal then s.reg.streams else With(s.reg.streams, run.turnId, r),
                                  Without(s.reg.attaching, run.threadId, r), s.reg.armedThreads,
                                  s.reg.armedTurns - {run.turnId}, s.reg.attachment - {TurnKey(run.turnId)},
                                  if run.terminal then s.reg.pend else s.reg.pend - {run.turnId}, s.reg.threadPend)
  {
    hide With, Without;
    assert TurnKey(s.slots[r].run.turnId) !in s.reg.attachment ==>
      s.reg.attachment - {TurnKey(s.slots[r].run.turnId)} == s.reg.attachment;
  }

  lemma AttachPublishRegistry(s: State, r: RunId)
    requires RegistryInv(s) && PhaseInv(s) && Starter.CanAttachPublish(s, r)
    ensures RegistryInv(Starter.DoAttachPublish(s, r))
  {
    hide Starter.DoAttachPublish, PhaseInv;
    hide KeysOk, Emptied, StreamsOk, AttachingOk, LiveRegistered, ArmedOk, ParkedOk, Without, With, Under, IsStreaming;
    var s' := Starter.DoAttachPublish(s, r);
    PublishShape(s, r);
    AttachedPieces(s, r, s'.slots[r], s'.reg.streams);
    ParkedLess(s.reg.pend, s'.reg.pend, s.ev.owner, s'.slots);
    DisarmedTurn(s, s', s.slots[r].run.turnId);
  }

  /** Disarming a turn keeps the attachment keys in agreement. */
  lemma DisarmedTurn(s: State, s': State, turn: Id)
    requires KeysOk(s.reg) && (s.close.pub.Draining? || s.close.pub.Published? ==> Emptied(s.reg))
    requires s'.reg.armedTurns == s.reg.armedTurns - {turn} && s'.reg.attachment == s.reg.attachment - {TurnKey(turn)}
    requires s'.reg.armedThreads == s.reg.armedThreads && s'.reg.threadPend == s.reg.threadPend
    requires s'.reg.pend.Keys <= s.reg.pend.Keys && s'.close.pub == s.close.pub
    ensures KeysOk(s'.reg) && (s'.close.pub.Draining? || s'.close.pub.Published? ==> Emptied(s'.reg))
  {
    hide KeysOk;
    KeysDisarmTurn(s.reg, turn);
    KeysSame(s.reg.(armedTurns := s.reg.armedTurns - {turn}, attachment := s.reg.attachment - {TurnKey(turn)}), s'.reg);
    EmptiedLess(s, s');
  }

  lemma Joined(m: map<Id, set<RunId>>, k: Id, r: RunId)
    ensures r in Under(With(m, k, r), k)
  {
  }

  lemma ParkedLess(a: map<Id, seq<Parked>>, b: map<Id, seq<Parked>>, owner: map<nat, RunId>, slots: Slots)
    requires ParkedOk(a, owner, slots)
    requires forall t <- b :: t in a && forall p <- b[t] :: p in a[t]
    ensures ParkedOk(b, owner, slots)
  {
  }

  /** What the failure snapshot emptied stays empty. */
  lemma EmptiedLess(s: State, s': State)
    requires s.close.pub.Draining? || s.close.pub.Published? ==> Emptied(s.reg)
    requires s'.close.pub == s.close.pub
    requires s'.reg.armedThreads <= s.reg.armedThreads && s'.reg.armedTurns.Keys <= s.reg.armedTurns.Keys
    requires s'.reg.attachment.Keys <= s.reg.attachment.Keys
    requires s'.reg.pend.Keys <= s.reg.pend.Keys && s'.reg.threadPend.Keys <= s.reg.threadPend.Keys
    ensures s'.close.pub.Draining? || s'.close.pub.Published? ==> Emptied(s'.reg)
  {
  }

  lemma CollectedPieces(s: State, r: RunId, x: Slot)
    requires RegistryInv(s) && r in s.slots && StandingOf(s.slots[r].caller).Bindable?
    requires x.run == s.slots[r].run && StandingOf(x.caller).Leaving?
    requires s.slots[r].arm.Some? ==> x.arm.Some? && x.arm.value.turn == s.slots[r].arm.value.turn
    ensures var slots := s.slots[r := x];
            var attaching := Without(s.reg.attaching, x.run.threadId, r);
            StreamsOk(s.reg.streams, slots, s.unreg) && AttachingOk(attaching, slots, s.unreg)
            && LiveRegistered(slots, s.reg.streams, attaching) && ParkedOk(s.reg.pend, s.ev.owner, slots)
  {
    hide KeysOk, Emptied, StreamsOk, AttachingOk, LiveRegistered, ArmedOk, ParkedOk, PhaseInv, Without, Under;
    var attaching := Without(s.reg.attaching, x.run.threadId, r);
    LeavesAttaching(s.reg.attaching, s.slots, s.unreg, r, x);
    StreamsElsewhere(s.reg.streams, s.slots, s.unreg, r, x);
    OthersUnder(s.reg.attaching, x.run.threadId, r);
    LiveElsewhere(s.slots, s.reg, s.reg.(attaching := attaching), r, x);
    BindingsKept(s.reg, s.ev.owner, s.slots, r, x);
  }

  /** No armed turn is left that belongs to a run finishing without attachment. */
  lemma CollectedArmed(s: State, r: RunId, x: Slot, armed: map<Id, RunId>)
    requires ArmedOk(s.reg.armedTurns, s.slots) && r in s.slots && x.arm.Some? == s.slots[r].arm.Some?
    requires x.arm.Some? ==> x.arm.value.turn == s.slots[r].arm.value.turn
    requires armed == if x.arm.Some? && x.arm.value.turn in s.reg.armedTurns && s.reg.armedTurns[x.arm.value.turn] == r
                      then s.reg.armedTurns - {x.arm.value.turn} else s.reg.armedTurns
    ensures ArmedOk(armed, s.slots[r := x])
  {
  }

  lemma {:induction false} KeptIn(s: State, list: seq<Parked>, r: RunId)
    ensures forall p <- Starter.Kept(s, list, r) :: p in list
    ensures forall p <- Starter.Mine(s, list, r) :: p in list && Starter.OwnedBy(s, p, r)
    decreases |list|
  {
    if list == [] {
    } else {
      KeptIn(s, list[..|list| - 1], r);
    }
  }

  lemma FinishCollectRegistry(s: State, r: RunId)
    requires RegistryInv(s) && Starter.CanFinishCollect(s, r)
    ensures RegistryInv(Starter.DoFinishCollect(s, r))
  {
    hide KeysOk, Emptied, StreamsOk, AttachingOk, LiveRegistered, ArmedOk, ParkedOk, Without, Under;
    var s' := Starter.DoFinishCollect(s, r);
    var x := s'.slots[r];
    CollectedPieces(s, r, x);
    CollectedArmed(s, r, x, s'.reg.armedTurns);
    if x.arm.Some? {
      var turn := x.arm.value.turn;
      KeptIn(s, ListAt(s.reg.pend, turn), r);
      ParkedLess(s.reg.pend, s'.reg.pend, s.ev.owner, s'.slots);
      if turn in s.reg.armedTurns && s.reg.armedTurns[turn] == r {
        DisarmedTurn(s, s', turn);
      } else {
        KeysSame(s.reg, s'.reg);
        EmptiedLess(s, s');
      }
    } else {
      KeysSame(s.reg, s'.reg);
      EmptiedLess(s, s');
    }
  }

  lemma UnregisterRegistry(s: State, r: RunId)
    requires RegistryInv(s) && PhaseInv(s) && Starter.CanUnregister(s, r)
    ensures RegistryInv(Starter.DoUnregister(s, r))
  {
    hide KeysOk, Emptied, StreamsOk, AttachingOk, LiveRegistered, ArmedOk, ParkedOk, PhaseInv, Without, Under;
    Phases.Known(s);
    assert s.slots[r].run.terminal;
    var s' := Starter.DoUnregister(s, r);
    var x := s'.slots[r];
    LeavesAttaching(s.reg.attaching, s.slots, s.unreg, r, x);
    LeavesStreams(s.reg.streams, s.slots, s.unreg, r, x);
    OthersUnder(s.reg.attaching, x.run.threadId, r);
    OthersUnder(s.reg.streams, x.run.turnId, r);
    LiveElsewhere(s.slots, s.reg, s'.reg, r, x);
    BindingsKept(s.reg, s.ev.owner, s.slots, r, x);
    KeysSame(s.reg, s'.reg);
    EmptiedLess(s, s');
    Forgotten(s'.slots, s'.reg, s.unreg, r, s.ev.owner);
  }

  /** Nobody registered any more owes the unregister step of `r`. */
  lemma Forgotten(slots: Slots, reg: Registry, unreg: set<RunId>, r: RunId, owner: map<nat, RunId>)
    requires Agreement(slots, reg, unreg, owner) && r in slots && slots[r].gone
    ensures Agreement(slots, reg, unreg - {r}, owner)
  {
    hide KeysOk, LiveRegistered, ArmedOk, ParkedOk;
  }

  lemma StepsAside(s: State, r: RunId, c: Caller, no: nat, via: Via)
    requires RegistryInv(s) && r in s.slots && Steady(s.slots[r], s.slots[r].(caller := c))
    ensures RegistryInv(SetCaller(s, r, c))
    ensures no in s.ev.completion ==>
              RegistryInv(FinishRun(SetCaller(s, r, c), s.ev.completion[no].run, s.ev.completion[no].err, via))
  {
    hide Agreement, Steady, FinishRun;
    SlotMovesOn(s, r, s.slots[r].(caller := c));
    if no in s.ev.completion {
      FinishRegistry(SetCaller(s, r, c), s.ev.completion[no].run, s.ev.completion[no].err, via);
    }
  }

  lemma ResolvesThenMoves(s: State, p: Parked, r: RunId, c: Caller)
    requires RegistryInv(s) && r in s.slots && Steady(s.slots[r], s.slots[r].(caller := c))
    ensures r in Resolve(s, p, r).slots && RegistryInv(SetCaller(Resolve(s, p, r), r, c))
  {
    hide Agreement, Resolve;
    ResolveFrame(s, p, r);
    ResolveRegistry(s, p, r);
    var s1 := Resolve(s, p, r);
    ResolveSlot(s, p, r);
    ResolveSteady(s, p, r);
    SlotMovesOn(s1, r, s1.slots[r].(caller := c));
  }

  lemma ResolveSteady(s: State, p: Parked, r: RunId)
    requires r in s.slots
    ensures r in Resolve(s, p, r).slots
    ensures var a := s.slots[r].run; var b := Resolve(s, p, r).slots[r].run;
            b.threadId == a.threadId && b.turnId == a.turnId && b.terminal == a.terminal
  {
    hide Retain;
  }

  lemma RegisterAcceptRegistry(s: State, r: RunId)
    requires RegistryInv(s) && Starter.CanRegisterAccept(s, r)
    ensures RegistryInv(Starter.DoRegisterAccept(s, r))
  {
    hide Agreement, AcceptRetained;
    var c := s.slots[r].caller;
    var (s1, done) := AcceptRetained(s, r, c.list[c.regNext]);
    AcceptFrame(s, r, c.list[c.regNext]);
    AcceptSlot(s, r, c.list[c.regNext]);
    AcceptRegistry(s, r, c.list[c.regNext]);
    SlotMovesOn(s1, r, s1.slots[r].(caller := c.(regNext := c.regNext + 1, todo := done)));
  }

  /** The steps in which a starter only moves on, or lets go of leases. */
  lemma StarterMovesOn(s: State, r: RunId, a: Starter.Action)
    requires RegistryInv(s) && Starter.Enabled(s, r, a)
    requires a.RegisterDone? || a.AttachLock? || a.AttachDone? || a.FinishLock? || a.FinishUnlock? || a.Collect?
    ensures RegistryInv(Starter.Step(s, r, a))
  {
    hide RegistryInv, ListLeases;
    var x := Starter.Step(s, r, a).slots[r];
    match a
    case RegisterDone =>
      SlotMovesOn(s, r, x);
      Released(SetCaller(s, r, Calling), ListLeases(s.slots[r].caller.list));
    case AttachDone =>
      SlotMovesOn(s, r, x);
      Released(s.(slots := s.slots[r := x]), ListLeases(s.slots[r].caller.list));
    case AttachLock => SlotMovesOn(s, r, x);
    case FinishLock => SlotMovesOn(s, r, x);
    case FinishUnlock => SlotMovesOn(s, r, x);
    case Collect =>
      SlotMovesOn(s, r, x);
      Released(s.(slots := s.slots[r := x]), multiset(s.slots[r].run.owners));
    case _ =>
  }

  lemma FinishEndRegistry(s: State, r: RunId, err: Err)
    requires RegistryInv(s) && Starter.CanFinishEnd(s, r)
    ensures RegistryInv(Starter.DoFinishEnd(s, r, err))
  {
    hide RegistryInv, ListLeases, FinishRun;
    SlotMovesOn(s, r, s.slots[r].(caller := Over));
    Released(SetCaller(s, r, Over), ListLeases(s.slots[r].caller.list));
    FinishRegistry(LetGo(SetCaller(s, r, Over), ListLeases(s.slots[r].caller.list)), r, Some(err), ByError);
  }

  lemma StarterRegistry(s: State, r: RunId, a: Starter.Action)
    requires RegistryInv(s) && PhaseInv(s) && Starter.Enabled(s, r, a)
    ensures RegistryInv(Starter.Step(s, r, a))
  {
    hide RegistryInv, PhaseInv, FinishRun, Resolve, Steady;
    hide Starter.DoRegister, Starter.DoRegisterAccept, Starter.DoAttachPublish, Starter.DoFinishCollect;
    hide Starter.DoUnregister;
    hide Starter.CanRegisterAccept, Starter.DoFinishEnd;
    match a
    case CreateRun(thread) => CreateRegistry(s, r, thread);
    case Register => RegisterRegistry(s, r);
    case FinishRefused =>
      StillWaiting(s.slots[r], Over);
      SlotMovesOn(s, r, s.slots[r].(caller := Over));
      FinishRegistry(SetCaller(s, r, Over), r, Some(s.slots[r].caller.refusal), ByError);
    case RegisterAccept => RegisterAcceptRegistry(s, r);
    case RegisterComplete =>
      var c := s.slots[r].caller;
      StillWaiting(s.slots[r], c.(todo := None));
      SlotMovesOn(s, r, s.slots[r].(caller := c.(todo := None)));
      FinishRegistry(SetCaller(s, r, c.(todo := None)), c.todo.value.run, c.todo.value.err, ByRegister);
    case AttachPublish => AttachPublishRegistry(s, r);
    case AttachResolve =>
      var c := s.slots[r].caller;
      StillWaiting(s.slots[r], c.(resolved := true));
      ResolvesThenMoves(s, c.list[c.next], r, c.(resolved := true));
    case AttachNext =>
      var c := s.slots[r].caller;
      StillWaiting(s.slots[r], c.(next := c.next + 1, resolved := false));
      StepsAside(s, r, c.(next := c.next + 1, resolved := false), c.list[c.next].no, ByReplay);
    case FinishCollect => FinishCollectRegistry(s, r);
    case FinishResolve =>
      var c := s.slots[r].caller;
      StillWaiting(s.slots[r], c.(finNext := c.finNext + 1));
      ResolvesThenMoves(s, c.list[c.finNext], r, c.(finNext := c.finNext + 1));
    case FinishComplete =>
      var c := s.slots[r].caller;
      StillWaiting(s.slots[r], c.(doneNext := c.doneNext + 1));
      StepsAside(s, r, c.(doneNext := c.doneNext + 1), c.list[c.doneNext].no, ByFinish(c.list[c.doneNext].no));
    case FinishEnd(err) => FinishEndRegistry(s, r, err);
    case ExternalFinish(err) => FinishRegistry(s, r, Some(err), ByError);
    case Unregister => UnregisterRegistry(s, r);
    case _ => StarterMovesOn(s, r, a);
  }

  /** Moving within a phase changes no standing. */
  lemma StillWaiting(x: Slot, c: Caller)
    requires StandingOf(c) == StandingOf(x.caller)
    ensures Steady(x, x.(caller := c))
  {
  }

  lemma Released(s: State, ls: multiset<LeaseId>)
    requires RegistryInv(s)
    ensures RegistryInv(LetGo(s, ls))
  {
  }

  // ------------------------------------------------- closing and the dispatcher

  lemma MarkedSteady(slots: Slots, u: set<RunId>)
    ensures Continues(slots, u, Closing.MarkAll(slots), u)
  {
    assert Closing.MarkAll(slots).Keys == slots.Keys;
  }

  lemma SnapshotRegistry(s: State, turns: seq<Id>, runs: seq<RunId>, finishing: seq<RunId>)
    requires RegistryInv(s) && Closing.CanSnapshot(s, turns, runs, finishing)
    ensures RegistryInv(Closing.DoSnapshot(s, turns, runs, finishing))
  {
    hide StreamsOk, AttachingOk, LiveRegistered, Continues, Closing.MarkAll, Concat, ConcatReplays, RetainAll, Leases;
    hide Closing.Overtakes, Closing.CanSnapshot;
    MarkedSteady(s.slots, s.unreg);
    AgreementContinues(s.reg, s.slots, s.unreg, Closing.MarkAll(s.slots), s.unreg, s.ev.owner);
  }

  lemma PublishRegistry(s: State, p: Parked, pub: Publisher)
    requires RegistryInv(s) && s.close.pub.Draining? && pub.Draining?
    ensures RegistryInv(SetPublisher(if p.no in s.ev.owner then Resolve(s, p, s.ev.owner[p.no]) else s, pub))
  {
    hide Resolve, Agreement;
    if p.no in s.ev.owner { ResolveRegistry(s, p, s.ev.owner[p.no]); ResolveFrame(s, p, s.ev.owner[p.no]); }
  }

  lemma PublishFinishRegistry(s: State)
    requires RegistryInv(s) && Closing.CanPublishFinish(s)
    ensures RegistryInv(Closing.DoPublishFinish(s))
  {
    hide Agreement, Emptied;
    FinishRegistry(s, s.close.pub.finishing[0], Cause(s), ByError);
  }

  lemma CloserRegistry(s: State, a: Closing.Action)
    requires RegistryInv(s) && Closing.Enabled(s, a) && Frozen.CloseInv(s)
    ensures RegistryInv(Closing.Step(s, a))
  {
    hide FinishRun, Resolve, Agreement, Emptied, Release;
    hide Closing.CanSnapshot, Closing.DoSnapshot, Closing.DoPublishFinish;
    match a
    case Snapshot(turns, runs, finishing) => SnapshotRegistry(s, turns, runs, finishing);
    case PublishPending => PublishRegistry(s, s.close.pub.pending[0],
        s.close.pub.(pending := s.close.pub.pending[1..]));
    case PublishReplay => PublishRegistry(s, s.close.pub.replay[0], s.close.pub.(replay := s.close.pub.replay[1..]));
    case PublishFinish => PublishFinishRegistry(s);
    case _ =>
  }

  lemma DispatcherRegistry(s: State, a: Dispatch.Action)
    requires RegistryInv(s) && Dispatch.Enabled(s, a) && Frozen.CloseInv(s)
    ensures RegistryInv(Dispatch.Step(s, a))
  {
    hide FinishRun, Agreement, Emptied;
    match a
    case Complete =>
      var c := s.q.disp.completions[0];
      FinishRegistry(s, c.run, c.err, ByDispatch(s.q.disp.e.frame));
    case _ =>
  }

  // --------------------------------------------------------------- whole runs

  /** The registries agree in every reachable state. */
  lemma {:induction false} AlwaysAgrees(states: seq<State>, actions: seq<Client.Action>, i: nat)
    requires Client.IsRun(states, actions) && i < |states|
    ensures RegistryInv(states[i])
  {
    hide Agreement, PhaseInv, Frozen.CloseInv, Provenance.ProvenanceInv;
    hide Reader.Enabled, Reader.Step, Starter.Enabled, Starter.Step;
    hide Closing.Enabled, Closing.Step, Dispatch.Enabled, Dispatch.Step;
    if i == 0 {
      InitAgrees(states[0]);
    } else {
      var s := states[i - 1];
      AlwaysAgrees(states, actions, i - 1);
      AlwaysPhased(states, actions, i - 1);
      Frozen.CauseIffClosed(states, actions, i - 1);
      Provenance.AlwaysGenuine(states, actions, i - 1);
      match actions[i - 1]
      case ByReader(a) => ReaderRegistry(s, a);
      case ByStarter(r, a) => StarterRegistry(s, r, a);
      case ByCloser(a) => CloserRegistry(s, a);
      case ByDispatcher(a) => DispatcherRegistry(s, a);
    }
  }

  lemma InitAgrees(s: State)
    requires Client.IsInit(s)
    ensures RegistryInv(s)
  {
  }

  /** After the failure snapshot nothing is ever armed or parked again. */
  lemma NothingArmedAfterSnapshot(states: seq<State>, actions: seq<Client.Action>, i: nat, j: nat)
    requires Client.IsRun(states, actions) && i < j < |states|
    requires actions[i].ByCloser? && actions[i].closer.Snapshot?
    ensures Emptied(states[j].reg)
  {
    hide Agreement, Emptied, Closing.CanSnapshot;
    AlwaysAgrees(states, actions, j);
    Frozen.NothingThaws(states, actions, i + 1, j);
    assert states[i + 1] == Client.Step(states[i], actions[i]) && Client.Enabled(states[i], actions[i]);
    hide Frozen.RunsEvolve, Client.IsRun;
  }
}
