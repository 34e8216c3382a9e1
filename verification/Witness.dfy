/** Runs that show the claims of Order, Gapless and Fence cannot be had without their
    conditions: a failure snapshot that overtakes a live frame, a turn id bound to
    two runs, a stop that opens a frame nobody accepted, and a terminal frame that
    names no turn and completes a registering run before any callback. */
module Witness {
  import opened Wrappers
  import opened Attribution
  import opened Retention
  import opened ExactRun
  import opened ClientState
  import opened Phases
  import opened Binding
  import opened Focus
  import opened Reached
  import opened Order
  import opened Gapless
  import opened Exactness
  import Reader
  import Starter
  import Closing
  import Dispatch
  import Client
  import Totals

  /** From the start, no step having lost frames of run 0. */
  ghost predicate Kept(s: State) { LeadsSafely(Init(false, 8, 100, 100), s, 0) }

  lemma Next(s: State, a: Client.Action, t: State)
    requires Kept(s) && Goes(s, a, t) && !IsSnapshot(a) && !IsStop(a)
    ensures Kept(t)
  {
    hide Goes, Loses;
    HarmlessAction(s, a, 0);
    SafelyNext(Init(false, 8, 100, 100), s, a, t, 0);
  }

  lemma KeptReachable(s: State)
    requires Kept(s)
    ensures Reachable(s)
  {
    SafelyLeads(Init(false, 8, 100, 100), s, 0);
    LeadsReachable(s);
  }

  lemma LeadsReachable(s: State)
    requires Leads(Init(false, 8, 100, 100), s)
    ensures Reachable(s)
  {
    hide Client.Enabled, Client.Step;
    var states: seq<State>, actions: seq<Client.Action> :|
      IsPath(states, actions) && states[0] == Init(false, 8, 100, 100) && states[|states| - 1] == s;
    assert Client.IsInit(states[0]);
    forall i | 0 <= i < |actions|
        ensures Client.Enabled(states[i], actions[i]) && states[i + 1] == Client.Step(states[i], actions[i]) {
      assert Goes(states[i], actions[i], states[i + 1]);
    }
    assert Client.IsRun(states, actions) && states[|states| - 1] == s;
  }

  // ----------------------------------------------------- the overtaking snapshot

  /** A frame of turn "u" on thread "t". */
  const FRAME := Note("t", "u", true, Other)

  const FRESH := Run("t", "", [], None, "", None, false, false, None, [])

  const RUN := Slot(FRESH, Created, false, None, false, false, false, NotFinished)

  const BOUND := RUN.(caller := Answered, arm := Some(Arm("u", 0, None)))

  /** The run is registered and waits for its turn/start response. */
  function Calling0(): State {
    Init(false, 8, 100, 100).(slots := map[0 := RUN.(caller := Calling)],
                              reg := Registry(map[], map["t" := {0}], {}, map[], map[], map[], map[]))
  }

  lemma ReachesCalling()
    ensures Kept(Calling0())
  {
    hide LeadsSafely;
    var s0 := Init(false, 8, 100, 100);
    var s1 := s0.(slots := map[0 := RUN]);
    var s2 := Calling0().(slots := map[0 := RUN.(caller := RegReplay([], 0, None))]);
    SafelySelf(s0, 0);
    assert Goes(s0, Client.ByStarter(0, Starter.CreateRun("t")), s1);
    Next(s0, Client.ByStarter(0, Starter.CreateRun("t")), s1);
    assert Goes(s1, Client.ByStarter(0, Starter.Register), s2);
    Next(s1, Client.ByStarter(0, Starter.Register), s2);
    assert Goes(s2, Client.ByStarter(0, Starter.RegisterDone), Calling0());
    Next(s2, Client.ByStarter(0, Starter.RegisterDone), Calling0());
  }

  const LEASES := map[0 := Lease(1, 0, 1), 1 := Lease(4, 0, 1), 2 := Lease(1, 0, 1)]

  /** The turn is armed and frame 0 is parked for the run; the reader is idle. */
  function Parked0(): State {
    Calling0().(
      mem := Memory(Budget(100, 100, 6, 0, LEASES, 3, false), multiset{}, multiset{}),
      reg := Registry(map[], map["t" := {0}], {}, map["u" := 0], map[TurnKey("u") := 0],
                      map["u" := [Parked(0, FRAME, 1)]], map[]),
      slots := map[0 := BOUND], ev := Evidence(map[0 := 0], {}, map[], {}, false), log := [FRAME],
      q := Queue([Entry(0, 0, true, [], 2)], 1, map[0 := 0], Waiting, false, 0, {}, {}))
  }

  lemma NoTargets(s: State)
    requires s.reg.streams == map[] && s.slots == map[0 := BOUND] && s.reg.attaching == map["t" := {0}]
    ensures StreamTargets(s, FRAME) == {} && AttachTargets(s, FRAME) == {}
  {
  }

  function Armed0(): State {
    Calling0().(
      mem := Memory(Budget(100, 100, 1, 0, map[0 := Lease(1, 0, 1)], 1, false), multiset{}, multiset{}),
      reg := Calling0().reg.(armedTurns := map["u" := 0], attachment := map[TurnKey("u") := 0]),
      slots := map[0 := BOUND])
  }

  function Routed0(): State {
    Armed0().(
      mem := Memory(Budget(100, 100, 5, 0, map[0 := Lease(1, 0, 1), 1 := Lease(4, 0, 1)], 2, false), multiset{},
          multiset{}),
      reg := Parked0().reg, ev := Parked0().ev, log := [FRAME], reader := Routed(0, FRAME, [], [], true, None))
  }

  lemma ArmsTurn()
    ensures Goes(Calling0(), Client.ByReader(Reader.ArmTurn(0, "u", 0)), Armed0())
  {
    hide Reader.DoRoute, Reader.CanRoute, Reader.DoReaderAccept, Reader.DoReaderEnqueue;
  }

  lemma ParksFrame()
    ensures Goes(Armed0(), Client.ByReader(Reader.Route(FRAME, [], 0)), Routed0())
  {
    hide StreamTargets, AttachTargets;
    hide Reader.DoArmTurn, Reader.DoReaderAccept, Reader.DoReaderEnqueue;
    var s := Armed0();
    NoTargets(s);
    var none: seq<RunId> := [];
    assert multiset(none) == multiset(StreamTargets(s, FRAME)) + multiset(AttachTargets(s, FRAME));
    assert Reader.CanRoute(s, FRAME, []);
    assert Parkable(s, FRAME);
    assert Reserve(s.mem.budget, 4, 0) == (Routed0().mem.budget, Some(1));
    var s' := Reader.DoRoute(s, FRAME, [], 0);
    assert ListAt(s.reg.pend, "u") + [Parked(0, FRAME, 1)] == [Parked(0, FRAME, 1)];
    assert s'.reg == Routed0().reg;
    assert s'.ev == Routed0().ev;
    assert s' == Routed0();
  }

  lemma Enqueues0()
    ensures Goes(Routed0(), Client.ByReader(Reader.Enqueue(1, 0)), Parked0().(reader := Completing([])))
  {
    hide Reader.DoArmTurn, Reader.DoReaderAccept, Reader.DoRoute, Reader.CanRoute;
  }

  lemma ReachesParked()
    ensures Kept(Parked0())
  {
    hide Client.Enabled, Client.Step, Kept;
    ReachesCalling();
    ArmsTurn();
    Next(Calling0(), Client.ByReader(Reader.ArmTurn(0, "u", 0)), Armed0());
    ParksFrame();
    Next(Armed0(), Client.ByReader(Reader.Route(FRAME, [], 0)), Routed0());
    Enqueues0();
    var s6 := Parked0().(reader := Completing([]));
    Next(Routed0(), Client.ByReader(Reader.Enqueue(1, 0)), s6);
    assert Goes(s6, Client.ByReader(Reader.Complete), Parked0()) by { Completes0(s6); }
    Next(s6, Client.ByReader(Reader.Complete), Parked0());
  }

  lemma Completes0(s: State)
    requires s.reader == Completing([])
    ensures Goes(s, Client.ByReader(Reader.Complete), s.(reader := Idle))
  {
    hide Reader.DoArmTurn, Reader.DoReaderAccept, Reader.DoRoute, Reader.CanRoute, Reader.DoReaderEnqueue;
  }

  const WINDOW := BOUND.(caller := Window, ordered := true, run := FRESH.(turnId := "u", turnRecord := "u"))

  /** The run has published its turn and frame 1 is offered to it live. */
  function Live1(): State {
    Parked0().(slots := map[0 := WINDOW], log := [FRAME, FRAME], reader := Routed(1, FRAME, [0], [], false, None))
  }

  function Closed1(): State {
    Live1().(close := Close(true, Some(ErrBackpressure), Some(ErrBackpressure), Claimed, false, false))
  }

  /** The failure snapshot took frame 0 and overtakes frame 1. */
  function Taken1(): State {
    Closed1().(
      close := Closed1().close.(pub := Draining([Parked(0, FRAME, 1)], [], [0])),
      mem := Closed1().mem.(dropping := multiset{0}),
      reg := Registry(map[], map["t" := {0}], {}, map[], map[], map[], map[]),
      slots := map[0 := WINDOW.(taken := true)])
  }

  const ATTACHED := WINDOW.(taken := true, caller := Attached, ordered := false)

  function Attached1(): State {
    Taken1().(reg := Registry(map["u" := {0}], map[], {}, map[], map[], map[], map[]), slots := map[0 := ATTACHED])
  }

  lemma LocksAndRoutes()
    requires Reachable(Parked0())
    ensures Reachable(Live1())
  {
    hide Client.Enabled, Client.Step, Reachable;
    var s := Parked0().(slots := map[0 := WINDOW]);
    assert Goes(Parked0(), Client.ByStarter(0, Starter.AttachLock), s) by { Locks(s); }
    NextReachable(Parked0(), Client.ByStarter(0, Starter.AttachLock), s);
    assert Goes(s, Client.ByReader(Reader.Route(FRAME, [0], 0)), Live1()) by { Offers(s); }
    NextReachable(s, Client.ByReader(Reader.Route(FRAME, [0], 0)), Live1());
  }

  lemma Locks(s: State)
    requires s == Parked0().(slots := map[0 := WINDOW])
    ensures Goes(Parked0(), Client.ByStarter(0, Starter.AttachLock), s)
  {
    hide Starter.DoRegister, Starter.DoAttachPublish, Starter.DoFinishCollect, Starter.DoUnregister;
  }

  lemma Offers(s: State)
    requires s == Parked0().(slots := map[0 := WINDOW])
    ensures Goes(s, Client.ByReader(Reader.Route(FRAME, [0], 0)), Live1())
  {
    hide Reader.DoArmTurn, Reader.DoReaderAccept, Reader.DoReaderEnqueue;
    assert 0 in s.reg.attaching["t"] && Matches(s, 0, FRAME);
    assert AttachTargets(s, FRAME) == {0} && StreamTargets(s, FRAME) == {};
    hide StreamTargets, AttachTargets;
    var order: seq<RunId> := [0];
    assert multiset(order) == multiset(StreamTargets(s, FRAME)) + multiset(AttachTargets(s, FRAME));
    assert [FRAME] + [FRAME] == [FRAME, FRAME];
  }

  lemma Fails()
    ensures Goes(Live1(), Client.ByCloser(Closing.FailClient(ErrBackpressure)), Closed1())
  {
    hide Closing.DoSnapshot, Closing.CanSnapshot;
  }

  lemma MaySnapshot(s: State, turns: seq<Id>, runs: seq<RunId>, finishing: seq<RunId>)
    requires s == Closed1() && turns == ["u"] && runs == [] && finishing == [0]
    ensures Closing.CanSnapshot(s, turns, runs, finishing)
  {
    assert s.reg.pend.Keys == {"u"};
    assert Closing.Replaying(s) == {};
    assert 0 in s.reg.attaching["t"];
    assert Closing.Registered(s) == {0};
  }

  lemma DoesSnapshot(s: State, turns: seq<Id>, runs: seq<RunId>, finishing: seq<RunId>)
    requires s == Closed1() && turns == ["u"] && runs == [] && finishing == [0]
    requires Closing.CanSnapshot(s, turns, runs, finishing)
    ensures Closing.DoSnapshot(s, turns, runs, finishing) == Taken1()
  {
    hide Closing.CanSnapshot, Closing.MarkAll, Concat, ConcatReplays;
    SnapshotFields(s, turns, runs, finishing);
  }

  lemma Snapshots()
    ensures Goes(Closed1(), Client.ByCloser(Closing.Snapshot(["u"], [], [0])), Taken1())
  {
    hide Closing.DoSnapshot, Closing.CanSnapshot;
    MaySnapshot(Closed1(), ["u"], [], [0]);
    DoesSnapshot(Closed1(), ["u"], [], [0]);
  }

  lemma SnapshotFields(s: State, turns: seq<Id>, runs: seq<RunId>, finishing: seq<RunId>)
    requires s == Closed1() && turns == ["u"] && runs == [] && finishing == [0]
    ensures Concat(s.reg.pend, turns) == [Parked(0, FRAME, 1)] && ConcatReplays(s.slots, runs) == []
    ensures Totals.Union(s.reg.threadPend, ListLeases) == multiset{}
    ensures Totals.Union(s.reg.attachment, One) == multiset{0}
    ensures Closing.MarkAll(s.slots) == map[0 := WINDOW.(taken := true)]
  {
    assert Concat(s.reg.pend, turns[1..]) == [];
    Totals.UnionSplit(s.reg.attachment, One, TurnKey("u"));
    assert s.reg.attachment - {TurnKey("u")} == map[];
  }

  /** The run attaches; the snapshot left nothing to replay. */
  function Replaying1(): State {
    Attached1().(slots := map[0 := ATTACHED.(caller := Replay([], 0, false), ordered := true)])
  }

  lemma Attaches()
    ensures Goes(Taken1(), Client.ByStarter(0, Starter.AttachPublish), Replaying1())
  {
    hide Starter.DoRegister, Starter.DoFinishCollect, Starter.DoUnregister, Starter.DoRegisterAccept;
    hide Starter.DoAttachDone;
    var s := Taken1();
    var s' := Starter.DoAttachPublish(s, 0);
    assert Without(s.reg.attaching, "t", 0) == map[];
    assert Under(s.reg.streams, "u") + {0} == {0};
    assert With(s.reg.streams, "u", 0) == map["u" := {0}];
    assert s.reg.armedTurns - {"u"} == map[] && s.reg.pend - {"u"} == map[];
    hide With, Without;
    assert s'.reg == Replaying1().reg;
    assert s'.slots == Replaying1().slots;
    assert s' == Replaying1();
  }

  lemma EndsReplay()
    ensures Goes(Replaying1(), Client.ByStarter(0, Starter.AttachDone), Attached1())
  {
    hide Starter.DoRegister, Starter.DoFinishCollect, Starter.DoUnregister, Starter.DoRegisterAccept;
    hide Starter.DoAttachPublish;
    assert ListLeases([]) == multiset{};
  }

  /** The live frame is accepted first. */
  function Accepted1(): State {
    Attached1().(
      mem := Memory(Budget(100, 100, 9, 0, LEASES[3 := Lease(3, 0, 2)], 4, false), multiset{0, 3}, multiset{}),
      reader := Routed(1, FRAME, [], [], false, None),
      slots := map[0 := ATTACHED.(run := ATTACHED.run.(history := [Frame(1, FRAME)], owners := [3]))])
  }

  lemma AcceptsLive()
    ensures Goes(Attached1(), Client.ByReader(Reader.Accept(0)), Accepted1())
  {
    hide Reader.DoArmTurn, Reader.DoRoute, Reader.DoReaderEnqueue, Reader.CanRoute;
    var s := Attached1();
    assert Admissible(s.slots[0].run, FRAME);
    assert Reserve(s.mem.budget, 3, 0) == (Budget(100, 100, 9, 0, LEASES[3 := Lease(3, 0, 1)], 4, false), Some(3));
    assert LEASES[3 := Lease(3, 0, 1)][3 := Lease(3, 0, 2)] == LEASES[3 := Lease(3, 0, 2)];
    assert multiset{0} + multiset{3} == multiset{0, 3};
    var s' := Reader.DoReaderAccept(s, 0);
    assert s.slots[0].run.history + [Frame(1, FRAME)] == [Frame(1, FRAME)] && s.slots[0].run.owners + [3] == [3];
    assert s'.slots == Accepted1().slots;
    assert s'.mem == Accepted1().mem;
    assert s'.reader == Accepted1().reader;
  }

  /** Then the publisher resolves the parked frame, for the same run. */
  lemma PublishesParked()
    ensures Client.Enabled(Accepted1(), Client.ByCloser(Closing.PublishPending))
    ensures var s := Client.Step(Accepted1(), Client.ByCloser(Closing.PublishPending));
            s.slots.Keys == {0} && s.slots[0].run.history == [Frame(1, FRAME), Frame(0, FRAME)]
  {
    hide Closing.DoSnapshot, Closing.CanSnapshot;
    var s := Accepted1();
    assert Admissible(s.slots[0].run, FRAME);
  }

  /** Without its condition on the snapshot, order through attachment fails: a run
      of the client ends with a run, whose turn id is its own, that accepted frame 1
      before frame 0 of its turn. */
  lemma OvertakingInverts()
    ensures exists s: State :: Reachable(s) && 0 in s.slots && !Shared(s.slots, 0)
                               && TurnNos(s.slots[0].run.history) == [1, 0]
  {
    hide Client.Enabled, Client.Step, Reachable, Kept;
    ReachesParked();
    KeptReachable(Parked0());
    LocksAndRoutes();
    Fails();
    NextReachable(Live1(), Client.ByCloser(Closing.FailClient(ErrBackpressure)), Closed1());
    Snapshots();
    NextReachable(Closed1(), Client.ByCloser(Closing.Snapshot(["u"], [], [0])), Taken1());
    Attaches();
    NextReachable(Taken1(), Client.ByStarter(0, Starter.AttachPublish), Replaying1());
    EndsReplay();
    NextReachable(Replaying1(), Client.ByStarter(0, Starter.AttachDone), Attached1());
    AcceptsLive();
    NextReachable(Attached1(), Client.ByReader(Reader.Accept(0)), Accepted1());
    PublishesParked();
    var t := Client.Step(Accepted1(), Client.ByCloser(Closing.PublishPending));
    NextReachable(Accepted1(), Client.ByCloser(Closing.PublishPending), t);
    TurnNosAppend([], Frame(1, FRAME));
    TurnNosAppend([Frame(1, FRAME)], Frame(0, FRAME));
    assert [] + [Frame(1, FRAME)] == [Frame(1, FRAME)];
    assert [Frame(1, FRAME)] + [Frame(0, FRAME)] == [Frame(1, FRAME), Frame(0, FRAME)];
    assert TurnNos(t.slots[0].run.history) == [1, 0];
    forall q | q != 0 ensures !SameTurn(t.slots, q, 0) {
      assert q !in t.slots;
    }
  }

  // ------------------------------------------------------- the shared turn id

  const OTHER := Slot(Run("t2", "", [], None, "", None, false, false, None, []), Created, false, None, false, false,
      false, NotFinished)

  const OTHER_BOUND := OTHER.(caller := Answered, arm := Some(Arm("u", 1, None)))

  const OTHER_WINDOW := OTHER_BOUND.(caller := Window, ordered := true, run := SetTurn(OTHER.run, "u"))

  const PARKED := Parked(0, FRAME, 1)

  /** Run 1 is bound to the turn id that frame 0 was parked under for run 0. */
  function Both2(): State {
    Parked0().(slots := map[0 := BOUND, 1 := OTHER_BOUND],
               reg := Parked0().reg.(attaching := map["t" := {0}, "t2" := {1}], armedTurns := map["u" := 1]))
  }

  /** Both runs published the turn, and frame 1 is offered to run 0. */
  function Windows2(): State {
    Both2().(slots := map[0 := WINDOW, 1 := OTHER_WINDOW], log := [FRAME, FRAME],
        reader := Routed(1, FRAME, [0], [], false, None))
  }

  /** Run 1 attached first and took run 0's frame into its replay; run 0 attached. */
  function Swapped2(): State {
    Windows2().(
      mem := Windows2().mem.(dropping := multiset{0}),
      reg := Registry(map["u" := {0, 1}], map[], {}, map[], map[], map[], map[]),
      slots := map[0 := WINDOW.(caller := Attached, ordered := false),
          1 := OTHER_WINDOW.(caller := Replay([PARKED], 0, false))])
  }

  lemma SecondRun()
    requires Kept(Parked0())
    ensures Kept(Both2())
  {
    hide Kept, Goes;
    var s1 := Parked0().(slots := map[0 := BOUND, 1 := OTHER]);
    var reg := Parked0().reg.(attaching := map["t" := {0}, "t2" := {1}]);
    var s2 := Parked0().(slots := map[0 := BOUND, 1 := OTHER.(caller := RegReplay([], 0, None))], reg := reg);
    var s3 := Parked0().(slots := map[0 := BOUND, 1 := OTHER.(caller := Calling)], reg := reg);
    CreatesSecond(s1, s2, s3);
    Next(Parked0(), Client.ByStarter(1, Starter.CreateRun("t2")), s1);
    Next(s1, Client.ByStarter(1, Starter.Register), s2);
    Next(s2, Client.ByStarter(1, Starter.RegisterDone), s3);
    ArmsSecond(s3);
    Next(s3, Client.ByReader(Reader.ArmTurn(1, "u", 0)), Both2());
  }

  lemma CreatesSecond(s1: State, s2: State, s3: State)
    requires s1 == Parked0().(slots := map[0 := BOUND, 1 := OTHER])
    requires s2 == Parked0().(slots := map[0 := BOUND, 1 := OTHER.(caller := RegReplay([], 0, None))],
                              reg := Parked0().reg.(attaching := map["t" := {0}, "t2" := {1}]))
    requires s3 == s2.(slots := map[0 := BOUND, 1 := OTHER.(caller := Calling)])
    ensures Goes(Parked0(), Client.ByStarter(1, Starter.CreateRun("t2")), s1)
    ensures Goes(s1, Client.ByStarter(1, Starter.Register), s2)
    ensures Goes(s2, Client.ByStarter(1, Starter.RegisterDone), s3)
  {
    hide Starter.DoRegister, Starter.DoRegisterAccept, Starter.DoAttachPublish, Starter.DoFinishCollect;
    hide Starter.DoUnregister;
    hide Starter.DoFinishComplete, Starter.DoAttachNext, Starter.DoFinishEnd, FinishRun, Resolve;
    RegistersSecond(s1, s2);
  }

  lemma RegistersSecond(s1: State, s2: State)
    requires s1 == Parked0().(slots := map[0 := BOUND, 1 := OTHER])
    requires s2 == Parked0().(slots := map[0 := BOUND, 1 := OTHER.(caller := RegReplay([], 0, None))],
                              reg := Parked0().reg.(attaching := map["t" := {0}, "t2" := {1}]))
    ensures Starter.CanRegister(s1, 1) && Starter.DoRegister(s1, 1) == s2
  {
    assert s1.reg.threadPend - {"t2"} == map[] && s1.reg.armedThreads - {"t2"} == {};
  }

  lemma ArmsSecond(s: State)
    requires s == Both2().(slots := map[0 := BOUND, 1 := OTHER.(caller := Calling)],
                           reg := Parked0().reg.(attaching := map["t" := {0}, "t2" := {1}]))
    ensures Goes(s, Client.ByReader(Reader.ArmTurn(1, "u", 0)), Both2())
  {
    hide Reader.DoRoute, Reader.CanRoute, Reader.DoReaderAccept, Reader.DoReaderEnqueue;
  }

  lemma BothPublish()
    requires Kept(Both2())
    ensures Kept(Windows2())
  {
    hide Kept, Goes;
    var s1 := Both2().(slots := map[0 := WINDOW, 1 := OTHER_BOUND]);
    var s2 := Windows2().(slots := map[0 := WINDOW, 1 := OTHER_BOUND]);
    LocksOne(s1, s2);
    Next(Both2(), Client.ByStarter(0, Starter.AttachLock), s1);
    OffersFirst(s1, s2);
    Next(s1, Client.ByReader(Reader.Route(FRAME, [0], 0)), s2);
    Next(s2, Client.ByStarter(1, Starter.AttachLock), Windows2());
  }

  lemma LocksOne(s1: State, s2: State)
    requires s1 == Both2().(slots := map[0 := WINDOW, 1 := OTHER_BOUND])
    requires s2 == Windows2().(slots := map[0 := WINDOW, 1 := OTHER_BOUND])
    ensures Goes(Both2(), Client.ByStarter(0, Starter.AttachLock), s1)
    ensures Goes(s2, Client.ByStarter(1, Starter.AttachLock), Windows2())
  {
    hide Starter.DoRegister, Starter.DoAttachPublish, Starter.DoFinishCollect, Starter.DoUnregister;
  }

  lemma OffersFirst(s: State, t: State)
    requires s == Both2().(slots := map[0 := WINDOW, 1 := OTHER_BOUND])
    requires t == Windows2().(slots := map[0 := WINDOW, 1 := OTHER_BOUND])
    ensures Goes(s, Client.ByReader(Reader.Route(FRAME, [0], 0)), t)
  {
    hide Reader.DoArmTurn, Reader.DoReaderAccept, Reader.DoReaderEnqueue;
    OfferSets(s);
    hide StreamTargets, AttachTargets;
    var order: seq<RunId> := [0];
    assert multiset(order) == multiset(StreamTargets(s, FRAME)) + multiset(AttachTargets(s, FRAME));
    assert [FRAME] + [FRAME] == [FRAME, FRAME];
  }

  lemma OfferSets(s: State)
    requires s.reg.streams == map[] && s.reg.attaching == map["t" := {0}, "t2" := {1}]
    requires s.slots == map[0 := WINDOW, 1 := OTHER_BOUND]
    ensures AttachTargets(s, FRAME) == {0} && StreamTargets(s, FRAME) == {}
  {
    assert 0 in s.reg.attaching["t"] && Matches(s, 0, FRAME);
  }

  lemma BothAttach()
    requires Kept(Windows2())
    ensures Kept(Swapped2())
  {
    hide Kept, Goes;
    var taken := OTHER_WINDOW.(caller := Replay([PARKED], 0, false));
    var s1 := Windows2().(mem := Swapped2().mem, slots := map[0 := WINDOW, 1 := taken],
                          reg := Registry(map["u" := {1}], map["t" := {0}], {}, map[], map[], map[], map[]));
    var s2 := Swapped2().(slots := map[0 := WINDOW.(caller := Replay([], 0, false)), 1 := taken]);
    AttachesOther(s1);
    Next(Windows2(), Client.ByStarter(1, Starter.AttachPublish), s1);
    AttachesFirst(s1, s2);
    Next(s1, Client.ByStarter(0, Starter.AttachPublish), s2);
    DoneFirst(s2);
    Next(s2, Client.ByStarter(0, Starter.AttachDone), Swapped2());
  }

  lemma OtherMoves(s: State)
    requires s.reg.streams == map[] && s.reg.attaching == map["t" := {0}, "t2" := {1}]
    ensures Without(s.reg.attaching, "t2", 1) == map["t" := {0}] && With(s.reg.streams, "u", 1) == map["u" := {1}]
  {
    assert Under(s.reg.streams, "u") + {1} == {1};
  }

  lemma AttachesOther(s1: State)
    requires s1 == Windows2().(mem := Swapped2().mem,
               slots := map[0 := WINDOW, 1 := OTHER_WINDOW.(caller := Replay([PARKED], 0, false))],
                               reg := Registry(map["u" := {1}], map["t" := {0}], {}, map[], map[], map[], map[]))
    ensures Goes(Windows2(), Client.ByStarter(1, Starter.AttachPublish), s1)
  {
    hide Goes, With, Without;
    var s := Windows2();
    OtherMoves(s);
    assert s.reg.armedTurns - {"u"} == map[] && s.reg.pend - {"u"} == map[]
        && s.reg.attachment - {TurnKey("u")} == map[];
    var s' := Starter.DoAttachPublish(s, 1);
    assert s'.slots == s1.slots;
    assert s'.reg == s1.reg;
    assert multiset{} + multiset{0} == multiset{0} && s'.mem == s1.mem;
    PublishesGoes(s, 1);
  }

  lemma PublishesGoes(s: State, r: RunId)
    requires Starter.CanAttachPublish(s, r)
    ensures Goes(s, Client.ByStarter(r, Starter.AttachPublish), Starter.DoAttachPublish(s, r))
  {
    hide Starter.DoAttachPublish;
  }

  lemma AttachesFirst(s: State, t: State)
    requires s == Windows2().(mem := Swapped2().mem,
               slots := map[0 := WINDOW, 1 := OTHER_WINDOW.(caller := Replay([PARKED], 0, false))],
                              reg := Registry(map["u" := {1}], map["t" := {0}], {}, map[], map[], map[], map[]))
    requires t == Swapped2().(slots := map[0 := WINDOW.(caller := Replay([], 0, false)),
                                           1 := OTHER_WINDOW.(caller := Replay([PARKED], 0, false))])
    ensures Goes(s, Client.ByStarter(0, Starter.AttachPublish), t)
  {
    hide Goes;
    assert Without(s.reg.attaching, "t", 0) == map[];
    assert Under(s.reg.streams, "u") + {0} == {0, 1} && With(s.reg.streams, "u", 0) == map["u" := {0, 1}];
    assert s.reg.armedTurns - {"u"} == map[] && s.reg.pend - {"u"} == map[];
    var s' := Starter.DoAttachPublish(s, 0);
    assert s'.slots == t.slots;
    assert s'.reg == t.reg;
    PublishesGoes(s, 0);
  }

  lemma DoneFirst(s: State)
    requires s == Swapped2().(slots := map[0 := WINDOW.(caller := Replay([], 0, false)),
                                           1 := OTHER_WINDOW.(caller := Replay([PARKED], 0, false))])
    ensures Goes(s, Client.ByStarter(0, Starter.AttachDone), Swapped2())
  {
    hide Starter.DoRegister, Starter.DoFinishCollect, Starter.DoUnregister, Starter.DoRegisterAccept;
    hide Starter.DoAttachPublish;
    hide Starter.DoFinishComplete, Starter.DoAttachNext, Starter.DoFinishEnd, Starter.DoCollect, FinishRun, Resolve;
    assert ListLeases([]) == multiset{};
  }

  /** Run 0 accepted frame 1, and the client failed. */
  ghost predicate Failed2(s: State) {
    && 0 in s.slots && s.slots == Swapped2().slots[0 := s.slots[0]] && s.slots[0].run.history == [Frame(1, FRAME)]
    && s.slots[0] == Swapped2().slots[0].(run := s.slots[0].run) && s.slots[0].run.turnId == "u"
        && s.slots[0].run.threadId == "t"
    && !Stopped(s.slots[0].run)
    && s.reg == Swapped2().reg && s.ev == Swapped2().ev && s.reader == Routed(1, FRAME, [], [], false, None)
    && s.close.pub.Claimed?
  }

  lemma AcceptsThenFails() returns (s: State)
    requires Kept(Swapped2())
    ensures Kept(s) && Failed2(s)
  {
    hide Kept, Reader.DoReaderAccept, Taking;
    var t := Swapped2();
    AcceptsOffer(t, 0);
    ReaderAcceptShape(t, 0);
    TakesOther(t);
    var u := Reader.DoReaderAccept(t, 0);
    var l :| u.slots == t.slots[0 := Taking(t.slots[0], Parked(1, FRAME, l))];
    TakesFrame(t.slots[0], Parked(1, FRAME, l));
    assert Goes(t, Client.ByReader(Reader.Accept(0)), u);
    Next(t, Client.ByReader(Reader.Accept(0)), u);
    s := ClaimFailure(u, ErrBackpressure);
    assert Goes(u, Client.ByCloser(Closing.FailClient(ErrBackpressure)), s);
    Next(u, Client.ByCloser(Closing.FailClient(ErrBackpressure)), s);
  }

  lemma TakesOther(s: State)
    requires s == Swapped2()
    ensures Reader.DoReaderAccept(s, 0).reader == Routed(1, FRAME, [], [], false, None)
  {
    hide Retain;
    assert Admissible(s.slots[0].run, FRAME);
  }

  /** The snapshot copies run 1's replay, which holds run 0's frame. */
  lemma SnapshotOther(s: State) returns (t: State)
    requires Kept(s) && Failed2(s)
    ensures Kept(t) && t.slots == Closing.MarkAll(s.slots) && t.ev == s.ev
    ensures t.close.pub.Draining? && t.close.pub.pending == [] && t.close.pub.replay == [PARKED]
  {
    hide Kept, Closing.DoSnapshot, Closing.CanSnapshot;
    var turns: seq<Id>, runs: seq<RunId>, finishing: seq<RunId> := [], [1], [0, 1];
    MaySnapshotOther(s, turns, runs, finishing);
    SnapshotShape(s, turns, runs, finishing);
    t := Closing.DoSnapshot(s, turns, runs, finishing);
    var a := Client.ByCloser(Closing.Snapshot(turns, runs, finishing));
    assert Goes(s, a, t);
    assert !Loses(s, a, 0);
    SafelyNext(Init(false, 8, 100, 100), s, a, t, 0) by { KeptLeads(s); }
    assert Kept(t) by { LeadsKept(t); }
    assert Concat(s.reg.pend, turns) == [];
    OneReplay(s.slots, runs);
  }

  lemma KeptLeads(s: State)
    requires Kept(s)
    ensures LeadsSafely(Init(false, 8, 100, 100), s, 0)
  {
  }

  lemma LeadsKept(s: State)
    requires LeadsSafely(Init(false, 8, 100, 100), s, 0)
    ensures Kept(s)
  {
  }

  lemma OneReplay(slots: map<RunId, Slot>, runs: seq<RunId>)
    requires runs == [1] && 1 in slots && slots[1].caller == Replay([PARKED], 0, false)
    ensures ConcatReplays(slots, runs) == [PARKED]
  {
    assert ConcatReplays(slots, runs[1..]) == [];
  }

  lemma MaySnapshotOther(s: State, turns: seq<Id>, runs: seq<RunId>, finishing: seq<RunId>)
    requires Failed2(s) && turns == [] && runs == [1] && finishing == [0, 1]
    ensures Closing.CanSnapshot(s, turns, runs, finishing)
  {
    hide Closing.Replaying, Closing.Registered;
    ReplaysOther(s);
    RegisteredBoth(s);
    assert s.reg.pend.Keys == {};
    assert multiset(finishing) == multiset{0, 1};
  }

  lemma ReplaysOther(s: State)
    requires s.slots.Keys == {0, 1} && s.slots[0].caller.Attached? && s.slots[1].caller.Replay?
    ensures Closing.Replaying(s) == {1}
  {
  }

  lemma RegisteredBoth(s: State)
    requires s.reg.streams == map["u" := {0, 1}] && s.reg.attaching == map[]
    ensures Closing.Registered(s) == {0, 1}
  {
    assert 0 in s.reg.streams["u"] && 1 in s.reg.streams["u"];
  }

  /** Without its condition on turn ids, order through attachment fails: no snapshot
      overtook run 0 and no stop skipped a frame of it, yet it accepted frame 1 of
      its turn before frame 0, because another run was bound to the same turn id. */
  lemma SharingInverts()
    ensures exists s: State :: Kept(s) && 0 in s.slots && Shared(s.slots, 0)
              && TurnNos(s.slots[0].run.history) == [1, 0]
  {
    hide Kept, Shared, Closing.MarkAll, Resolve, Failed2;
    ReachesParked();
    SecondRun();
    BothPublish();
    BothAttach();
    var s := AcceptsThenFails();
    var t := SnapshotOther(s);
    PublishesReplayed(s, t);
    var u := Closing.DoPublishReplay(t);
    assert Goes(t, Client.ByCloser(Closing.PublishReplay), u);
    Next(t, Client.ByCloser(Closing.PublishReplay), u);
  }

  lemma PublishesReplayed(s: State, t: State)
    requires Failed2(s) && t.slots == Closing.MarkAll(s.slots) && t.ev == s.ev
    requires t.close.pub.Draining? && t.close.pub.pending == [] && t.close.pub.replay == [PARKED]
    ensures Closing.CanPublishReplay(t)
    ensures var u := Closing.DoPublishReplay(t);
            0 in u.slots && Shared(u.slots, 0) && TurnNos(u.slots[0].run.history) == [1, 0]
  {
    hide Resolve, Taking;
    var u := Closing.DoPublishReplay(t);
    var x := t.slots[0];
    assert 0 in t.slots && 1 in t.slots && x.run == s.slots[0].run;
    assert Admissible(x.run, FRAME);
    ResolveShape(t, PARKED, 0);
    TakesFrame(x, PARKED);
    assert u.slots[0].run.history == [Frame(1, FRAME)] + [Frame(0, FRAME)];
    TurnNosAppend([], Frame(1, FRAME));
    TurnNosAppend([Frame(1, FRAME)], Frame(0, FRAME));
    assert [] + [Frame(1, FRAME)] == [Frame(1, FRAME)];
    assert SameTurn(u.slots, 1, 0);
  }

  // -------------------------------------------------------- the skipping stop

  const SECOND := Parked(1, FRAME, 3)

  /** A second frame of the turn was parked, and the dispatcher waits for the first. */
  function Second3(): State {
    Parked0().(
      mem := Memory(Budget(100, 100, 11, 0, LEASES[3 := Lease(4, 0, 1)][4 := Lease(1, 0, 1)], 5, false), multiset{},
          multiset{}),
      reg := Parked0().reg.(pend := map["u" := [PARKED, SECOND]]), ev := Parked0().ev.(owner := map[0 := 0, 1 := 0]),
      log := [FRAME, FRAME],
      q := Queue([Entry(1, 1, true, [], 4)], 2, map[0 := 0, 1 := 1], Holding(Entry(0, 0, true, [], 2)), false, 0, {},
          {}))
  }

  lemma ParksSecond()
    requires Kept(Parked0())
    ensures Kept(Second3())
  {
    hide Kept, Goes;
    var s1 := Second3().(
      mem := Memory(Budget(100, 100, 10, 0, LEASES[3 := Lease(4, 0, 1)], 4, false), multiset{}, multiset{}),
      q := Parked0().q, reader := Routed(1, FRAME, [], [], true, None));
    var s2 := Second3().(reader := Completing([]),
                         q := Second3().q.(queue := [Entry(0, 0, true, [], 2), Entry(1, 1, true, [], 4)],
                             disp := Waiting));
    var s3 := s2.(reader := Idle);
    RoutesSecond(s1);
    Next(Parked0(), Client.ByReader(Reader.Route(FRAME, [], 0)), s1);
    EnqueuesSecond(s1, s2);
    Next(s1, Client.ByReader(Reader.Enqueue(1, 0)), s2);
    Completes0(s2);
    Next(s2, Client.ByReader(Reader.Complete), s3);
    TakesEntry(s3);
    Next(s3, Client.ByDispatcher(Dispatch.Take), Second3());
  }

  lemma RoutesSecond(t: State)
    requires t == Second3().(
      mem := Memory(Budget(100, 100, 10, 0, LEASES[3 := Lease(4, 0, 1)], 4, false), multiset{}, multiset{}),
      q := Parked0().q, reader := Routed(1, FRAME, [], [], true, None))
    ensures Goes(Parked0(), Client.ByReader(Reader.Route(FRAME, [], 0)), t)
  {
    hide StreamTargets, AttachTargets, Reader.DoArmTurn, Reader.DoReaderAccept, Reader.DoReaderEnqueue;
    var s := Parked0();
    NoTargets(s);
    var none: seq<RunId> := [];
    assert multiset(none) == multiset(StreamTargets(s, FRAME)) + multiset(AttachTargets(s, FRAME));
    assert Parkable(s, FRAME);
    assert Reserve(s.mem.budget, 4, 0) == (t.mem.budget, Some(3));
    assert ListAt(s.reg.pend, "u") + [SECOND] == [PARKED, SECOND] && [FRAME] + [FRAME] == [FRAME, FRAME];
    var s' := Reader.DoRoute(s, FRAME, [], 0);
    assert s'.reg == t.reg;
    assert s'.ev == t.ev;
  }

  lemma EnqueuesSecond(s: State, t: State)
    requires s == Second3().(
      mem := Memory(Budget(100, 100, 10, 0, LEASES[3 := Lease(4, 0, 1)], 4, false), multiset{}, multiset{}),
      q := Parked0().q, reader := Routed(1, FRAME, [], [], true, None))
    requires t == Second3().(reader := Completing([]),
                             q := Second3().q.(queue := [Entry(0, 0, true, [], 2), Entry(1, 1, true, [], 4)],
                                 disp := Waiting))
    ensures Goes(s, Client.ByReader(Reader.Enqueue(1, 0)), t)
  {
    hide Reader.DoArmTurn, Reader.DoReaderAccept, Reader.DoRoute, Reader.CanRoute;
    assert s.q.queue + [Entry(1, 1, true, [], 4)] == t.q.queue;
  }

  lemma TakesEntry(s: State)
    requires s == Second3().(q := Second3().q.(queue := [Entry(0, 0, true, [], 2), Entry(1, 1, true, [], 4)],
               disp := Waiting))
    ensures Goes(s, Client.ByDispatcher(Dispatch.Take), Second3())
  {
    assert s.q.queue[1..] == Second3().q.queue;
  }

  /** The run finishes without attachment: both frames wait in its starter's list. */
  ghost predicate Collected3(s: State) {
    && 0 in s.slots && s.slots == map[0 := s.slots[0]]
        && s.slots[0] == BOUND.(caller := FinResolve([PARKED, SECOND], 0), ordered := true,
                                                               arm := Some(Arm("u", 0, Some(2))))
    && s.reg.pend == map[] && s.reg.streams == map[] && s.reg.attaching == map[]
    && s.ev == Second3().ev && s.log == [FRAME, FRAME] && s.q == Second3().q
  }

  lemma Collects() returns (s: State)
    requires Kept(Second3())
    ensures Kept(s) && Collected3(s) && s.close == Second3().close
  {
    hide Kept, Goes, Starter.DoFinishCollect, Starter.Mine, Starter.Kept;
    var t := Second3().(slots := map[0 := BOUND.(caller := FinLocked, ordered := true)]);
    LocksToFinish(t);
    Next(Second3(), Client.ByStarter(0, Starter.FinishLock), t);
    s := Starter.DoFinishCollect(t, 0);
    Next(t, Client.ByStarter(0, Starter.FinishCollect), s);
    AllMine(t, [PARKED, SECOND], 0);
    FinishCollectShape(t, 0);
    FinishCollectQueue(t, 0);
    CollectsAll(t);
  }

  lemma LocksToFinish(t: State)
    requires t == Second3().(slots := map[0 := BOUND.(caller := FinLocked, ordered := true)])
    ensures Goes(Second3(), Client.ByStarter(0, Starter.FinishLock), t)
    ensures Goes(t, Client.ByStarter(0, Starter.FinishCollect), Starter.DoFinishCollect(t, 0))
  {
    hide Starter.DoFinishCollect, Starter.DoRegister, Starter.DoAttachPublish, Starter.DoUnregister;
  }

  lemma CollectsAll(s: State)
    requires s == Second3().(slots := map[0 := BOUND.(caller := FinLocked, ordered := true)])
    requires Starter.Kept(s, [PARKED, SECOND], 0) == []
    ensures var t := Starter.DoFinishCollect(s, 0);
            t.reg.pend == map[] && t.reg.streams == map[] && t.reg.attaching == map[]
  {
    hide Starter.Mine, Starter.Kept;
    assert s.reg.pend - {"u"} == map[];
    assert Without(s.reg.attaching, "t", 0) == map[];
  }

  /** The client shuts down: nothing is parked, replaying or registered. */
  lemma ShutsDown(s: State) returns (t: State)
    requires Kept(s) && Collected3(s) && s.close == Second3().close
    ensures Kept(t) && Collected3(t) && Dispatch.CanBeginStopping(t)
  {
    hide Kept, Goes, Collected3;
    var s1 := Closing.DoBeginShutdown(s);
    ShutdownGoes(s);
    Next(s, Client.ByCloser(Closing.BeginShutdown), s1);
    var s2 := SnapshotsNothing(s1);
    var s3 := s2.(close := s2.close.(pub := Published));
    t := s3.(close := s3.close.(stopped := true));
    PublishedStops(s2, s3, t);
    Next(s2, Client.ByCloser(Closing.PublishDone), s3);
    Next(s3, Client.ByCloser(Closing.Stop), t);
    StaysCollected(s2, t);
  }

  lemma ShutdownGoes(s: State)
    requires Collected3(s) && s.close == Second3().close
    ensures var t := Closing.DoBeginShutdown(s);
            && Goes(s, Client.ByCloser(Closing.BeginShutdown), t) && Collected3(t)
            && t.close == s.close.(closed := true, reason := Some(ErrClientClosed), pub := Claimed)
  {
    hide Closing.DoSnapshot, Closing.CanSnapshot;
  }

  lemma PublishedStops(s: State, t: State, u: State)
    requires s.close.pub == Draining([], [], []) && s.close.failure.None?
    requires t == s.(close := s.close.(pub := Published)) && u == t.(close := t.close.(stopped := true))
    ensures Goes(s, Client.ByCloser(Closing.PublishDone), t) && Goes(t, Client.ByCloser(Closing.Stop), u)
  {
    hide Closing.DoSnapshot, Closing.CanSnapshot;
  }

  lemma StaysCollected(s: State, t: State)
    requires Collected3(s) && t == s.(close := t.close) && t.close.stopped
    ensures Collected3(t) && Dispatch.CanBeginStopping(t)
  {
  }

  lemma SnapshotsNothing(s: State) returns (t: State)
    requires Kept(s) && Collected3(s) && s.close.pub.Claimed?
    ensures Kept(t) && Collected3(t) && t.close == s.close.(pub := Draining([], [], []))
  {
    hide Kept, Goes, Closing.DoSnapshot, Closing.CanSnapshot, Loses;
    var turns: seq<Id>, none: seq<RunId> := [], [];
    MaySnapshotNothing(s, turns, none);
    SnapshotShape(s, turns, none, none);
    t := Closing.DoSnapshot(s, turns, none, none);
    var a := Client.ByCloser(Closing.Snapshot(turns, none, none));
    SnapshotStep(s, turns, none);
    KeptLeads(s);
    SafelyNext(Init(false, 8, 100, 100), s, a, t, 0);
    LeadsKept(t);
  }

  lemma SnapshotStep(s: State, turns: seq<Id>, none: seq<RunId>)
    requires Collected3(s) && Closing.CanSnapshot(s, turns, none, none)
    ensures Goes(s, Client.ByCloser(Closing.Snapshot(turns, none, none)), Closing.DoSnapshot(s, turns, none, none))
    ensures !Loses(s, Client.ByCloser(Closing.Snapshot(turns, none, none)), 0)
  {
    hide Closing.CanSnapshot, Closing.DoSnapshot;
  }

  lemma MaySnapshotNothing(s: State, turns: seq<Id>, none: seq<RunId>)
    requires Collected3(s) && s.close.pub.Claimed? && turns == [] && none == []
    ensures Closing.CanSnapshot(s, turns, none, none)
  {
    assert Closing.Replaying(s) == {};
    assert Closing.Registered(s) == {};
  }

  /** Without its condition on the stop, the prefix fails: the dispatcher stops while
      it waits for frame 0 of a finishing run, and the run, whose turn id is its own
      and which lost nothing before, can accept frame 1 without it. */
  lemma SkippingLeavesGap()
    ensures exists s: State, t: State ::
              && Kept(s) && Dispatch.CanBeginStopping(s) && 0 in s.slots && !Shared(s.slots, 0) && Dispatch.Skips(s, 0)
              && LeadsSafely(Dispatch.DoBeginStopping(s), t, 0) && 0 in t.slots && !Whole(t, 0)
  {
    hide Kept, Shared, Whole, Dispatch.Skips, Dispatch.DoBeginStopping, LeadsSafely, Collected3;
    ReachesParked();
    ParksSecond();
    var s0 := Collects();
    var s := ShutsDown(s0);
    SkipsFirst(s);
    KeptRun(s);
  }

  lemma SkipsFirst(s: State)
    requires Collected3(s)
    ensures Dispatch.Skips(s, 0) && !Shared(s.slots, 0)
  {
    assert Dispatch.WaitsBehind(s, 0, 1);
  }

  lemma KeptRun(s: State)
    requires Kept(s) && Dispatch.CanBeginStopping(s) && 0 in s.slots && !Shared(s.slots, 0) && Dispatch.Skips(s, 0)
    ensures exists t :: LeadsSafely(Dispatch.DoBeginStopping(s), t, 0) && 0 in t.slots && !Whole(t, 0)
  {
    hide Client.Enabled, Client.Step, Shared, Whole, Dispatch.Skips, Dispatch.CanBeginStopping;
    hide Dispatch.DoBeginStopping;
    var states: seq<State>, actions: seq<Client.Action> :|
      IsSafePath(states, actions, 0) && states[0] == Init(false, 8, 100, 100) && states[|states| - 1] == s;
    assert Client.IsInit(states[0]);
    forall i | 0 <= i < |actions|
        ensures Client.Enabled(states[i], actions[i]) && states[i + 1] == Client.Step(states[i], actions[i]) {
      assert Goes(states[i], actions[i], states[i + 1]);
    }
    assert Client.IsRun(states, actions);
    StopLosesExactly(states, actions, 0);
  }

  // --------------------------------------------- the unfenced registration replay

  /** A terminal frame that names thread "t" but no turn. */
  const ENDED := Note("t", "", true, TurnCompleted(Completed, []))

  /** The frame is parked for the armed thread and queued for the callbacks. */
  function Waiting0(): State {
    Init(true, 8, 100, 100).(
      mem := Memory(Budget(100, 100, 5, 0, map[0 := Lease(1, 0, 1), 1 := Lease(3, 0, 1), 2 := Lease(1, 0, 1)], 3,
          false), multiset{}, multiset{}),
      reg := Registry(map[], map[], {"t"}, map[], map[ThreadKey("t") := 0], map[], map["t" := [Parked(0, ENDED, 1)]]),
      log := [ENDED], q := Queue([Entry(0, 0, false, [], 2)], 1, map[0 := 0], Waiting, false, 1, {}, {}))
  }

  function ArmedThread0(): State {
    Init(true, 8, 100, 100).(
      mem := Memory(Budget(100, 100, 1, 0, map[0 := Lease(1, 0, 1)], 1, false), multiset{}, multiset{}),
      reg := Registry(map[], map[], {"t"}, map[], map[ThreadKey("t") := 0], map[], map[]))
  }

  function RoutedEnd0(): State {
    ArmedThread0().(
      mem := Memory(Budget(100, 100, 4, 0, map[0 := Lease(1, 0, 1), 1 := Lease(3, 0, 1)], 2, false), multiset{},
          multiset{}),
      reg := Waiting0().reg, log := [ENDED], reader := Routed(0, ENDED, [], [], false, None))
  }

  lemma ArmsThread()
    ensures Goes(Init(true, 8, 100, 100), Client.ByReader(Reader.ArmThread("t", 0)), ArmedThread0())
  {
    hide Reader.DoRoute, Reader.CanRoute, Reader.DoReaderAccept, Reader.DoReaderEnqueue, Reader.DoArmTurn;
  }

  lemma ParksEnd()
    ensures Goes(ArmedThread0(), Client.ByReader(Reader.Route(ENDED, [], 0)), RoutedEnd0())
  {
    hide Reader.DoArmTurn, Reader.DoReaderAccept, Reader.DoReaderEnqueue;
    var s := ArmedThread0();
    assert StreamTargets(s, ENDED) == {} && AttachTargets(s, ENDED) == {};
    hide StreamTargets, AttachTargets;
    var none: seq<RunId> := [];
    assert multiset(none) == multiset(StreamTargets(s, ENDED)) + multiset(AttachTargets(s, ENDED));
    assert Reserve(s.mem.budget, 3, 0) == (RoutedEnd0().mem.budget, Some(1));
    assert ListAt(s.reg.threadPend, "t") + [Parked(0, ENDED, 1)] == [Parked(0, ENDED, 1)];
    assert Reader.DoRoute(s, ENDED, [], 0).reg == RoutedEnd0().reg;
  }

  lemma EnqueuesEnd()
    ensures Goes(RoutedEnd0(), Client.ByReader(Reader.Enqueue(1, 0)), Waiting0().(reader := Completing([])))
  {
    hide Reader.DoArmTurn, Reader.DoReaderAccept, Reader.DoRoute, Reader.CanRoute;
  }

  lemma ReachesWaiting()
    ensures Reachable(Waiting0())
  {
    hide Client.Enabled, Client.Step;
    StartReachable(true, 8, 100, 100);
    ArmsThread();
    NextReachable(Init(true, 8, 100, 100), Client.ByReader(Reader.ArmThread("t", 0)), ArmedThread0());
    ParksEnd();
    NextReachable(ArmedThread0(), Client.ByReader(Reader.Route(ENDED, [], 0)), RoutedEnd0());
    EnqueuesEnd();
    var s := Waiting0().(reader := Completing([]));
    NextReachable(RoutedEnd0(), Client.ByReader(Reader.Enqueue(1, 0)), s);
    assert Goes(s, Client.ByReader(Reader.Complete), Waiting0()) by { Completes0(s); }
    NextReachable(s, Client.ByReader(Reader.Complete), Waiting0());
  }

  function Registered0(): State {
    Waiting0().(
      mem := Waiting0().mem.(dropping := multiset{0}),
      reg := Registry(map[], map["t" := {0}], {}, map[], map[], map[], map[]),
      slots := map[0 := RUN.(caller := RegReplay([Parked(0, ENDED, 1)], 0, None))])
  }

  lemma Registers()
    ensures Goes(Waiting0(), Client.ByStarter(0, Starter.CreateRun("t")), Waiting0().(slots := map[0 := RUN]))
    ensures Goes(Waiting0().(slots := map[0 := RUN]), Client.ByStarter(0, Starter.Register), Registered0())
  {
    hide Starter.DoRegisterAccept, Starter.DoAttachPublish, Starter.DoFinishCollect, Starter.DoUnregister;
    var s := Waiting0().(slots := map[0 := RUN]);
    assert s.reg.threadPend - {"t"} == map[] && s.reg.armedThreads - {"t"} == {};
    assert s.reg.attachment - {ThreadKey("t")} == map[];
    assert Starter.DoRegister(s, 0).reg == Registered0().reg;
  }

  lemma ReplaysAndCompletes()
    ensures Client.Enabled(Registered0(), Client.ByStarter(0, Starter.RegisterAccept))
    ensures var s := Client.Step(Registered0(), Client.ByStarter(0, Starter.RegisterAccept));
            && Client.Enabled(s, Client.ByStarter(0, Starter.RegisterComplete))
            && var t := Client.Step(s, Client.ByStarter(0, Starter.RegisterComplete));
               && 0 in t.slots && t.slots[0].run.terminal && t.slots[0].run.err.None? && t.slots[0].via.ByRegister?
               && t.slots[0].run.history == [Frame(0, ENDED)] && t.q == Waiting0().q && t.cfg.handler
  {
    hide Starter.DoRegister, Starter.DoAttachPublish, Starter.DoFinishCollect, Starter.DoUnregister;
    assert Admissible(RUN.run, ENDED);
  }

  /** Without its condition on the terminal frame, the fence fails: a run of the
      client ends with a run that completed without error while the callback for
      its terminal frame has not been called. */
  lemma ThreadScopedCompletionIsUnfenced()
    ensures exists s: State :: Reachable(s) && s.cfg.handler && 0 in s.slots
                               && s.slots[0].run.terminal && s.slots[0].run.err.None?
                               && s.slots[0].run.history == [Frame(0, ENDED)]
                               && 0 in s.q.entryOf && s.q.entryOf[0] !in s.q.delivered
  {
    hide Client.Enabled, Client.Step, Reachable;
    ReachesWaiting();
    Registers();
    var created := Waiting0().(slots := map[0 := RUN]);
    NextReachable(Waiting0(), Client.ByStarter(0, Starter.CreateRun("t")), created);
    NextReachable(created, Client.ByStarter(0, Starter.Register), Registered0());
    ReplaysAndCompletes();
    var s := Client.Step(Registered0(), Client.ByStarter(0, Starter.RegisterAccept));
    NextReachable(Registered0(), Client.ByStarter(0, Starter.RegisterAccept), s);
    NextReachable(s, Client.ByStarter(0, Starter.RegisterComplete),
        Client.Step(s, Client.ByStarter(0, Starter.RegisterComplete)));
  }
}
