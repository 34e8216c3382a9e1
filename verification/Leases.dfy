/** Lease conservation: in every reachable state each lease counts exactly the
    slots that hold it, the budget charges exactly the leases still held, and
    neither retention panic has happened. */
module Leases {
  import opened Wrappers
  import opened Attribution
  import opened Retention
  import opened ExactRun
  import opened ClientState
  import opened Totals
  import Reader
  import Starter
  import Closing
  import Dispatch
  import Client
  import Frozen

  function QueueLeases(q: seq<Entry>): multiset<LeaseId> {
    if q == [] then multiset{} else multiset{q[0].lease} + QueueLeases(q[1..])
  }

  /** The leases a run starter holds in its local list. */
  function CallerLeases(c: Caller): multiset<LeaseId> {
    if c.RegReplay? || c.Replay? || c.FinResolve? || c.FinComplete? then ListLeases(c.list) else multiset{}
  }

  function SlotLeases(x: Slot): multiset<LeaseId> { multiset(x.run.owners) + CallerLeases(x.caller) }

  function PublisherLeases(p: Publisher): multiset<LeaseId> {
    if p.Draining? then ListLeases(p.pending) + ListLeases(p.replay) else multiset{}
  }

  function DispatcherLeases(d: Dispatcher): multiset<LeaseId> {
    if d.Holding? || d.Aborting? then multiset{d.e.lease} else multiset{}
  }

  ghost function Held(
    queue: seq<Entry>, disp: Dispatcher, pend: map<Id, seq<Parked>>, threadPend: map<Id, seq<Parked>>,
    attachment: map<Key, LeaseId>, slots: map<RunId, Slot>, pub: Publisher, loose: multiset<LeaseId>)
    : multiset<LeaseId>
  {
    QueueLeases(queue) + DispatcherLeases(disp)
    + Union(pend, ListLeases) + Union(threadPend, ListLeases) + Union(attachment, One)
    + Union(slots, SlotLeases) + PublisherLeases(pub) + loose
  }

  /** Every owner slot of the client: queue entries and the entry being
      dispatched, parked turn and thread frames, armed identities, run histories,
      replay and finishing lists, the publisher's lists, diagnostics, and releases in
      flight. */
  ghost function Owners(s: State): multiset<LeaseId> {
    Held(s.q.queue, s.q.disp, s.reg.pend, s.reg.threadPend, s.reg.attachment, s.slots, s.close.pub,
         s.mem.dropping + s.mem.diagnostics)
  }

  ghost predicate LeasesConserved(s: State) { Conserved(s.mem.budget, Owners(s)) }

  // ------------------------------------------------------------------ lists

  lemma {:induction false} LeasesAppend(a: seq<Parked>, b: seq<Parked>)
    ensures Leases(a + b) == Leases(a) + Leases(b)
  {
    if a == [] {
      assert a + b == b;
    } else {
      LeasesAppend(a[1..], b);
      assert (a + b)[1..] == a[1..] + b;
    }
  }

  lemma {:induction false} QueueAppend(q: seq<Entry>, e: Entry)
    ensures QueueLeases(q + [e]) == QueueLeases(q) + multiset{e.lease}
  {
    if q == [] {
      assert [e][1..] == [];
    } else {
      QueueAppend(q[1..], e);
      assert (q + [e])[1..] == q[1..] + [e];
    }
  }

  lemma {:induction false} LeaseOf(list: seq<Parked>, i: nat)
    requires i < |list|
    ensures list[i].lease in ListLeases(list)
  {
    if i > 0 { LeaseOf(list[1..], i - 1); }
  }

  lemma SnocLeases(list: seq<Parked>, p: Parked)
    ensures ListLeases(list + [p]) == ListLeases(list) + multiset{p.lease}
  {
    LeasesAppend(list, [p]);
    assert Leases([p]) == [p.lease];
  }

  lemma {:induction false} MineAndKept(s: State, list: seq<Parked>, r: RunId)
    ensures ListLeases(Starter.Mine(s, list, r)) + ListLeases(Starter.Kept(s, list, r)) == ListLeases(list)
  {
    hide ListLeases;
    if list == [] {
      assert ListLeases([]) == multiset{} by { EmptyLeases(); }
    } else {
      var init, last := list[..|list| - 1], list[|list| - 1];
      var mine, kept := Starter.Mine(s, init, r), Starter.Kept(s, init, r);
      MineAndKept(s, init, r);
      var a, b, l := ListLeases(mine), ListLeases(kept), multiset{last.lease};
      assert list == init + [last];
      SnocLeases(init, last);
      SnocLeases(mine, last);
      SnocLeases(kept, last);
      assert (a + l) + b == (a + b) + l == a + (b + l);
      if Starter.OwnedBy(s, last, r) {
        assert Starter.Mine(s, list, r) == mine + [last] && Starter.Kept(s, list, r) == kept + [];
        assert kept + [] == kept;
      } else {
        assert Starter.Mine(s, list, r) == mine + [] && Starter.Kept(s, list, r) == kept + [last];
        assert mine + [] == mine;
      }
    }
  }

  // ------------------------------------------------- how actions change owners

  /** Replacing one slot. */
  lemma SlotUpdate(s: State, r: RunId, x: Slot)
    requires r in s.slots
    ensures Owners(s.(slots := s.slots[r := x])) + SlotLeases(s.slots[r]) == Owners(s) + SlotLeases(x)
  {
    hide Union, Sum, Conserved, Leases, QueueLeases;
    UnionUpdate(s.slots, SlotLeases, r, x);
  }

  /** A slot keeps what it holds. */
  lemma SlotKeeps(s: State, r: RunId, x: Slot)
    requires r in s.slots && SlotLeases(x) == SlotLeases(s.slots[r])
    ensures Owners(s.(slots := s.slots[r := x])) == Owners(s)
  {
    hide Held;
    SlotUpdate(s, r, x);
    assert forall a: multiset<LeaseId>, b: multiset<LeaseId>, c: multiset<LeaseId> :: a + c == b + c ==> a == b by {
      forall a: multiset<LeaseId>, b: multiset<LeaseId>, c: multiset<LeaseId> | a + c == b + c ensures a == b {
        Cancel(a, b, c);
      }
    }
  }

  lemma Cancel(a: multiset<LeaseId>, b: multiset<LeaseId>, c: multiset<LeaseId>)
    requires a + c == b + c
    ensures a == b
  {
    assert forall l :: (a + c)[l] == a[l] + c[l] && (b + c)[l] == b[l] + c[l];
  }

  lemma SlotLeaseHeld(s: State, r: RunId, l: LeaseId)
    requires r in s.slots && l in SlotLeases(s.slots[r])
    ensures l in Owners(s)
  {
    hide Union, Sum, Conserved, Leases, QueueLeases;
    UnionSplit(s.slots, SlotLeases, r);
  }

  /** Taking a whole parked list away. */
  lemma UnionTake(m: map<Id, seq<Parked>>, k: Id)
    ensures Union(m, ListLeases) == ListLeases(ListAt(m, k)) + Union(m - {k}, ListLeases)
  {
    hide Union;
    if k in m {
      UnionSplit(m, ListLeases, k);
    } else {
      assert m - {k} == m;
    }
  }

  lemma FinishRunKeeps(s: State, r: RunId, err: Option<Err>, via: Via)
    ensures var s' := FinishRun(s, r, err, via); s'.mem.budget == s.mem.budget && Owners(s') == Owners(s)
  {
    hide Held;
    if r in s.slots && !s.slots[r].run.terminal {
      SlotKeeps(s, r, s.slots[r].(run := Finish(s.slots[r].run, Cause(s), err), via := via));
    }
  }

  lemma ReleaseAttachmentKeeps(s: State, key: Key)
    ensures var s' := ReleaseAttachment(s, key); s'.mem.budget == s.mem.budget && Owners(s') == Owners(s)
  {
    hide Union, Sum, Conserved, Leases, QueueLeases;
    if key in s.reg.attachment {
      UnionSplit(s.reg.attachment, One, key);
    }
  }

  /** Acceptance adds exactly the run's own share of the lease. */
  lemma AcceptAdds(s: State, r: RunId, p: Parked)
    requires r in s.slots && Admissible(s.slots[r].run, p.note)
    ensures Owners(AcceptRetained(s, r, p).0) == Owners(s) + multiset{p.lease}
  {
    hide Held;
    var run := Accept(s.slots[r].run, Frame(p.no, p.note), p.lease).0;
    var x := s.slots[r].(run := run);
    SlotUpdate(s, r, x);
    assert run.owners == s.slots[r].run.owners + [p.lease];
    assert SlotLeases(x) == SlotLeases(s.slots[r]) + multiset{p.lease};
    Cancel(Owners(AcceptRetained(s, r, p).0), Owners(s) + multiset{p.lease}, SlotLeases(s.slots[r]));
  }

  lemma AcceptConserves(s: State, r: RunId, p: Parked)
    requires LeasesConserved(s) && p.lease in Owners(s)
    ensures LeasesConserved(AcceptRetained(s, r, p).0)
  {
    hide Held, Conserved;
    if r in s.slots && Admissible(s.slots[r].run, p.note) {
      AcceptAdds(s, r, p);
      RetainConserves(s.mem.budget, Owners(s), p.lease);
    }
  }

  lemma ResolveConserves(s: State, p: Parked, r: RunId)
    requires LeasesConserved(s) && p.lease in Owners(s)
    ensures LeasesConserved(Resolve(s, p, r))
  {
    hide Held, Conserved;
    AcceptConserves(s, r, p);
  }

  // ------------------------------------------------------------------- reader

  lemma ParkAdds(m: map<Id, seq<Parked>>, k: Id, p: Parked)
    ensures Union(m[k := ListAt(m, k) + [p]], ListLeases) == Union(m, ListLeases) + multiset{p.lease}
  {
    hide Union, QueueLeases;
    LeasesAppend(ListAt(m, k), [p]);
    assert Leases([p]) == [p.lease];
    assert ListLeases(ListAt(m, k) + [p]) == ListLeases(ListAt(m, k)) + multiset{p.lease};
    UnionUpdate(m, ListLeases, k, ListAt(m, k) + [p]);
    UnionTake(m, k);
  }

  lemma ParkTurnAdds(s: State, k: Id, p: Parked)
    ensures Owners(ParkTurn(s, k, p)) == Owners(s) + multiset{p.lease}
  {
    hide Union, Sum, Conserved, Leases, QueueLeases;
    ParkAdds(s.reg.pend, k, p);
  }

  lemma ParkThreadAdds(s: State, k: Id, p: Parked)
    ensures Owners(ParkThread(s, k, p)) == Owners(s) + multiset{p.lease}
  {
    hide Union, Sum, Conserved, Leases, QueueLeases;
    ParkAdds(s.reg.threadPend, k, p);
  }

  lemma DropAdds(s: State, ls: multiset<LeaseId>)
    ensures Owners(LetGo(s, ls)) == Owners(s) + ls
  {
    hide Union, Sum, Conserved, Leases, QueueLeases;
  }

  lemma RouteConserves(s: State, note: Note, order: seq<RunId>, bytes: nat)
    requires LeasesConserved(s) && Reader.CanRoute(s, note, order)
    ensures LeasesConserved(Reader.DoRoute(s, note, order, bytes))
  {
    hide Held, Conserved;
    if order == [] && ClassOf(note).Thread? && note.threadId in s.reg.armedThreads {
      ReserveConserves(s.mem.budget, Owners(s), 3, bytes);
      var l := Reserve(s.mem.budget, 3, bytes).1;
      if l.Some? { ParkThreadAdds(s, note.threadId, Parked(|s.log|, note, l.value)); }
    } else if order == [] && ClassOf(note).Turn? && Parkable(s, note) {
      ReserveConserves(s.mem.budget, Owners(s), 4, bytes);
      var l := Reserve(s.mem.budget, 4, bytes).1;
      if l.Some? { ParkTurnAdds(s, note.turnId, Parked(|s.log|, note, l.value)); }
    }
  }

  lemma ReaderAcceptConserves(s: State, bytes: nat)
    requires LeasesConserved(s) && Reader.CanReaderAccept(s)
    ensures LeasesConserved(Reader.DoReaderAccept(s, bytes))
  {
    hide Held, Conserved;
    var rd := s.reader;
    var r := rd.targets[0];
    if r in s.slots && Admissible(s.slots[r].run, rd.note) {
      ReserveConserves(s.mem.budget, Owners(s), 3, bytes);
      var (b, l) := Reserve(s.mem.budget, 3, bytes);
      if l.Some? {
        var s1 := LetGo(s.(reader := rd.(targets := rd.targets[1..])), multiset{l.value});
        DropAdds(s, multiset{l.value});
        AcceptConserves(s1.(mem := s1.mem.(budget := b)), r, Parked(rd.frame, rd.note, l.value));
      }
    }
  }

  lemma QueueAdds(s: State, e: Entry)
    ensures Owners(s.(q := s.q.(queue := s.q.queue + [e]))) == Owners(s) + multiset{e.lease}
  {
    hide Union, Sum, Conserved, Leases, QueueLeases;
    QueueAppend(s.q.queue, e);
  }

  lemma EnqueueConserves(s: State, count: nat, bytes: nat)
    requires LeasesConserved(s) && Reader.CanReaderEnqueue(s)
    ensures LeasesConserved(Reader.DoReaderEnqueue(s, count, bytes))
  {
    hide Held, Conserved;
    if !s.close.closed {
      ReserveConserves(s.mem.budget, Owners(s), count, bytes);
      var l := Reserve(s.mem.budget, count, bytes).1;
      if l.Some? {
        DropAdds(s, multiset{l.value});
        if |s.q.queue| < s.cfg.capacity {
          QueueAdds(s, Reader.DoReaderEnqueue(s, count, bytes).q.queue[|s.q.queue|]);
        }
      }
    }
  }

  lemma AttachmentAdds(s: State, key: Key, l: LeaseId)
    requires key !in s.reg.attachment
    ensures Owners(s.(reg := s.reg.(attachment := s.reg.attachment[key := l]))) == Owners(s) + multiset{l}
  {
    hide Union, Sum, Conserved, Leases, QueueLeases;
    UnionUpdate(s.reg.attachment, One, key, l);
  }

  lemma ArmThreadConserves(s: State, thread: Id, bytes: nat)
    requires LeasesConserved(s) && Reader.CanArmThread(s, thread)
    ensures LeasesConserved(Reader.DoArmThread(s, thread, bytes))
  {
    hide Held, Conserved;
    ReserveConserves(s.mem.budget, Owners(s), 1, bytes);
    var l := Reserve(s.mem.budget, 1, bytes).1;
    if l.Some? && ThreadKey(thread) !in s.reg.attachment { AttachmentAdds(s, ThreadKey(thread), l.value); }
  }

  lemma ArmTurnConserves(s: State, r: RunId, turn: Id, bytes: nat)
    requires LeasesConserved(s) && Reader.CanArmTurn(s, r, turn)
    ensures LeasesConserved(Reader.DoArmTurn(s, r, turn, bytes))
  {
    hide Held, Conserved;
    var x := s.slots[r].(caller := Answered, arm := Some(Arm(turn, |s.log|, None)));
    SlotKeeps(s, r, x);
    ReserveConserves(s.mem.budget, Owners(s), 1, bytes);
    var l := Reserve(s.mem.budget, 1, bytes).1;
    if l.Some? && TurnKey(turn) !in s.reg.attachment {
      AttachmentAdds(s.(slots := s.slots[r := x]), TurnKey(turn), l.value);
    }
  }

  lemma ClaimKeeps(s: State, err: Err)
    requires !s.close.closed ==> s.close.pub.NoPublisher?
    ensures var s' := ClaimFailure(s, err); s'.mem.budget == s.mem.budget && Owners(s') == Owners(s)
  {
    hide Union, Sum, Conserved, Leases, QueueLeases;
  }

  lemma ReaderConserves(s: State, a: Reader.Action)
    requires LeasesConserved(s) && Reader.Enabled(s, a)
    requires !s.close.closed ==> s.close.pub.NoPublisher?
    ensures LeasesConserved(Reader.Step(s, a))
  {
    hide Held, Conserved;
    hide Reader.DoRoute, Reader.DoReaderAccept, Reader.DoReaderEnqueue, Reader.DoArmThread, Reader.DoArmTurn;
    match a
    case ArmThread(thread, bytes) => ArmThreadConserves(s, thread, bytes);
    case ArmTurn(r, turn, bytes) => ArmTurnConserves(s, r, turn, bytes);
    case Route(note, order, bytes) => RouteConserves(s, note, order, bytes);
    case Accept(bytes) => ReaderAcceptConserves(s, bytes);
    case Claim => ClaimKeeps(s,
        match s.reader case Routed(_, _, _, _, _, f) => f.value case Failing(e) => e case Rejecting(_, _, f,
        _) => f.value);
    case Enqueue(count, bytes) => EnqueueConserves(s, count, bytes);
    case Reject =>
    case Complete =>
      if s.reader.inline != [] {
        FinishRunKeeps(s, s.reader.inline[0].run, s.reader.inline[0].err, ByReader);
      }
  }

  // ----------------------------------------------------------------- starters

  lemma TakeThreadKeeps(s: State, r: RunId, thread: Id, x: Slot)
    requires r in s.slots && CallerLeases(s.slots[r].caller) == multiset{} && x.run == s.slots[r].run
    requires CallerLeases(x.caller) == ListLeases(ListAt(s.reg.threadPend, thread))
    ensures Owners(s.(slots := s.slots[r := x], reg := s.reg.(threadPend := s.reg.threadPend - {thread}))) == Owners(s)
  {
    hide Union, Sum, Conserved, Leases, QueueLeases;
    hide ListLeases;
    UnionUpdate(s.slots, SlotLeases, r, x);
    UnionTake(s.reg.threadPend, thread);
  }

  lemma TakeTurnKeeps(s: State, r: RunId, turn: Id, x: Slot)
    requires r in s.slots && CallerLeases(s.slots[r].caller) == multiset{} && x.run == s.slots[r].run
    requires CallerLeases(x.caller) == ListLeases(ListAt(s.reg.pend, turn))
    ensures Owners(s.(slots := s.slots[r := x], reg := s.reg.(pend := s.reg.pend - {turn}))) == Owners(s)
  {
    hide Union, Sum, Conserved, Leases, QueueLeases;
    hide ListLeases;
    UnionUpdate(s.slots, SlotLeases, r, x);
    UnionTake(s.reg.pend, turn);
  }

  /** A starter hands its list over to pending releases. */
  lemma HandOverKeeps(s: State, r: RunId, x: Slot)
    requires r in s.slots && x.run == s.slots[r].run && CallerLeases(x.caller) == multiset{}
    ensures Owners(LetGo(s.(slots := s.slots[r := x]), CallerLeases(s.slots[r].caller))) == Owners(s)
  {
    hide Union, Sum, Conserved, Leases, QueueLeases;
    hide ListLeases;
    UnionUpdate(s.slots, SlotLeases, r, x);
  }

  lemma RegisterConserves(s: State, r: RunId)
    requires LeasesConserved(s) && Starter.CanRegister(s, r)
    ensures LeasesConserved(Starter.DoRegister(s, r))
  {
    hide Held, Conserved;
    var thread := s.slots[r].run.threadId;
    SlotKeeps(s, r, s.slots[r].(caller := Refused(ErrClientClosed)));
    SlotKeeps(s, r, s.slots[r].(caller := Refused(ErrConcurrentTurnStart)));
    if !s.close.closed && Under(s.reg.attaching, thread) == {} {
      var list := ListAt(s.reg.threadPend, thread);
      TakeThreadKeeps(s, r, thread, s.slots[r].(caller := RegReplay(list, 0, None)));
      var s1 := SetCaller(s, r, RegReplay(list, 0, None))
          .(reg := s.reg.(attaching := s.reg.attaching[thread := {r}], threadPend := s.reg.threadPend - {thread},
                          armedThreads := s.reg.armedThreads - {thread}));
      ReleaseAttachmentKeeps(s1, ThreadKey(thread));
    }
  }

  lemma FinishRefusedConserves(s: State, r: RunId)
    requires LeasesConserved(s) && Starter.CanFinishRefused(s, r)
    ensures LeasesConserved(Starter.DoFinishRefused(s, r))
  {
    hide Held, Conserved;
    SlotKeeps(s, r, s.slots[r].(caller := Over));
    FinishRunKeeps(SetCaller(s, r, Over), r, Some(s.slots[r].caller.refusal), ByError);
  }

  lemma RegisterAcceptConserves(s: State, r: RunId)
    requires LeasesConserved(s) && Starter.CanRegisterAccept(s, r)
    ensures LeasesConserved(Starter.DoRegisterAccept(s, r))
  {
    hide Held, Conserved, Leases;
    var c := s.slots[r].caller;
    LeaseOf(c.list, c.regNext);
    SlotLeaseHeld(s, r, c.list[c.regNext].lease);
    AcceptConserves(s, r, c.list[c.regNext]);
    var (s1, done) := AcceptRetained(s, r, c.list[c.regNext]);
    SlotKeeps(s1, r, s1.slots[r].(caller := c.(regNext := c.regNext + 1, todo := done)));
  }

  lemma RegisterCompleteConserves(s: State, r: RunId)
    requires LeasesConserved(s) && Starter.CanRegisterComplete(s, r)
    ensures LeasesConserved(Starter.DoRegisterComplete(s, r))
  {
    hide Held, Conserved;
    var c := s.slots[r].caller;
    SlotKeeps(s, r, s.slots[r].(caller := c.(todo := None)));
    FinishRunKeeps(SetCaller(s, r, c.(todo := None)), c.todo.value.run, c.todo.value.err, ByRegister);
  }

  lemma RegisterDoneConserves(s: State, r: RunId)
    requires LeasesConserved(s) && Starter.CanRegisterDone(s, r)
    ensures LeasesConserved(Starter.DoRegisterDone(s, r))
  {
    hide Held, Conserved;
    HandOverKeeps(s, r, s.slots[r].(caller := Calling));
  }

  lemma PublishConserves(s: State, r: RunId)
    requires LeasesConserved(s) && Starter.CanAttachPublish(s, r)
    ensures LeasesConserved(Starter.DoAttachPublish(s, r))
  {
    hide Held, Conserved;
    var x := s.slots[r];
    var turn := x.run.turnId;
    var s0 := s.(reg := s.reg.(armedTurns := s.reg.armedTurns - {turn},
                               attaching := Without(s.reg.attaching, x.run.threadId, r)));
    ReleaseAttachmentKeeps(s0, TurnKey(turn));
    var s1 := ReleaseAttachment(s0, TurnKey(turn));
    if x.run.terminal {
      SlotKeeps(s1, r, x.(caller := Attached, ordered := false));
    } else {
      TakeTurnKeeps(s1, r, turn, x.(caller := Replay(ListAt(s.reg.pend, turn), 0, false)));
    }
  }

  lemma AttachResolveConserves(s: State, r: RunId)
    requires LeasesConserved(s) && Starter.CanAttachResolve(s, r)
    ensures LeasesConserved(Starter.DoAttachResolve(s, r))
  {
    hide Held, Conserved, Leases;
    var c := s.slots[r].caller;
    LeaseOf(c.list, c.next);
    SlotLeaseHeld(s, r, c.list[c.next].lease);
    ResolveConserves(s, c.list[c.next], r);
    var s1 := Resolve(s, c.list[c.next], r);
    SlotKeeps(s1, r, s1.slots[r].(caller := c.(resolved := true)));
  }

  lemma AttachNextConserves(s: State, r: RunId)
    requires LeasesConserved(s) && Starter.CanAttachNext(s, r)
    ensures LeasesConserved(Starter.DoAttachNext(s, r))
  {
    hide Held, Conserved;
    var c := s.slots[r].caller;
    SlotKeeps(s, r, s.slots[r].(caller := c.(next := c.next + 1, resolved := false)));
    var no := c.list[c.next].no;
    if no in s.ev.completion {
      FinishRunKeeps(SetCaller(s, r, c.(next := c.next + 1, resolved := false)),
                     s.ev.completion[no].run, s.ev.completion[no].err, ByReplay);
    }
  }

  lemma AttachDoneConserves(s: State, r: RunId)
    requires LeasesConserved(s) && Starter.CanAttachDone(s, r)
    ensures LeasesConserved(Starter.DoAttachDone(s, r))
  {
    hide Held, Conserved;
    HandOverKeeps(s, r, s.slots[r].(caller := Attached, ordered := false));
  }

  lemma CollectKeeps(s: State, r: RunId, turn: Id, x: Slot)
    requires r in s.slots && CallerLeases(s.slots[r].caller) == multiset{} && x.run == s.slots[r].run
    requires CallerLeases(x.caller) == ListLeases(Starter.Mine(s, ListAt(s.reg.pend, turn), r))
    ensures Owners(s.(slots := s.slots[r := x], reg := s.reg.(pend := Starter.KeepOthers(s, turn, r)))) == Owners(s)
  {
    hide ListLeases;
    hide Union, Sum, Conserved, Leases, QueueLeases;
    var kept := Starter.Kept(s, ListAt(s.reg.pend, turn), r);
    MineAndKept(s, ListAt(s.reg.pend, turn), r);
    EmptyLeases();
    assert kept == [] ==> ListLeases(kept) == multiset{};
    UnionUpdate(s.slots, SlotLeases, r, x);
    UnionTake(s.reg.pend, turn);
    UnionUpdate(s.reg.pend, ListLeases, turn, kept);
  }

  lemma FinishCollectConserves(s: State, r: RunId)
    requires LeasesConserved(s) && Starter.CanFinishCollect(s, r)
    ensures LeasesConserved(Starter.DoFinishCollect(s, r))
  {
    hide Held, Conserved, Leases;
    var x := s.slots[r];
    var s' := Starter.DoFinishCollect(s, r);
    if x.arm.None? {
      assert Leases([]) == [] by { EmptyLeases(); }
      SlotKeeps(s, r, s'.slots[r]);
    } else {
      var turn := x.arm.value.turn;
      var s0 := s.(reg := s.reg.(attaching := Without(s.reg.attaching, x.run.threadId, r),
                                 armedTurns := s.reg.armedTurns - {turn}));
      ReleaseAttachmentKeeps(s0, TurnKey(turn));
      CollectKeeps(s, r, turn, s'.slots[r]);
      var s1 := s0.(slots := s'.slots, reg := s0.reg.(pend := s'.reg.pend));
      ReleaseAttachmentKeeps(s1, TurnKey(turn));
    }
  }

  lemma EmptyLeases()
    ensures Leases([]) == [] && ListLeases([]) == multiset{}
  {
  }

  lemma FinishResolveConserves(s: State, r: RunId)
    requires LeasesConserved(s) && Starter.CanFinishResolve(s, r)
    ensures LeasesConserved(Starter.DoFinishResolve(s, r))
  {
    hide Held, Conserved, Leases;
    var c := s.slots[r].caller;
    LeaseOf(c.list, c.finNext);
    SlotLeaseHeld(s, r, c.list[c.finNext].lease);
    ResolveConserves(s, c.list[c.finNext], r);
    var s1 := Resolve(s, c.list[c.finNext], r);
    SlotKeeps(s1, r, s1.slots[r].(caller := c.(finNext := c.finNext + 1)));
  }

  lemma FinishCompleteConserves(s: State, r: RunId)
    requires LeasesConserved(s) && Starter.CanFinishComplete(s, r)
    ensures LeasesConserved(Starter.DoFinishComplete(s, r))
  {
    hide Held, Conserved;
    var c := s.slots[r].caller;
    var no := c.list[c.doneNext].no;
    SlotKeeps(s, r, s.slots[r].(caller := c.(doneNext := c.doneNext + 1)));
    if no in s.ev.completion {
      FinishRunKeeps(SetCaller(s, r, c.(doneNext := c.doneNext + 1)),
                     s.ev.completion[no].run, s.ev.completion[no].err, ByFinish(no));
    }
  }

  lemma FinishEndConserves(s: State, r: RunId, err: Err)
    requires LeasesConserved(s) && Starter.CanFinishEnd(s, r)
    ensures LeasesConserved(Starter.DoFinishEnd(s, r, err))
  {
    hide Held, Conserved;
    HandOverKeeps(s, r, s.slots[r].(caller := Over));
    FinishRunKeeps(LetGo(SetCaller(s, r, Over), ListLeases(s.slots[r].caller.list)),
                   r, Some(err), ByError);
  }

  /** The steps that only move a starter along. */
  lemma StarterMovesConserve(s: State, r: RunId)
    requires LeasesConserved(s)
    ensures Starter.CanAttachLock(s, r) ==> LeasesConserved(Starter.DoAttachLock(s, r))
    ensures Starter.CanFinishLock(s, r) ==> LeasesConserved(Starter.DoFinishLock(s, r))
    ensures Starter.CanFinishUnlock(s, r) ==> LeasesConserved(Starter.DoFinishUnlock(s, r))
    ensures Starter.CanUnregister(s, r) ==> LeasesConserved(Starter.DoUnregister(s, r))
  {
    hide Held, Conserved;
    if Starter.CanAttachLock(s, r) { SlotKeeps(s, r, Starter.DoAttachLock(s, r).slots[r]); }
    if Starter.CanFinishLock(s, r) { SlotKeeps(s, r, Starter.DoFinishLock(s, r).slots[r]); }
    if Starter.CanFinishUnlock(s, r) { SlotKeeps(s, r, Starter.DoFinishUnlock(s, r).slots[r]); }
    if Starter.CanUnregister(s, r) { SlotKeeps(s, r, Starter.DoUnregister(s, r).slots[r]); }
  }

  lemma CreateConserves(s: State, r: RunId, thread: Id)
    requires LeasesConserved(s) && Starter.CanCreateRun(s, r, thread)
    ensures LeasesConserved(Starter.DoCreateRun(s, r, thread))
  {
    hide Union, Sum, Conserved, Leases, QueueLeases;
    var x := Starter.DoCreateRun(s, r, thread).slots[r];
    UnionUpdate(s.slots, SlotLeases, r, x);
    assert SlotLeases(x) == multiset{};
    assert Owners(Starter.DoCreateRun(s, r, thread)) == Owners(s);
  }

  lemma CollectConserves(s: State, r: RunId)
    requires LeasesConserved(s) && Starter.CanCollect(s, r)
    ensures LeasesConserved(Starter.DoCollect(s, r))
  {
    hide Union, Sum, Conserved, Leases, QueueLeases;
    UnionUpdate(s.slots, SlotLeases, r, s.slots[r].(run := s.slots[r].run.(owners := [])));
    assert Owners(Starter.DoCollect(s, r)) == Owners(s);
  }

  lemma StarterConserves(s: State, r: RunId, a: Starter.Action)
    requires LeasesConserved(s) && Starter.Enabled(s, r, a)
    ensures LeasesConserved(Starter.Step(s, r, a))
  {
    hide Held, Conserved;
    hide Starter.DoCreateRun, Starter.DoRegister, Starter.DoRegisterAccept, Starter.DoRegisterComplete;
    hide Starter.DoFinishRefused, Starter.DoRegisterDone, Starter.DoAttachLock, Starter.DoAttachPublish;
    hide Starter.DoAttachResolve;
    hide Starter.DoAttachNext, Starter.DoAttachDone, Starter.DoFinishLock, Starter.DoFinishCollect;
    hide Starter.DoFinishResolve, Starter.DoFinishUnlock, Starter.DoFinishComplete, Starter.DoFinishEnd;
    hide Starter.DoUnregister, Starter.DoCollect;
    match a
    case CreateRun(thread) => CreateConserves(s, r, thread);
    case Register => RegisterConserves(s, r);
    case FinishRefused => FinishRefusedConserves(s, r);
    case RegisterAccept => RegisterAcceptConserves(s, r);
    case RegisterComplete => RegisterCompleteConserves(s, r);
    case RegisterDone => RegisterDoneConserves(s, r);
    case AttachLock => StarterMovesConserve(s, r);
    case AttachPublish => PublishConserves(s, r);
    case AttachResolve => AttachResolveConserves(s, r);
    case AttachNext => AttachNextConserves(s, r);
    case AttachDone => AttachDoneConserves(s, r);
    case FinishLock => StarterMovesConserve(s, r);
    case FinishCollect => FinishCollectConserves(s, r);
    case FinishResolve => FinishResolveConserves(s, r);
    case FinishUnlock => StarterMovesConserve(s, r);
    case FinishComplete => FinishCompleteConserves(s, r);
    case FinishEnd(err) => FinishEndConserves(s, r, err);
    case ExternalFinish(err) => FinishRunKeeps(s, r, Some(err), ByError);
    case Unregister => StarterMovesConserve(s, r);
    case Collect => CollectConserves(s, r);
  }

  // ------------------------------------------------------------------ closers

  /** Concatenating the lists under distinct keys that enumerate the map. */
  lemma {:induction false} ConcatLeases(m: map<Id, seq<Parked>>, keys: seq<Id>)
    requires multiset(keys) == multiset(m.Keys)
    ensures ListLeases(Concat(m, keys)) == Union(m, ListLeases)
    decreases |keys|
  {
    if keys == [] {
      assert |multiset(m.Keys)| == |m.Keys|;
      assert m == map[];
    } else {
      hide Union;
      var k := keys[0];
      assert keys == [k] + keys[1..];
      assert multiset(keys)[k] >= 1;
      assert k in multiset(m.Keys);
      assert k in m.Keys;
      var m' := m - {k};
      assert m'.Keys == m.Keys - {k};
      assert multiset(keys[1..]) == multiset(keys) - multiset{k};
      assert multiset(m'.Keys) == multiset(m.Keys) - multiset{k};
      ConcatLeases(m', keys[1..]);
      ConcatIgnores(m, keys[1..], k);
      UnionSplit(m, ListLeases, k);
      LeasesAppend(m[k], Concat(m, keys[1..]));
    }
  }

  lemma {:induction false} ConcatIgnores(m: map<Id, seq<Parked>>, keys: seq<Id>, k: Id)
    requires k !in keys
    ensures Concat(m, keys) == Concat(m - {k}, keys)
    decreases |keys|
  {
    if keys != [] { ConcatIgnores(m, keys[1..], k); }
  }

  lemma {:induction false} ReplayLeasesHeld(s: State, rs: seq<RunId>)
    ensures forall l <- Leases(ConcatReplays(s.slots, rs)) :: l in Owners(s)
    decreases |rs|
  {
    hide Held;
    if rs != [] {
      ReplayLeasesHeld(s, rs[1..]);
      var first := if rs[0] in s.slots then ReplayList(s.slots[rs[0]].caller) else [];
      LeasesAppend(first, ConcatReplays(s.slots, rs[1..]));
      forall l | l in Leases(first) ensures l in Owners(s) { SlotLeaseHeld(s, rs[0], l); }
    }
  }

  lemma {:induction false} UnionSame(m: map<RunId, Slot>, n: map<RunId, Slot>)
    requires m.Keys == n.Keys && forall r <- m :: SlotLeases(m[r]) == SlotLeases(n[r])
    ensures Union(m, SlotLeases) == Union(n, SlotLeases)
    decreases |m|
  {
    if m == map[] {
      assert n.Keys == {};
      assert n == map[];
    } else {
      hide Union, SlotLeases;
      var r :| r in m;
      UnionSplit(m, SlotLeases, r);
      UnionSplit(n, SlotLeases, r);
      assert (m - {r}).Keys == m.Keys - {r} == (n - {r}).Keys;
      UnionSame(m - {r}, n - {r});
    }
  }

  lemma SnapshotAdds(s: State, turns: seq<Id>, runs: seq<RunId>, finishing: seq<RunId>)
    requires Closing.CanSnapshot(s, turns, runs, finishing)
    ensures Owners(Closing.DoSnapshot(s, turns, runs, finishing))
         == Owners(s) + multiset(Leases(ConcatReplays(s.slots, runs)))
  {
    hide Union, Leases, QueueLeases, DispatcherLeases, ListLeases, Closing.Overtakes, Closing.MarkAll;
    var replay := ConcatReplays(s.slots, runs);
    ConcatLeases(s.reg.pend, turns);
    ListLeasesIs(replay);
    MarkedHoldsSame(s.slots);
    UnionEmpty<Id, seq<Parked>>(ListLeases);
    UnionEmpty<Key, LeaseId>(One);
    SnapshotRearranges(QueueLeases(s.q.queue) + DispatcherLeases(s.q.disp), Union(s.reg.pend, ListLeases),
      Union(s.reg.threadPend, ListLeases), Union(s.reg.attachment, One), Union(s.slots, SlotLeases),
      ListLeases(replay), s.mem.dropping);
  }

  lemma SnapshotRearranges(q: multiset<LeaseId>, p: multiset<LeaseId>, t: multiset<LeaseId>, a: multiset<LeaseId>,
                           x: multiset<LeaseId>, r: multiset<LeaseId>, d: multiset<LeaseId>)
    ensures q + multiset{} + multiset{} + multiset{} + x + (p + r) + (d + (t + a))
         == q + p + t + a + x + multiset{} + d + r
  {
  }

  lemma ListLeasesIs(list: seq<Parked>)
    ensures ListLeases(list) == multiset(Leases(list))
  {
  }

  lemma MarkedHoldsSame(m: map<RunId, Slot>)
    ensures Union(Closing.MarkAll(m), SlotLeases) == Union(m, SlotLeases)
  {
    hide Union;
    var n := Closing.MarkAll(m);
    assert forall r <- m :: SlotLeases(n[r]) == SlotLeases(m[r]);
    UnionSame(m, n);
  }

  lemma UnionEmpty<K(!new), V(!new)>(held: V -> multiset<LeaseId>)
    ensures Union<K, V, LeaseId>(map[], held) == multiset{}
  {
  }

  lemma SnapshotConserves(s: State, turns: seq<Id>, runs: seq<RunId>, finishing: seq<RunId>)
    requires LeasesConserved(s) && Closing.CanSnapshot(s, turns, runs, finishing)
    ensures LeasesConserved(Closing.DoSnapshot(s, turns, runs, finishing))
  {
    hide Held, Conserved;
    SnapshotAdds(s, turns, runs, finishing);
    ReplayLeasesHeld(s, runs);
    RetainAllConserves(s.mem.budget, Owners(s), Leases(ConcatReplays(s.slots, runs)));
  }

  /** The publisher lets go of the head of one of its lists. */
  lemma PublisherDropKeeps(s: State, p: Parked, pub: Publisher)
    requires PublisherLeases(s.close.pub) == PublisherLeases(pub) + multiset{p.lease}
    ensures Owners(LetGo(SetPublisher(s, pub), multiset{p.lease})) == Owners(s)
    ensures p.lease in Owners(s)
  {
    hide Union, Sum, Conserved, Leases, QueueLeases;
  }

  lemma PublishPendingConserves(s: State)
    requires LeasesConserved(s) && Closing.CanPublishPending(s)
    ensures LeasesConserved(Closing.DoPublishPending(s))
  {
    hide Held, Conserved;
    var p := s.close.pub.pending[0];
    var pub := s.close.pub.(pending := s.close.pub.pending[1..]);
    PublisherDropKeeps(s, p, pub);
    if p.no in s.ev.owner { ResolveConserves(s, p, s.ev.owner[p.no]); }
    var s1 := if p.no in s.ev.owner then Resolve(s, p, s.ev.owner[p.no]) else s;
    PublisherDropKeeps(s1, p, pub);
  }

  lemma PublishReplayConserves(s: State)
    requires LeasesConserved(s) && Closing.CanPublishReplay(s)
    ensures LeasesConserved(Closing.DoPublishReplay(s))
  {
    hide Held, Conserved;
    var p := s.close.pub.replay[0];
    var pub := s.close.pub.(replay := s.close.pub.replay[1..]);
    PublisherDropKeeps(s, p, pub);
    if p.no in s.ev.owner { ResolveConserves(s, p, s.ev.owner[p.no]); }
    var s1 := if p.no in s.ev.owner then Resolve(s, p, s.ev.owner[p.no]) else s;
    PublisherDropKeeps(s1, p, pub);
  }

  lemma PublishFinishConserves(s: State)
    requires LeasesConserved(s) && Closing.CanPublishFinish(s)
    ensures LeasesConserved(Closing.DoPublishFinish(s))
  {
    hide Union, Sum, Conserved, Leases, QueueLeases;
    FinishRunKeeps(s, s.close.pub.finishing[0], Cause(s), ByError);
    var s1 := FinishRun(s, s.close.pub.finishing[0], Cause(s), ByError);
    assert Owners(Closing.DoPublishFinish(s)) == Owners(s1);
  }

  lemma DropConserves(s: State, l: LeaseId)
    requires LeasesConserved(s) && Closing.CanDrop(s, l)
    ensures LeasesConserved(Closing.DoDrop(s, l))
  {
    hide Union, Sum, Conserved, Leases, QueueLeases;
    assert Owners(Closing.DoDrop(s, l)) == Owners(s) - multiset{l};
    assert l in Owners(s);
    hide Held;
    ReleaseConserves(s.mem.budget, Owners(s), l);
  }

  lemma ReserveDiagnosticConserves(s: State, bytes: nat)
    requires LeasesConserved(s)
    ensures LeasesConserved(Closing.DoReserveDiagnostic(s, bytes))
  {
    hide Union, Sum, Conserved, Leases, QueueLeases, Reserve;
    var l := Reserve(s.mem.budget, 1, bytes).1;
    ReserveConserves(s.mem.budget, Owners(s), 1, bytes);
    if l.Some? { assert Owners(Closing.DoReserveDiagnostic(s, bytes)) == Owners(s) + multiset{l.value}; }
  }

  lemma KeepDiagnosticConserves(s: State, l: LeaseId)
    requires LeasesConserved(s) && Closing.CanKeepDiagnostic(s, l)
    ensures LeasesConserved(Closing.DoKeepDiagnostic(s, l))
  {
    hide Union, Sum, Conserved, Leases, QueueLeases;
    assert Owners(Closing.DoKeepDiagnostic(s, l)) == Owners(s) + multiset{l};
    assert l in Owners(s);
    hide Held;
    RetainConserves(s.mem.budget, Owners(s), l);
  }

  lemma LetGoDiagnosticConserves(s: State, l: LeaseId)
    requires LeasesConserved(s) && Closing.CanKeepDiagnostic(s, l)
    ensures LeasesConserved(Closing.DoLetGoDiagnostic(s, l))
  {
    hide Union, Sum, Conserved, Leases, QueueLeases;
    assert Owners(Closing.DoLetGoDiagnostic(s, l)) == Owners(s);
  }

  /** The queue and the dispatcher trade leases, or let go of them. */
  lemma QueueTrades(s: State, queue: seq<Entry>, d: Dispatcher, ls: multiset<LeaseId>)
    requires QueueLeases(queue) + DispatcherLeases(d) + ls
          == QueueLeases(s.q.queue) + DispatcherLeases(s.q.disp)
    ensures Owners(LetGo(s.(q := s.q.(queue := queue, disp := d)), ls)) == Owners(s)
    ensures ls == multiset{} ==> Owners(s.(q := s.q.(queue := queue, disp := d))) == Owners(s)
  {
    hide Union, Sum, Conserved, Leases, QueueLeases, DispatcherLeases;
    var t := LetGo(s.(q := s.q.(queue := queue, disp := d)), ls);
    forall l ensures Owners(t)[l] == Owners(s)[l] {
      assert (QueueLeases(queue) + DispatcherLeases(d) + ls)[l]
          == (QueueLeases(s.q.queue) + DispatcherLeases(s.q.disp))[l];
    }
    if ls == multiset{} { assert t.mem.dropping == s.mem.dropping; }
  }

  lemma DiscardConserves(s: State)
    requires LeasesConserved(s) && s.q.queue != []
    ensures LeasesConserved(DiscardFirst(s))
  {
    hide Held, Conserved;
    QueueTrades(s, s.q.queue[1..], s.q.disp, multiset{s.q.queue[0].lease});
  }

  /** Publisher phases that hold no lease are interchangeable. */
  lemma PublisherMovesKeep(s: State, pub: Publisher)
    requires PublisherLeases(pub) == PublisherLeases(s.close.pub)
    ensures Owners(SetPublisher(s, pub)) == Owners(s)
  {
    hide Union, Sum, Conserved, Leases, QueueLeases;
  }

  lemma CloserConserves(s: State, a: Closing.Action)
    requires LeasesConserved(s) && Closing.Enabled(s, a)
    requires !s.close.closed ==> s.close.pub.NoPublisher?
    ensures LeasesConserved(Closing.Step(s, a))
  {
    hide Held, Conserved;
    hide Closing.DoBeginShutdown, Closing.DoSnapshot, Closing.DoPublishPending, Closing.DoPublishReplay;
    hide Closing.DoPublishFinish, Closing.DoDrop, DiscardFirst;
    hide Closing.DoReserveDiagnostic, Closing.DoKeepDiagnostic, Closing.DoLetGoDiagnostic;
    match a
    case FailClient(err) => ClaimKeeps(s, err);
    case BeginShutdown => ShutdownKeeps(s);
    case Snapshot(turns, runs, finishing) => SnapshotConserves(s, turns, runs, finishing);
    case PublishPending => PublishPendingConserves(s);
    case PublishReplay => PublishReplayConserves(s);
    case PublishFinish => PublishFinishConserves(s);
    case PublishDone => PublisherMovesKeep(s, Published);
    case Cancel =>
    case Stop =>
    case DiscardQueued => DiscardConserves(s);
    case Drop(l) => DropConserves(s, l);
    case ReserveDiagnostic(bytes) => ReserveDiagnosticConserves(s, bytes);
    case KeepDiagnostic(l) => KeepDiagnosticConserves(s, l);
    case LetGoDiagnostic(l) => LetGoDiagnosticConserves(s, l);
  }

  lemma ShutdownKeeps(s: State)
    requires !s.close.closed ==> s.close.pub.NoPublisher?
    ensures var s' := Closing.DoBeginShutdown(s); s'.mem.budget == s.mem.budget && Owners(s') == Owners(s)
  {
    hide Union, Sum, Conserved, Leases, QueueLeases;
  }

  // --------------------------------------------------------------- dispatcher

  lemma TakeKeeps(s: State)
    requires Dispatch.CanTake(s)
    ensures Owners(Dispatch.DoTake(s)) == Owners(s)
  {
    hide Held;
    QueueTrades(s, s.q.queue[1..], Holding(s.q.queue[0]), multiset{});
  }

  lemma DeliverKeeps(s: State)
    requires Dispatch.MayDispatch(s)
    ensures Owners(Dispatch.DoDeliver(s)) == Owners(s)
    ensures Dispatch.DoDeliver(s).mem.budget == s.mem.budget
  {
    hide Held;
    QueueTrades(s, s.q.queue, Dispatch.DoDeliver(s).q.disp, multiset{s.q.disp.e.lease});
  }

  /** The dispatcher moves on without touching the lease it holds. */
  lemma DispatcherMovesKeep(s: State, d: Dispatcher)
    requires DispatcherLeases(d) == DispatcherLeases(s.q.disp)
    ensures Owners(SetDispatcher(s, d)) == Owners(s)
  {
    hide Held;
    QueueTrades(s, s.q.queue, d, multiset{});
  }

  lemma DispatchClaimKeeps(s: State)
    requires !s.close.closed ==> s.close.pub.NoPublisher?
    requires Dispatch.CanDispatchClaim(s)
    ensures Owners(Dispatch.DoDispatchClaim(s)) == Owners(s)
    ensures Dispatch.DoDispatchClaim(s).mem.budget == s.mem.budget
  {
    hide Union, Sum, Conserved, Leases, QueueLeases;
  }

  lemma DiscardHeldKeeps(s: State)
    requires Dispatch.CanDiscardHeld(s)
    ensures Owners(Dispatch.DoDiscardHeld(s)) == Owners(s)
    ensures Dispatch.DoDiscardHeld(s).mem.budget == s.mem.budget
  {
    hide Held;
    QueueTrades(s, s.q.queue, Dispatch.DoDiscardHeld(s).q.disp, multiset{s.q.disp.e.lease});
  }

  lemma DispatchCompleteKeeps(s: State)
    requires Dispatch.CanDispatchComplete(s)
    ensures Owners(Dispatch.DoDispatchComplete(s)) == Owners(s)
    ensures Dispatch.DoDispatchComplete(s).mem.budget == s.mem.budget
  {
    hide Union, Sum, Conserved, Leases, QueueLeases;
    var c := s.q.disp.completions[0];
    FinishRunKeeps(s, c.run, c.err, ClientState.ByDispatch(s.q.disp.e.frame));
    assert Owners(Dispatch.DoDispatchComplete(s))
        == Owners(FinishRun(s, c.run, c.err, ClientState.ByDispatch(s.q.disp.e.frame)));
  }

  lemma DispatcherConserves(s: State, a: Dispatch.Action)
    requires LeasesConserved(s) && Dispatch.Enabled(s, a)
    requires !s.close.closed ==> s.close.pub.NoPublisher?
    ensures LeasesConserved(Dispatch.Step(s, a))
  {
    hide Held, Conserved;
    hide Dispatch.DoDispatchComplete, Dispatch.DoDispatchClaim, Dispatch.DoDiscardHeld, DiscardFirst;
    match a
    case Take => TakeKeeps(s);
    case Deliver => DeliverKeeps(s);
    case CallbackFails(err) => DispatcherMovesKeep(s, Aborting(s.q.disp.e, Some(err)));
    case Complete => DispatchCompleteKeeps(s);
    case Next => DispatcherMovesKeep(s, Waiting);
    case Claim => DispatchClaimKeeps(s);
    case DiscardHeld => DiscardHeldKeeps(s);
    case DiscardHead => DiscardConserves(s);
    case BeginStopping =>
    case Exit => DispatcherMovesKeep(s, Exited);
  }

  // --------------------------------------------------------------- whole runs

  lemma InitConserves(h: bool, c: nat, maxCount: nat, maxBytes: nat)
    ensures LeasesConserved(Init(h, c, maxCount, maxBytes))
  {
    NewConserved(maxCount, maxBytes);
    assert Owners(Init(h, c, maxCount, maxBytes)) == multiset{};
  }

  /** Every reachable state conserves its leases; in particular neither retention
      panic is reachable. */
  lemma {:induction false} AlwaysConserved(states: seq<State>, actions: seq<Client.Action>, i: nat)
    requires Client.IsRun(states, actions) && i < |states|
    ensures LeasesConserved(states[i])
  {
    hide LeasesConserved, Frozen.CloseInv;
    hide Reader.Enabled, Reader.Step, Starter.Enabled, Starter.Step;
    hide Closing.Enabled, Closing.Step, Dispatch.Enabled, Dispatch.Step;
    if i == 0 {
      var h, c, n, b :| states[0] == Init(h, c, n, b);
      InitConserves(h, c, n, b);
    } else {
      var s := states[i - 1];
      AlwaysConserved(states, actions, i - 1);
      Frozen.CauseIffClosed(states, actions, i - 1);
      NoPublisherWhileOpen(s);
      match actions[i - 1]
      case ByReader(a) => ReaderConserves(s, a);
      case ByStarter(r, a) => StarterConserves(s, r, a);
      case ByCloser(a) => CloserConserves(s, a);
      case ByDispatcher(a) => DispatcherConserves(s, a);
    }
  }

  lemma NoPublisherWhileOpen(s: State)
    requires Frozen.CloseInv(s)
    ensures !s.close.closed ==> s.close.pub.NoPublisher?
  {
  }

  /** Once no slot holds a lease, the whole budget is free again. */
  lemma NothingLeaks(states: seq<State>, actions: seq<Client.Action>, i: nat)
    requires Client.IsRun(states, actions) && i < |states|
    requires Owners(states[i]) == multiset{}
    ensures states[i].mem.budget.count == 0 && states[i].mem.budget.bytes == 0
  {
    hide Client.IsRun, Held, Owners;
    AlwaysConserved(states, actions, i);
    var b := states[i].mem.budget;
    assert forall l <- b.leases :: b.leases[l].refs == multiset{}[l];
    SumZero(b.leases, CountCharge);
    SumZero(b.leases, ByteCharge);
  }

  lemma {:induction false} SumZero(m: map<LeaseId, Lease>, charge: Lease -> int)
    requires forall l <- m :: charge(m[l]) == 0
    ensures Sum(m, charge) == 0
    decreases |m|
  {
    if m != map[] {
      var k :| k in m;
      SumSplit(m, charge, k);
      SumZero(m - {k}, charge);
    }
  }
}
