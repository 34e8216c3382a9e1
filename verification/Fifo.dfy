/** The bounded queue and callback work: every admitted entry leaves the queue
    exactly once, every dispatch channel is closed at most once and never lost,
    and the callback-work count is exact. */
module Fifo {
  import opened Wrappers
  import opened Attribution
  import opened Retention
  import opened ExactRun
  import opened ClientState
  import Reader
  import Starter
  import Closing
  import Dispatch
  import Client
  import Frozen
  import Provenance

  /** The number of admitted entries that have left the queue. */
  function Taken(q: Queue): int { q.admitted - |q.queue| }

  predicate Holds(d: Dispatcher) { d.Holding? || d.Aborting? }

  predicate Executing(d: Dispatcher) { d.Holding? || d.Aborting? || d.Delivered? }

  /** Entries are numbered in the order of admission. */
  ghost predicate Numbered(q: Queue, capacity: nat) {
    && |q.queue| <= capacity && |q.queue| <= q.admitted
    && forall i :: 0 <= i < |q.queue| ==> q.queue[i].no == Taken(q) + i
  }

  /** Every entry that left the queue is held, delivered or discarded: exactly one
      of these. */
  ghost predicate Accounted(q: Queue) {
    && (forall n <- q.delivered :: n < Taken(q) && n !in q.discarded)
    && (forall n <- q.discarded :: n < Taken(q))
    && (Executing(q.disp) ==> q.disp.e.no < Taken(q))
    && (Holds(q.disp) ==> q.disp.e.no !in q.delivered && q.disp.e.no !in q.discarded)
    && (q.disp.Delivered? ==> q.disp.e.no in q.delivered)
    && (forall n: nat :: n < Taken(q) ==>
          n in q.delivered || n in q.discarded || (Holds(q.disp) && n == q.disp.e.no))
  }

  /** The callback-work count: queued entries and the one being executed. */
  predicate WorkExact(handler: bool, q: Queue) {
    && q.work == (if handler then |q.queue| + (if Executing(q.disp) then 1 else 0) else 0)
    && (q.disp.Delivered? || q.disp.Aborting? ==> handler)
  }

  /** What only happens once the client is closed. */
  predicate OnlyWhenClosed(closed: bool, q: Queue) {
    || closed
    || (&& q.discarded == {} && !q.stopping && !q.disp.Discarding? && !q.disp.Exited?
        && (q.disp.Aborting? ==> q.disp.failed.Some?)
        && (Executing(q.disp) ==> q.disp.e.no == Taken(q) - 1))
  }

  /** An entry knows its frame, its number and whether it is fenced evidence. */
  predicate EntryOk(e: Entry, q: Queue, owner: map<nat, RunId>) {
    e.frame in q.entryOf && q.entryOf[e.frame] == e.no && e.evidence == (e.frame in owner)
  }

  ghost predicate EntriesOk(q: Queue, owner: map<nat, RunId>, frames: nat) {
    && (forall e <- q.queue :: EntryOk(e, q, owner))
    && (Executing(q.disp) ==> EntryOk(q.disp.e, q, owner))
    && (forall f <- q.entryOf :: f < frames && q.entryOf[f] < q.admitted)
    && (forall f, g :: f in q.entryOf && g in q.entryOf && q.entryOf[f] == q.entryOf[g] ==> f == g)
  }

  /** Before admission the reader owns the frame's dispatch channel. */
  predicate ReaderOwns(rd: ClientState.Reader, q: Queue, ev: Evidence) {
    && (rd.Routed? ==> rd.frame !in q.entryOf && rd.frame !in ev.released && rd.evidence == (rd.frame in ev.owner))
    && (rd.Rejecting? ==> rd.frame !in q.entryOf && rd.frame !in ev.released && rd.fenced == (rd.frame in ev.owner))
  }

  predicate Settled(q: Queue, f: nat) { f in q.entryOf && (q.entryOf[f] in q.delivered || q.entryOf[f] in q.discarded) }

  predicate InReader(rd: ClientState.Reader, f: nat) {
    (rd.Routed? && rd.frame == f) || (rd.Rejecting? && rd.frame == f)
  }

  /** Closed channels belong to settled or rejected entries, and with callbacks
      every fenced frame's channel is open only while somebody will close it. */
  ghost predicate ReleasesOk(handler: bool, closed: bool, rd: ClientState.Reader, q: Queue, ev: Evidence, frames: nat) {
    && !ev.doubleClosed
    && (forall f <- ev.released :: f < frames && (f in q.entryOf ==> Settled(q, f)) && (!closed ==> f in q.entryOf))
    && (handler ==> forall f <- ev.owner :: f in ev.released || InReader(rd, f) || (f in q.entryOf && !Settled(q, f)))
  }

  ghost predicate QueueInv(s: State) {
    && Numbered(s.q, s.cfg.capacity) && Accounted(s.q) && WorkExact(s.cfg.handler, s.q)
    && OnlyWhenClosed(s.close.closed, s.q)
    && (s.q.disp.Exited? ==> s.q.queue == [])
    && EntriesOk(s.q, s.ev.owner, |s.log|)
    && ReaderOwns(s.reader, s.q, s.ev)
    && ReleasesOk(s.cfg.handler, s.close.closed, s.reader, s.q, s.ev, |s.log|)
  }

  // ------------------------------------------------------------ shared steps

  /** Runs, registries and the budget play no part. */
  lemma Indifferent(s: State, s': State)
    requires QueueInv(s)
    requires s'.cfg == s.cfg && s'.q == s.q && s'.reader == s.reader && s'.log == s.log
    requires s'.ev == s.ev.(ready := s'.ev.ready, completion := s'.ev.completion)
    requires s.close.closed ==> s'.close.closed
    ensures QueueInv(s')
  {
    hide Numbered, Accounted, EntriesOk;
  }

  /** The held entry leaves: delivered, or discarded once closed. */
  lemma HeldLeaves(s: State, q: Queue)
    requires QueueInv(s) && Holds(s.q.disp)
    requires q.queue == s.q.queue && q.admitted == s.q.admitted && q.entryOf == s.q.entryOf
    requires || (q.delivered == s.q.delivered + {s.q.disp.e.no} && q.discarded == s.q.discarded)
             || (q.delivered == s.q.delivered && q.discarded == s.q.discarded + {s.q.disp.e.no} && s.close.closed)
    requires !Holds(q.disp) && (Executing(q.disp) ==> q.disp.e == s.q.disp.e && q.disp.e.no in q.delivered)
    requires WorkExact(s.cfg.handler, q) && OnlyWhenClosed(s.close.closed, q)
    requires q.disp.Exited? ==> q.queue == []
    ensures QueueInv(ReleaseWaiter(s, s.q.disp.e.frame, s.q.disp.e.evidence).(q := q))
  {
  }

  predicate HeadGone(a: Queue, b: Queue) {
    && a.queue != [] && b.queue == a.queue[1..] && b.admitted == a.admitted && b.entryOf == a.entryOf
    && b.disp == a.disp && b.stopping == a.stopping
    && b.delivered == a.delivered && b.discarded == a.discarded + {a.queue[0].no}
  }

  lemma HeadAccounted(a: Queue, b: Queue, capacity: nat)
    requires Numbered(a, capacity) && Accounted(a) && HeadGone(a, b)
    ensures Numbered(b, capacity) && Accounted(b) && a.queue[0].no == Taken(a)
  {
    assert Taken(b) == Taken(a) + 1;
    assert a.queue[0].no == Taken(a);
    forall i | 0 <= i < |b.queue| ensures b.queue[i].no == Taken(b) + i {
      assert b.queue[i] == a.queue[i + 1];
    }
    hide Numbered;
    HeadSettled(a, b);
  }

  lemma HeadSettled(a: Queue, b: Queue)
    requires Accounted(a) && HeadGone(a, b) && Taken(b) == Taken(a) + 1 && a.queue[0].no == Taken(a)
    ensures Accounted(b)
  {
    forall n: nat | n < Taken(b)
      ensures n in b.delivered || n in b.discarded || (Holds(b.disp) && n == b.disp.e.no)
    {
      assert n < Taken(a) || n == a.queue[0].no;
    }
  }

  lemma HeadEntries(a: Queue, b: Queue, owner: map<nat, RunId>, frames: nat)
    requires EntriesOk(a, owner, frames) && HeadGone(a, b)
    ensures EntriesOk(b, owner, frames) && EntryOk(a.queue[0], a, owner)
  {
    assert forall e <- b.queue :: e in a.queue;
  }

  lemma HeadReleases(s: State, q: Queue)
    requires QueueInv(s) && HeadGone(s.q, q) && EntryOk(s.q.queue[0], s.q, s.ev.owner) && s.q.queue[0].no == Taken(s.q)
    requires s.close.closed
    ensures var ev := ReleaseWaiter(s, s.q.queue[0].frame, s.q.queue[0].evidence).ev;
            ReaderOwns(s.reader, q, ev)
            && ReleasesOk(s.cfg.handler, s.close.closed, s.reader, q, ev, |s.log|)
  {
    hide Numbered;
  }

  /** The head of the queue is discarded, whoever does it. */
  lemma HeadDiscarded(s: State)
    requires QueueInv(s) && s.q.queue != [] && s.close.closed
    ensures QueueInv(DiscardFirst(s))
  {
    hide Numbered, Accounted, EntriesOk, ReaderOwns, ReleasesOk, EntryOk;
    var s' := DiscardFirst(s);
    HeadAccounted(s.q, s'.q, s.cfg.capacity);
    HeadEntries(s.q, s'.q, s.ev.owner, |s.log|);
    HeadReleases(s, s'.q);
  }

  // ------------------------------------------------------------------- reader

  /** A frame is ingested; it is nobody's evidence or parked evidence. */
  lemma IngestedQueue(s: State, s': State)
    requires QueueInv(s) && Provenance.EvidenceOk(s.log, s.ev) && s.reader.Idle?
    requires s'.cfg == s.cfg && s'.q == s.q && s'.close == s.close && |s'.log| == |s.log| + 1
    requires s'.reader.Routed? && s'.reader.frame == |s.log|
    requires s'.ev == s.ev.(owner := s'.ev.owner) && (|s.log| in s'.ev.owner <==> s'.reader.evidence)
    requires forall f :: f != |s.log| ==> (f in s'.ev.owner <==> f in s.ev.owner)
    ensures QueueInv(s')
  {
    hide Numbered, Accounted, OnlyWhenClosed;
  }

  lemma RouteShape(s: State, note: Note, order: seq<RunId>, bytes: nat)
    requires Reader.CanRoute(s, note, order) && |s.log| !in s.ev.owner
    ensures var s' := Reader.DoRoute(s, note, order, bytes);
            && s.reader.Idle? && s'.cfg == s.cfg && s'.q == s.q && s'.close == s.close && |s'.log| == |s.log| + 1
            && s'.reader.Routed? && s'.reader.frame == |s.log|
            && s'.ev == s.ev.(owner := s'.ev.owner) && (|s.log| in s'.ev.owner <==> s'.reader.evidence)
            && (forall f :: f != |s.log| ==> (f in s'.ev.owner <==> f in s.ev.owner))
  {
    hide Reserve, Parkable;
  }

  lemma RouteQueue(s: State, note: Note, order: seq<RunId>, bytes: nat)
    requires QueueInv(s) && Provenance.EvidenceOk(s.log, s.ev) && Reader.CanRoute(s, note, order)
    ensures QueueInv(Reader.DoRoute(s, note, order, bytes))
  {
    hide QueueInv, Reader.DoRoute, Reader.CanRoute;
    RouteShape(s, note, order, bytes);
    IngestedQueue(s, Reader.DoRoute(s, note, order, bytes));
  }

  lemma AdmittedQueue(a: Queue, b: Queue, e: Entry, capacity: nat, owner: map<nat, RunId>, frames: nat)
    requires Numbered(a, capacity) && Accounted(a) && EntriesOk(a, owner, frames)
    requires |a.queue| < capacity && e.no == a.admitted && e.frame !in a.entryOf && e.frame < frames
    requires e.evidence == (e.frame in owner)
    requires b.queue == a.queue + [e] && b.admitted == a.admitted + 1 && b.entryOf == a.entryOf[e.frame := e.no]
    requires b.disp == a.disp && b.delivered == a.delivered && b.discarded == a.discarded
    ensures Numbered(b, capacity) && Accounted(b) && EntriesOk(b, owner, frames)
  {
    hide Accounted;
    assert forall x <- b.queue :: x in a.queue || x == e;
    AdmittedAccounted(a, b);
  }

  lemma AdmittedAccounted(a: Queue, b: Queue)
    requires Accounted(a) && Taken(a) == Taken(b)
    requires b.disp == a.disp && b.delivered == a.delivered && b.discarded == a.discarded
    ensures Accounted(b)
  {
  }

  lemma AdmittedReleases(s: State, q: Queue)
    requires QueueInv(s) && s.reader.Routed? && !s.close.closed
    requires q.entryOf == s.q.entryOf[s.reader.frame := s.q.admitted] && q.delivered == s.q.delivered
    requires q.discarded == s.q.discarded
    ensures forall inline :: ReleasesOk(s.cfg.handler, false, Completing(inline), q, s.ev, |s.log|)
  {
    hide OnlyWhenClosed, EntriesOk;
  }

  lemma EnqueueQueue(s: State, count: nat, bytes: nat)
    requires QueueInv(s) && Provenance.ReaderOk(s.log, s.reader) && Reader.CanReaderEnqueue(s)
    ensures QueueInv(Reader.DoReaderEnqueue(s, count, bytes))
  {
    hide Reserve, Numbered, Accounted, EntriesOk, ReleasesOk;
    var s' := Reader.DoReaderEnqueue(s, count, bytes);
    if s'.reader.Completing? {
      AdmittedQueue(s.q, s'.q, s'.q.queue[|s.q.queue|], s.cfg.capacity, s.ev.owner, |s.log|);
      AdmittedReleases(s, s'.q);
    } else {
      RejectedReleases(s, s'.reader);
    }
  }

  lemma RejectedReleases(s: State, rd: ClientState.Reader)
    requires QueueInv(s) && s.reader.Routed? && rd.Rejecting? && rd.frame == s.reader.frame
    ensures ReleasesOk(s.cfg.handler, s.close.closed, rd, s.q, s.ev, |s.log|)
  {
    hide OnlyWhenClosed, EntriesOk, Numbered, Accounted;
  }

  /** The reader goes on without touching queue or evidence. */
  lemma ReaderGoesOn(s: State, s': State)
    requires QueueInv(s)
    requires s'.cfg == s.cfg && s'.q == s.q && s'.log == s.log && s'.ev == s.ev
    requires s.close.closed ==> s'.close.closed
    requires s'.reader.Routed? == s.reader.Routed? && s'.reader.Rejecting? == s.reader.Rejecting?
    requires s.reader.Routed? ==> s'.reader.frame == s.reader.frame && s'.reader.evidence == s.reader.evidence
    requires s.reader.Rejecting? ==> s'.reader.frame == s.reader.frame && s'.reader.fenced == s.reader.fenced
    ensures QueueInv(s')
  {
    hide Numbered, Accounted, EntriesOk;
  }

  lemma RejectQueue(s: State)
    requires QueueInv(s) && Provenance.ReaderOk(s.log, s.reader) && s.close.closed && Reader.CanReaderReject(s)
    ensures QueueInv(Reader.DoReaderReject(s))
  {
    hide Numbered, Accounted, EntriesOk, OnlyWhenClosed;
  }

  lemma AcceptQueue(s: State, bytes: nat)
    requires QueueInv(s) && Reader.CanReaderAccept(s)
    ensures QueueInv(Reader.DoReaderAccept(s, bytes))
  {
    hide Reserve, Admissible, QueueInv, AcceptRetained;
    var rd := s.reader;
    var l := Reserve(s.mem.budget, 3, bytes).1;
    if l.Some? {
      var s1 := LetGo(s.(reader := rd.(targets := rd.targets[1..])), multiset{l.value});
      AcceptFrame(s1.(mem := s1.mem.(budget := Reserve(s.mem.budget, 3, bytes).0)), rd.targets[0],
                  Parked(rd.frame, rd.note, l.value));
    }
    ReaderGoesOn(s, Reader.DoReaderAccept(s, bytes));
  }

  lemma ReaderQueue(s: State, a: Reader.Action)
    requires QueueInv(s) && Provenance.ProvenanceInv(s) && Frozen.CloseInv(s) && Reader.Enabled(s, a)
    ensures QueueInv(Reader.Step(s, a))
  {
    hide Reserve, QueueInv, Provenance.ProvenanceInv, Provenance.ReaderOk, Provenance.SlotsOk, Provenance.PendOk;
    hide Provenance.ThreadPendOk, Provenance.PublisherOk, Provenance.EvidenceOk;
    hide Reader.DoRoute, Reader.DoReaderEnqueue, Reader.DoReaderAccept, Reader.DoReaderReject, Reader.CanRoute;
    Provenance.Known(s);
    match a
    case Route(note, order, bytes) => RouteQueue(s, note, order, bytes);
    case Enqueue(count, bytes) => EnqueueQueue(s, count, bytes);
    case Accept(bytes) => AcceptQueue(s, bytes);
    case Reject => RejectQueue(s);
    case _ => ReaderGoesOn(s, Reader.Step(s, a));
  }

  // ----------------------------------------------------- starters and closers

  lemma StarterQueue(s: State, r: RunId, a: Starter.Action)
    requires QueueInv(s) && Starter.Enabled(s, r, a)
    ensures QueueInv(Starter.Step(s, r, a))
  {
    hide QueueInv, Starter.Step, Starter.Enabled;
    StarterFrame(s, r, a);
    Indifferent(s, Starter.Step(s, r, a));
  }

  predicate Elsewhere(s: State, s': State) {
    && s'.cfg == s.cfg && s'.q == s.q && s'.reader == s.reader && s'.log == s.log
    && s'.ev == s.ev.(ready := s'.ev.ready, completion := s'.ev.completion) && s'.close == s.close
  }

  lemma StarterFrame(s: State, r: RunId, a: Starter.Action)
    requires Starter.Enabled(s, r, a)
    ensures Elsewhere(s, Starter.Step(s, r, a))
  {
    hide Resolve, AcceptRetained, Leases;
    hide Starter.DoRegister, Starter.DoAttachPublish, Starter.DoFinishCollect, Starter.DoUnregister;
    match a
    case Register => RegisterFrame(s, r);
    case RegisterAccept => AcceptFrame(s, r, s.slots[r].caller.list[s.slots[r].caller.regNext]);
    case AttachPublish => RegistryFrames(s, r, a);
    case AttachResolve =>
      var p := s.slots[r].caller.list[s.slots[r].caller.next];
      ResolveFrame(s, p, r);
      ResolveEvidence(s, p, r);
    case FinishCollect => RegistryFrames(s, r, a);
    case FinishResolve =>
      var p := s.slots[r].caller.list[s.slots[r].caller.finNext];
      ResolveFrame(s, p, r);
      ResolveEvidence(s, p, r);
    case Unregister => RegistryFrames(s, r, a);
    case _ =>
  }

  lemma RegisterFrame(s: State, r: RunId)
    requires Starter.CanRegister(s, r)
    ensures Elsewhere(s, Starter.DoRegister(s, r))
  {
  }

  lemma RegistryFrames(s: State, r: RunId, a: Starter.Action)
    requires Starter.Enabled(s, r, a) && (a.AttachPublish? || a.FinishCollect? || a.Unregister?)
    ensures Elsewhere(s, Starter.Step(s, r, a))
  {
    hide Without, With, Starter.Mine, Starter.KeepOthers;
  }

  lemma ResolveShape(s: State, p: Parked)
    ensures p.no in s.ev.owner ==> Elsewhere(s, Resolve(s, p, s.ev.owner[p.no]))
  {
    if p.no in s.ev.owner {
      ResolveFrame(s, p, s.ev.owner[p.no]);
      ResolveEvidence(s, p, s.ev.owner[p.no]);
    }
  }

  lemma PublishFinishFrame(s: State)
    requires QueueInv(s) && Closing.CanPublishFinish(s)
    ensures QueueInv(Closing.DoPublishFinish(s))
  {
    hide QueueInv;
    Indifferent(s, Closing.DoPublishFinish(s));
  }

  lemma ResolveEvidence(s: State, p: Parked, r: RunId)
    ensures var t := Resolve(s, p, r); t.ev == s.ev.(ready := t.ev.ready, completion := t.ev.completion)
  {
    hide AcceptRetained;
    AcceptFrame(s, r, p);
  }

  lemma CloserQueue(s: State, a: Closing.Action)
    requires QueueInv(s) && Frozen.CloseInv(s) && Closing.Enabled(s, a)
    ensures QueueInv(Closing.Step(s, a))
  {
    hide QueueInv, Resolve, FinishRun, Release, DiscardFirst, Closing.CanSnapshot, Concat, ConcatReplays, RetainAll;
    hide Closing.Overtakes, Closing.MarkAll, Closing.DoPublishFinish;
    match a
    case DiscardQueued => HeadDiscarded(s);
    case PublishPending =>
      ResolveShape(s, s.close.pub.pending[0]);
      Indifferent(s, Closing.Step(s, a));
    case PublishReplay =>
      ResolveShape(s, s.close.pub.replay[0]);
      Indifferent(s, Closing.Step(s, a));
    case PublishFinish => PublishFinishFrame(s);
    case _ => Indifferent(s, Closing.Step(s, a));
  }

  // --------------------------------------------------------------- dispatcher

  lemma TakenQueue(s: State)
    requires QueueInv(s) && Dispatch.CanTake(s)
    ensures QueueInv(Dispatch.DoTake(s))
  {
    assert s.q.queue[0] in s.q.queue && s.q.queue[0].no == Taken(s.q);
    assert forall e <- s.q.queue[1..] :: e in s.q.queue;
  }

  lemma DeliverQueue(s: State)
    requires QueueInv(s) && Dispatch.MayDispatch(s)
    ensures QueueInv(Dispatch.DoDeliver(s))
  {
    hide Numbered, Accounted, EntriesOk, ReaderOwns, ReleasesOk;
    assert s.q.disp.e.no !in s.q.discarded by { HeldOnce(s.q); }
    HeldLeaves(s, Dispatch.DoDeliver(s).q);
  }

  lemma HeldOnce(q: Queue)
    requires Accounted(q) && Holds(q.disp)
    ensures q.disp.e.no !in q.delivered && q.disp.e.no !in q.discarded
  {
  }

  lemma DiscardHeldQueue(s: State)
    requires QueueInv(s) && Frozen.CloseInv(s) && Dispatch.CanDiscardHeld(s)
    ensures QueueInv(Dispatch.DoDiscardHeld(s))
  {
    hide Numbered, Accounted, EntriesOk, ReaderOwns, ReleasesOk;
    HeldOnce(s.q);
    HeldLeaves(s, Dispatch.DoDiscardHeld(s).q);
  }

  /** The dispatcher goes on with the entry it has, or with none. */
  lemma DispatcherGoesOn(s: State, s': State)
    requires QueueInv(s)
    requires s'.cfg == s.cfg && s'.log == s.log && s'.reader == s.reader
    requires s'.ev == s.ev.(ready := s'.ev.ready) && (s.close.closed ==> s'.close.closed)
    requires s'.q == s.q.(disp := s'.q.disp, stopping := s'.q.stopping, work := s'.q.work)
    requires Holds(s'.q.disp) == Holds(s.q.disp)
    requires Executing(s'.q.disp) ==> Executing(s.q.disp) && s'.q.disp.e == s.q.disp.e
    requires s'.q.disp.Delivered? ==> s.q.disp.Delivered?
    requires WorkExact(s'.cfg.handler, s'.q) && OnlyWhenClosed(s'.close.closed, s'.q)
    requires s'.q.disp.Exited? ==> s'.q.queue == []
    ensures QueueInv(s')
  {
  }

  lemma DispatcherQueue(s: State, a: Dispatch.Action)
    requires QueueInv(s) && Frozen.CloseInv(s) && Dispatch.Enabled(s, a)
    ensures QueueInv(Dispatch.Step(s, a))
  {
    hide Numbered, Accounted, EntriesOk, ReaderOwns, ReleasesOk, FinishRun;
    hide Dispatch.DoTake, Dispatch.DoDeliver, Dispatch.DoDiscardHeld, DiscardFirst, Dispatch.DoDispatchComplete;
    match a
    case Take => TakenQueue(s);
    case Deliver => DeliverQueue(s);
    case Complete => CompleteQueue(s);
    case DiscardHeld => DiscardHeldQueue(s);
    case DiscardHead => HeadDiscarded(s);
    case _ => DispatcherGoesOn(s, Dispatch.Step(s, a));
  }

  lemma CompleteQueue(s: State)
    requires QueueInv(s) && Dispatch.CanDispatchComplete(s)
    ensures QueueInv(Dispatch.DoDispatchComplete(s))
  {
    hide Numbered, Accounted, EntriesOk, ReaderOwns, ReleasesOk;
    DispatcherGoesOn(s, Dispatch.DoDispatchComplete(s));
  }

  // --------------------------------------------------------------- whole runs

  /** The queue and callback-work accounting holds in every reachable state. */
  lemma {:induction false} AlwaysAccounted(states: seq<State>, actions: seq<Client.Action>, i: nat)
    requires Client.IsRun(states, actions) && i < |states|
    ensures QueueInv(states[i])
  {
    hide QueueInv, Frozen.CloseInv, Provenance.ProvenanceInv;
    hide Reader.Enabled, Reader.Step, Starter.Enabled, Starter.Step;
    hide Closing.Enabled, Closing.Step, Dispatch.Enabled, Dispatch.Step;
    if i == 0 {
      InitAccounted(states[0]);
    } else {
      var s := states[i - 1];
      AlwaysAccounted(states, actions, i - 1);
      Frozen.CauseIffClosed(states, actions, i - 1);
      Provenance.AlwaysGenuine(states, actions, i - 1);
      match actions[i - 1]
      case ByReader(a) => ReaderQueue(s, a);
      case ByStarter(r, a) => StarterQueue(s, r, a);
      case ByCloser(a) => CloserQueue(s, a);
      case ByDispatcher(a) => DispatcherQueue(s, a);
    }
  }

  lemma InitAccounted(s: State)
    requires Client.IsInit(s)
    ensures QueueInv(s)
  {
  }

  /** Outcomes are final, admissions stay, and an exited dispatcher stays exited. */
  ghost predicate QueueEvolves(a: Queue, b: Queue) {
    && a.delivered <= b.delivered && a.discarded <= b.discarded
    && a.admitted <= b.admitted && Taken(a) <= Taken(b)
    && (forall f <- a.entryOf :: f in b.entryOf && b.entryOf[f] == a.entryOf[f])
    && (a.disp.Exited? ==> b.disp.Exited?)
  }

  lemma ReaderQueueEvolves(s: State, a: Reader.Action)
    requires QueueInv(s) && Provenance.ReaderOk(s.log, s.reader) && Reader.Enabled(s, a)
    ensures QueueEvolves(s.q, Reader.Step(s, a).q)
  {
    hide Reserve, Numbered, Accounted, ReleasesOk, Reader.CanRoute, Reader.DoRoute, Reader.DoReaderAccept;
    match a
    case Route(note, order, bytes) => RouteKeepsQueue(s, note, order, bytes);
    case Accept(bytes) => AcceptKeepsQueue(s, bytes);
    case _ =>
  }

  lemma RouteKeepsQueue(s: State, note: Note, order: seq<RunId>, bytes: nat)
    requires Reader.CanRoute(s, note, order)
    ensures Reader.DoRoute(s, note, order, bytes).q == s.q
  {
    hide Reserve, Parkable, Reader.CanRoute;
  }

  lemma AcceptKeepsQueue(s: State, bytes: nat)
    requires Reader.CanReaderAccept(s)
    ensures Reader.DoReaderAccept(s, bytes).q == s.q
  {
    hide Reserve, Admissible;
  }

  lemma CloserQueueEvolves(s: State, a: Closing.Action)
    requires QueueInv(s) && Closing.Enabled(s, a)
    ensures QueueEvolves(s.q, Closing.Step(s, a).q)
  {
    hide Numbered, Accounted, ReleasesOk, Resolve, FinishRun, Release, Closing.CanSnapshot, Closing.DoSnapshot;
    hide Closing.DoPublishFinish;
    match a
    case PublishPending => ResolveShape(s, s.close.pub.pending[0]);
    case PublishReplay => ResolveShape(s, s.close.pub.replay[0]);
    case PublishFinish => FinishKeepsQueue(s);
    case Snapshot(turns, runs, finishing) => SnapshotKeepsQueue(s, turns, runs, finishing);
    case _ =>
  }

  lemma FinishKeepsQueue(s: State)
    requires Closing.CanPublishFinish(s)
    ensures Closing.DoPublishFinish(s).q == s.q
  {
  }

  lemma SnapshotKeepsQueue(s: State, turns: seq<Id>, runs: seq<RunId>, finishing: seq<RunId>)
    requires Closing.CanSnapshot(s, turns, runs, finishing)
    ensures Closing.DoSnapshot(s, turns, runs, finishing).q == s.q
  {
    hide Closing.CanSnapshot, Concat, ConcatReplays, RetainAll, Closing.MarkAll, Closing.Overtakes;
  }

  lemma DispatcherQueueEvolves(s: State, a: Dispatch.Action)
    requires QueueInv(s) && Dispatch.Enabled(s, a)
    ensures QueueEvolves(s.q, Dispatch.Step(s, a).q)
  {
    hide Numbered, Accounted, ReleasesOk;
  }

  /** Between any two points of a run: an entry delivered stays delivered and is
      never discarded, one discarded stays so, and after the dispatcher exited the
      queue is empty for good. */
  lemma {:induction false} OutcomesAreFinal(states: seq<State>, actions: seq<Client.Action>, i: nat, j: nat)
    requires Client.IsRun(states, actions) && i <= j < |states|
    ensures QueueEvolves(states[i].q, states[j].q)
    ensures states[i].q.disp.Exited? ==> states[j].q.disp.Exited? && states[j].q.queue == []
    ensures states[i].q.delivered !! states[j].q.discarded
    decreases j
  {
    hide Numbered, WorkExact, OnlyWhenClosed, EntriesOk, ReaderOwns, ReleasesOk, Provenance.ProvenanceInv;
    hide Reader.Enabled, Reader.Step, Starter.Enabled, Starter.Step;
    hide Closing.Enabled, Closing.Step, Dispatch.Enabled, Dispatch.Step;
    AlwaysAccounted(states, actions, j);
    if i < j {
      var s := states[j - 1];
      OutcomesAreFinal(states, actions, i, j - 1);
      AlwaysAccounted(states, actions, j - 1);
      Provenance.AlwaysGenuine(states, actions, j - 1);
      Provenance.Known(s);
      match actions[j - 1]
      case ByReader(a) => ReaderQueueEvolves(s, a);
      case ByStarter(r, a) => StarterFrame(s, r, a);
      case ByCloser(a) => CloserQueueEvolves(s, a);
      case ByDispatcher(a) => DispatcherQueueEvolves(s, a);
    }
  }
}
