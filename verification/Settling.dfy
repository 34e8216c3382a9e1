/** Nothing is lost while the client is open: every ingested frame is admitted to the
    queue, and every run whose turn completed has its completion on the way. When the
    client comes to rest, all frames have been delivered and all such runs finished. */
module Settling {
  import opened Wrappers
  import opened Attribution
  import opened Retention
  import opened ExactRun
  import opened ClientState
  import opened Phases
  import opened Reached
  import Reader
  import Starter
  import Closing
  import Dispatch
  import Client
  import Fifo
  import Frozen
  import Once
  import Provenance
  import Publication
  import Registration
  import Replay
  import Scope
  import Totals

  /** Closed, or about to be: the reader refused a frame or a callback failed. */
  predicate Failing(s: State) { s.close.closed || s.reader.Rejecting? || s.q.disp.Aborting? }

  predicate HasFor(cs: seq<Completion>, r: RunId) { exists k :: 0 <= k < |cs| && cs[k].run == r }

  predicate WithReader(rd: ClientState.Reader, r: RunId) {
    match rd
    case Routed(_, _, _, completions, _, _) => HasFor(completions, r)
    case Completing(inline) => HasFor(inline, r)
    case _ => false
  }

  predicate Queued(queue: seq<Entry>, r: RunId) { exists k :: 0 <= k < |queue| && HasFor(queue[k].completions, r) }

  predicate WithDispatcher(d: Dispatcher, r: RunId) {
    match d
    case Holding(e) => HasFor(e.completions, r)
    case Delivered(_, completions) => HasFor(completions, r)
    case _ => false
  }

  predicate FromRegistration(c: Caller, r: RunId) { c.RegReplay? && c.todo.Some? && c.todo.value.run == r }

  /** The starter still has the frame's completion to see to. */
  predicate InList(c: Caller, no: nat) {
    match c
    case Replay(list, next, _) => exists k :: next <= k < |list| && list[k].no == no
    case FinResolve(list, _) => exists k :: 0 <= k < |list| && list[k].no == no
    case FinComplete(list, doneNext) => exists k :: doneNext <= k < |list| && list[k].no == no
    case _ => false
  }

  /** Evidence `no` holds the run's completion, for the dispatcher when there are
      callbacks and else for the run's starter. */
  predicate HeldBy(handler: bool, ev: Evidence, c: Caller, r: RunId, no: nat) {
    && no in ev.completion && ev.completion[no].run == r
    && (if handler then no in ev.owner && no !in ev.released else InList(c, no))
  }

  ghost predicate FromEvidence(handler: bool, ev: Evidence, c: Caller, r: RunId) { exists no :: HeldBy(handler, ev, c, r, no) }

  /** The run's completion is on its way. */
  ghost predicate InFlight(s: State, r: RunId)
    requires r in s.slots
  {
    || WithReader(s.reader, r) || Queued(s.q.queue, r) || WithDispatcher(s.q.disp, r)
    || FromRegistration(s.slots[r].caller, r)
    || FromEvidence(s.cfg.handler, s.ev, s.slots[r].caller, r)
  }

  predicate Ended(run: Run) { run.terminalAdmitted && !run.terminal }

  ghost predicate NoneLost(s: State) { forall r <- s.slots :: Ended(s.slots[r].run) ==> InFlight(s, r) }

  ghost predicate AllAdmitted(s: State) {
    forall f: nat :: f < |s.log| ==> f in s.q.entryOf || (s.reader.Routed? && s.reader.frame == f)
  }

  /** A dispatch channel is closed only for resolved evidence. */
  ghost predicate ReleasedReady(ev: Evidence) { forall f <- ev.released :: f in ev.owner ==> f in ev.ready }

  /** Without callbacks the queue carries no completions. */
  ghost predicate Plain(q: Queue) {
    (forall e <- q.queue :: e.completions == []) && (q.disp.Holding? ==> q.disp.e.completions == [])
  }

  ghost predicate Settles(s: State) {
    && (Failing(s) || (NoneLost(s) && AllAdmitted(s) && ReleasedReady(s.ev)))
    && (s.cfg.handler || Plain(s.q))
  }

  // ------------------------------------------------------------- shared steps

  /** What carries completions elsewhere is as before. */
  predicate SameElsewhere(s: State, t: State) {
    t.reader == s.reader && t.q == s.q && t.cfg == s.cfg && t.log == s.log && t.close.closed == s.close.closed
  }

  /** A run other than those that end now, whose starter keeps what it has to see to. */
  ghost predicate Keeps(s: State, t: State, r: RunId)
    requires r in t.slots
  {
    Ended(t.slots[r].run) ==>
      && r in s.slots && Ended(s.slots[r].run)
      && (FromRegistration(s.slots[r].caller, r) ==> FromRegistration(t.slots[r].caller, r))
      && forall no :: InList(s.slots[r].caller, no) && no in s.ev.completion && s.ev.completion[no].run == r
                      && !s.cfg.handler ==>
                        InList(t.slots[r].caller, no)
  }

  lemma KeepsLost(s: State, t: State, r: RunId)
    requires r in s.slots && r in t.slots && SameElsewhere(s, t) && t.ev == s.ev && Keeps(s, t, r)
    requires Ended(t.slots[r].run) && InFlight(s, r)
    ensures InFlight(t, r)
  {
    hide InList, WithReader, Queued, WithDispatcher, HasFor;
    if no :| HeldBy(s.cfg.handler, s.ev, s.slots[r].caller, r, no) {
      assert HeldBy(t.cfg.handler, t.ev, t.slots[r].caller, r, no);
    }
  }

  /** A starter's step that resolves nothing. */
  lemma StarterKeeps(s: State, t: State)
    requires Settles(s) && SameElsewhere(s, t) && t.ev == s.ev && forall r <- t.slots :: Keeps(s, t, r)
    ensures Settles(t)
  {
    hide InFlight, Keeps, ReleasedReady, Plain;
    if !Failing(t) {
      forall r <- t.slots | Ended(t.slots[r].run) ensures InFlight(t, r) {
        assert Keeps(s, t, r);
        KeptFlight(s, t, r);
      }
    }
  }

  lemma KeptFlight(s: State, t: State, r: RunId)
    requires NoneLost(s) && r in t.slots && SameElsewhere(s, t) && t.ev == s.ev && Keeps(s, t, r)
    requires Ended(t.slots[r].run)
    ensures InFlight(t, r)
  {
    hide InFlight, SameElsewhere, InList;
    KeepsLost(s, t, r);
  }

  lemma SlotSame(s: State, t: State, r: RunId)
    requires r in s.slots && r in t.slots && t.slots[r].caller == s.slots[r].caller
    requires Ended(t.slots[r].run) ==> Ended(s.slots[r].run)
    ensures Keeps(s, t, r)
  {
    hide InList, FromRegistration;
  }

  /** Memory, registries and publication play no part. */
  lemma Indifferent(s: State, t: State)
    requires Settles(s) && SameElsewhere(s, t) && t.slots == s.slots && t.ev == s.ev
    ensures Settles(t)
  {
    hide Keeps;
    forall r <- t.slots ensures Keeps(s, t, r) { SlotSame(s, t, r); }
    StarterKeeps(s, t);
  }

  lemma StillFailing(s: State, t: State)
    requires Settles(s) && Failing(t) && t.cfg == s.cfg && (t.cfg.handler || (Plain(s.q) ==> Plain(t.q)))
    ensures Settles(t)
  {
    hide Failing, NoneLost, AllAdmitted, ReleasedReady, Plain;
  }

  // ----------------------------------------------------------------- starters

  /** A starter moves on; its run may finish meanwhile. */
  lemma CallerKeeps(s: State, t: State, q: RunId)
    requires SameElsewhere(s, t) && q in s.slots && q in t.slots && Keeps(s, t, q)
    requires forall r <- t.slots :: r != q ==>
               r in s.slots && t.slots[r].caller == s.slots[r].caller && (Ended(t.slots[r].run) ==> Ended(s.slots[r].run))
    ensures forall r <- t.slots :: Keeps(s, t, r)
  {
    hide Keeps, SameElsewhere;
    forall r <- t.slots ensures Keeps(s, t, r) {
      if r != q { SlotSame(s, t, r); }
    }
  }

  /** What finishing a run leaves alone. */
  lemma FinishShape(s: State, q: RunId, err: Option<Err>, via: Via)
    ensures var t := FinishRun(s, q, err, via);
            && t == s.(slots := t.slots, unreg := t.unreg) && t.slots.Keys == s.slots.Keys
            && (q in s.slots ==> t.slots[q].run.terminal)
            && forall r <- t.slots ::
                 t.slots[r].caller == s.slots[r].caller && (Ended(t.slots[r].run) ==> Ended(s.slots[r].run))
  {
  }

  /** Every starter's step but creation, registration and resolution: only the starter's
      position and the terminal flags of runs change. */
  predicate MovesOn(s: State, t: State, q: RunId) {
    && SameElsewhere(s, t) && t.ev == s.ev && t.slots.Keys == s.slots.Keys && q in s.slots
    && forall r <- t.slots ::
         (Ended(t.slots[r].run) ==> Ended(s.slots[r].run)) && (r != q ==> t.slots[r].caller == s.slots[r].caller)
  }

  predicate Registering(a: Starter.Action) { a.Register? || a.AttachPublish? || a.FinishCollect? || a.Unregister? }

  predicate Finishes(a: Starter.Action) {
    a.RegisterComplete? || a.FinishRefused? || a.AttachNext? || a.FinishComplete? || a.FinishEnd? || a.ExternalFinish?
  }

  lemma SimpleMoves(s: State, q: RunId, a: Starter.Action)
    requires Starter.Enabled(s, q, a) && !a.CreateRun? && !a.RegisterAccept? && !a.AttachResolve? && !a.FinishResolve?
    ensures MovesOn(s, Starter.Step(s, q, a), q)
  {
    if Registering(a) {
      RegistryMoves(s, q, a);
    } else if Finishes(a) {
      FinishMoves(s, q, a);
    } else {
      PlainMoves(s, q, a);
    }
    hide *;
  }

  lemma PlainMoves(s: State, q: RunId, a: Starter.Action)
    requires Starter.Enabled(s, q, a) && !Registering(a) && !Finishes(a)
    requires !a.CreateRun? && !a.RegisterAccept? && !a.AttachResolve? && !a.FinishResolve?
    ensures MovesOn(s, Starter.Step(s, q, a), q)
  {
    hide ListLeases;
  }

  /** A starter moves on and some run finishes. */
  lemma MovesAndFinishes(s: State, q: RunId, c: Caller, ls: multiset<LeaseId>, r: RunId, err: Option<Err>, via: Via)
    requires q in s.slots
    ensures MovesOn(s, FinishRun(SetCaller(s, q, c), r, err, via), q) && MovesOn(s, SetCaller(s, q, c), q)
    ensures MovesOn(s, FinishRun(LetGo(SetCaller(s, q, c), ls), r, err, via), q)
  {
    hide FinishRun;
    FinishShape(SetCaller(s, q, c), r, err, via);
    FinishShape(LetGo(SetCaller(s, q, c), ls), r, err, via);
  }

  lemma FinishMoves(s: State, q: RunId, a: Starter.Action)
    requires Starter.Enabled(s, q, a) && Finishes(a)
    ensures MovesOn(s, Starter.Step(s, q, a), q)
  {
    hide FinishRun, ListLeases, MovesOn, SetCaller, LetGo;
    match a
    case RegisterComplete =>
      var c := s.slots[q].caller;
      MovesAndFinishes(s, q, c.(todo := None), multiset{}, c.todo.value.run, c.todo.value.err, ByRegister);
    case FinishRefused => MovesAndFinishes(s, q, Over, multiset{}, q, Some(s.slots[q].caller.refusal), ByError);
    case AttachNext =>
      var c := s.slots[q].caller;
      var no := c.list[c.next].no;
      var d := if no in s.ev.completion then s.ev.completion[no] else Completion(q, None);
      MovesAndFinishes(s, q, c.(next := c.next + 1, resolved := false), multiset{}, d.run, d.err, ByReplay);
    case FinishComplete =>
      var c := s.slots[q].caller;
      var no := c.list[c.doneNext].no;
      var d := if no in s.ev.completion then s.ev.completion[no] else Completion(q, None);
      MovesAndFinishes(s, q, c.(doneNext := c.doneNext + 1), multiset{}, d.run, d.err, ByFinish(no));
    case FinishEnd(err) => MovesAndFinishes(s, q, Over, ListLeases(s.slots[q].caller.list), q, Some(err), ByError);
    case ExternalFinish(err) => ExternalMoves(s, q, err);
    case _ =>
  }

  lemma ExternalMoves(s: State, q: RunId, err: Err)
    requires q in s.slots
    ensures MovesOn(s, FinishRun(s, q, Some(err), ByError), q)
  {
    hide FinishRun;
    FinishShape(s, q, Some(err), ByError);
  }

  lemma RegistryMoves(s: State, q: RunId, a: Starter.Action)
    requires Starter.Enabled(s, q, a) && Registering(a)
    ensures MovesOn(s, Starter.Step(s, q, a), q)
  {
    hide Starter.DoRegister, Starter.DoAttachPublish, Starter.DoFinishCollect, Starter.DoUnregister;
    match a
    case Register => RegisterMoves(s, q);
    case AttachPublish => PublishMoves(s, q);
    case FinishCollect => CollectMoves(s, q);
    case Unregister => UnregisterMoves(s, q);
    case _ =>
  }

  lemma RegisterMoves(s: State, q: RunId)
    requires Starter.CanRegister(s, q)
    ensures MovesOn(s, Starter.DoRegister(s, q), q)
  {
  }

  lemma PublishMoves(s: State, q: RunId)
    requires Starter.CanAttachPublish(s, q)
    ensures MovesOn(s, Starter.DoAttachPublish(s, q), q)
  {
    hide Without, With;
  }

  lemma CollectMoves(s: State, q: RunId)
    requires Starter.CanFinishCollect(s, q)
    ensures MovesOn(s, Starter.DoFinishCollect(s, q), q)
  {
    hide Without, With, Starter.Mine, Starter.KeepOthers;
  }

  lemma UnregisterMoves(s: State, q: RunId)
    requires Starter.CanUnregister(s, q)
    ensures MovesOn(s, Starter.DoUnregister(s, q), q)
  {
    hide Without, With;
  }

  /** The starter's own run: its list is worked off only by finishing the run. */
  lemma OwnKeeps(s: State, q: RunId, a: Starter.Action)
    requires Starter.Enabled(s, q, a) && !a.CreateRun? && !a.RegisterAccept? && !a.AttachResolve? && !a.FinishResolve?
    requires PhaseInv(s) && q in Starter.Step(s, q, a).slots
    ensures Keeps(s, Starter.Step(s, q, a), q)
  {
    hide PhaseInv, FinishRun, Without, With, Starter.Mine, Starter.KeepOthers, ListLeases, Resolve, AcceptRetained;
    hide Starter.DoAttachPublish, Starter.DoFinishCollect, Starter.DoUnregister, Starter.DoRegister;
    PhasedAt(s, q);
    match a
    case Register => RegistryKeeps(s, q, a);
    case AttachPublish => RegistryKeeps(s, q, a);
    case FinishCollect => RegistryKeeps(s, q, a);
    case Unregister => RegistryKeeps(s, q, a);
    case RegisterComplete =>
      var c := s.slots[q].caller;
      FinishShape(SetCaller(s, q, c.(todo := None)), c.todo.value.run, c.todo.value.err, ByRegister);
    case FinishRefused => FinishShape(SetCaller(s, q, Over), q, Some(s.slots[q].caller.refusal), ByError);
    case AttachNext => NextKeeps(s, q);
    case FinishComplete => CompleteKeeps(s, q);
    case FinishEnd(err) =>
      FinishShape(LetGo(SetCaller(s, q, Over), ListLeases(s.slots[q].caller.list)), q, Some(err), ByError);
    case ExternalFinish(err) => FinishShape(s, q, Some(err), ByError);
    case _ =>
  }

  lemma RegistryKeeps(s: State, q: RunId, a: Starter.Action)
    requires Starter.Enabled(s, q, a) && Registering(a) && q in s.slots && q in Starter.Step(s, q, a).slots
    requires s.slots[q].caller.Created? ==> !s.slots[q].run.terminalAdmitted
    ensures Keeps(s, Starter.Step(s, q, a), q)
  {
    hide Starter.DoRegister, Starter.DoAttachPublish, Starter.DoFinishCollect, Starter.DoUnregister, Keeps;
    match a
    case Register => NothingToKeep(s, q, Starter.Step(s, q, a)) by { RegisterMoves(s, q); }
    case AttachPublish => NothingToKeep(s, q, Starter.Step(s, q, a)) by { PublishMoves(s, q); }
    case FinishCollect => NothingToKeep(s, q, Starter.Step(s, q, a)) by { CollectMoves(s, q); }
    case Unregister => UnregisterKeeps(s, q);
    case _ =>
  }

  /** A starter that had nothing to see to. */
  lemma NothingToKeep(s: State, q: RunId, t: State)
    requires q in s.slots && q in t.slots && (Ended(t.slots[q].run) ==> Ended(s.slots[q].run))
    requires s.slots[q].caller.Created? || s.slots[q].caller.Window? || s.slots[q].caller.FinLocked?
    ensures Keeps(s, t, q)
  {
  }

  lemma UnregisterKeeps(s: State, q: RunId)
    requires Starter.CanUnregister(s, q) && q in Starter.DoUnregister(s, q).slots
    ensures Keeps(s, Starter.DoUnregister(s, q), q)
  {
    hide Without, InList;
  }

  lemma NextKeeps(s: State, q: RunId)
    requires Starter.CanAttachNext(s, q) && q in Starter.DoAttachNext(s, q).slots
    ensures Keeps(s, Starter.DoAttachNext(s, q), q)
  {
    hide FinishRun;
    var c := s.slots[q].caller;
    var no := c.list[c.next].no;
    var s1 := SetCaller(s, q, c.(next := c.next + 1, resolved := false));
    if no in s.ev.completion { FinishShape(s1, s.ev.completion[no].run, s.ev.completion[no].err, ByReplay); }
  }

  lemma CompleteKeeps(s: State, q: RunId)
    requires Starter.CanFinishComplete(s, q) && q in Starter.DoFinishComplete(s, q).slots
    ensures Keeps(s, Starter.DoFinishComplete(s, q), q)
  {
    hide FinishRun;
    var c := s.slots[q].caller;
    var no := c.list[c.doneNext].no;
    var s1 := SetCaller(s, q, c.(doneNext := c.doneNext + 1));
    if no in s.ev.completion { FinishShape(s1, s.ev.completion[no].run, s.ev.completion[no].err, ByFinish(no)); }
  }

  lemma CreateSettles(s: State, q: RunId, thread: Id)
    requires Settles(s) && Starter.CanCreateRun(s, q, thread)
    ensures Settles(Starter.DoCreateRun(s, q, thread))
  {
    hide Keeps, ReleasedReady, Plain, AllAdmitted;
    var t := Starter.DoCreateRun(s, q, thread);
    forall r <- t.slots ensures Keeps(s, t, r) {
      if r != q { SlotSame(s, t, r); } else { NewKeeps(s, t, r); }
    }
    StarterKeeps(s, t);
  }

  lemma NewKeeps(s: State, t: State, r: RunId)
    requires r in t.slots && !t.slots[r].run.terminalAdmitted
    ensures Keeps(s, t, r)
  {
  }

  /** Registration accepts a frame: a completion is the starter's to see to. */
  lemma RegisterAcceptSettles(s: State, q: RunId)
    requires Settles(s) && Starter.CanRegisterAccept(s, q)
    ensures Settles(Starter.DoRegisterAccept(s, q))
  {
    hide ReleasedReady, Plain, Retain, Admissible, FinalResponse;
    var t := Starter.DoRegisterAccept(s, q);
    if !Failing(t) {
      forall r <- t.slots | Ended(t.slots[r].run) ensures InFlight(t, r) {
        if Ended(s.slots[r].run) {
          KeepsLost(s, t, r);
        }
      }
    }
  }

  /** A starter resolves evidence of its run. */
  lemma ResolveSettles(s: State, p: Parked, q: RunId, t: State)
    requires Settles(s) && q in s.slots && p.no in s.ev.owner && Provenance.EvidenceOk(s.log, s.ev)
    requires t.slots.Keys == s.slots.Keys && SameElsewhere(s, t) && t.ev == Resolve(s, p, q).ev
    requires t.slots[q].run == Resolve(s, p, q).slots[q].run
    requires forall r <- s.slots :: r != q ==> t.slots[r] == s.slots[r]
    requires InList(t.slots[q].caller, p.no)
    requires forall no :: InList(s.slots[q].caller, no) ==> InList(t.slots[q].caller, no)
    requires !s.slots[q].caller.RegReplay?
    ensures Settles(t)
  {
    hide Plain, AcceptRetained, InList;
    AcceptFrame(s, q, p);
    NewEnd(s, q, p);
    if !Failing(t) {
      forall r <- t.slots | Ended(t.slots[r].run) ensures InFlight(t, r) {
        if Ended(s.slots[r].run) {
          ResolveKeeps(s, p, q, t, r);
        } else {
          assert HeldBy(t.cfg.handler, t.ev, t.slots[r].caller, r, p.no);
        }
      }
    }
  }

  lemma NewEnd(s: State, q: RunId, p: Parked)
    requires q in s.slots
    ensures var (t, c) := AcceptRetained(s, q, p);
            && q in t.slots && (c.Some? ==> c.value.run == q)
            && (Ended(t.slots[q].run) ==> Ended(s.slots[q].run) || c.Some?)
  {
    hide FinalResponse, Retain;
  }

  lemma ResolveKeeps(s: State, p: Parked, q: RunId, t: State, r: RunId)
    requires NoneLost(s) && q in s.slots && Provenance.EvidenceOk(s.log, s.ev)
    requires t.slots.Keys == s.slots.Keys && SameElsewhere(s, t) && t.ev == Resolve(s, p, q).ev
    requires forall u <- s.slots :: u != q ==> t.slots[u] == s.slots[u]
    requires forall no :: InList(s.slots[q].caller, no) ==> InList(t.slots[q].caller, no)
    requires !s.slots[q].caller.RegReplay?
    requires r in s.slots && Ended(s.slots[r].run)
    ensures InFlight(t, r)
  {
    hide AcceptRetained, InList, WithReader, Queued, WithDispatcher;
    AcceptFrame(s, q, p);
    assert InFlight(s, r);
    if no :| HeldBy(s.cfg.handler, s.ev, s.slots[r].caller, r, no) {
      assert HeldBy(t.cfg.handler, t.ev, t.slots[r].caller, r, no);
    }
  }

  lemma ListOwnedAt(s: State, q: RunId, k: nat)
    requires Once.OnceInv(s) && q in s.slots && (s.slots[q].caller.Replay? || s.slots[q].caller.FinResolve?)
    requires k < |s.slots[q].caller.list|
    ensures s.slots[q].caller.list[k].no in s.ev.owner
  {
    hide Once.OnceInv;
    Once.SlotAt(s, q);
    assert s.slots[q].caller.list[k] in s.slots[q].caller.list;
  }

  lemma AttachResolveSettles(s: State, q: RunId)
    requires Settles(s) && Once.OnceInv(s) && Provenance.EvidenceOk(s.log, s.ev) && Starter.CanAttachResolve(s, q)
    ensures Settles(Starter.DoAttachResolve(s, q))
  {
    hide Settles, Once.OnceInv, Resolve;
    var c := s.slots[q].caller;
    var p := c.list[c.next];
    ListOwnedAt(s, q, c.next);
    ResolveFrame(s, p, q);
    ResolveOthers(s, p, q);
    assert InList(c.(resolved := true), p.no);
    ResolveSettles(s, p, q, Starter.DoAttachResolve(s, q));
  }

  lemma FinishResolveSettles(s: State, q: RunId)
    requires Settles(s) && Once.OnceInv(s) && Provenance.EvidenceOk(s.log, s.ev) && Starter.CanFinishResolve(s, q)
    ensures Settles(Starter.DoFinishResolve(s, q))
  {
    hide Settles, Once.OnceInv, Resolve;
    var c := s.slots[q].caller;
    var p := c.list[c.finNext];
    ListOwnedAt(s, q, c.finNext);
    ResolveFrame(s, p, q);
    ResolveOthers(s, p, q);
    assert InList(c.(finNext := c.finNext + 1), p.no);
    ResolveSettles(s, p, q, Starter.DoFinishResolve(s, q));
  }

  lemma ResolveOthers(s: State, p: Parked, q: RunId)
    ensures forall r <- s.slots :: r != q ==> r in Resolve(s, p, q).slots && Resolve(s, p, q).slots[r] == s.slots[r]
  {
    hide Retain, Accept, Admissible;
  }

  lemma StarterSettles(s: State, q: RunId, a: Starter.Action)
    requires Settles(s) && Base(s) && Starter.Enabled(s, q, a)
    ensures Settles(Starter.Step(s, q, a))
  {
    hide Settles, Base, PhaseInv, Once.OnceInv, Provenance.EvidenceOk, Keeps, MovesOn;
    hide Starter.DoRegisterAccept, Starter.DoCreateRun, Starter.DoAttachResolve, Starter.DoFinishResolve;
    Known(s);
    match a
    case CreateRun(thread) => CreateSettles(s, q, thread);
    case RegisterAccept => RegisterAcceptSettles(s, q);
    case AttachResolve => AttachResolveSettles(s, q);
    case FinishResolve => FinishResolveSettles(s, q);
    case _ => OtherSettles(s, q, a);
  }

  lemma OtherSettles(s: State, q: RunId, a: Starter.Action)
    requires Settles(s) && PhaseInv(s) && Starter.Enabled(s, q, a)
    requires !a.CreateRun? && !a.RegisterAccept? && !a.AttachResolve? && !a.FinishResolve?
    ensures Settles(Starter.Step(s, q, a))
  {
    hide Settles, PhaseInv, Keeps, Starter.Step, Starter.Enabled;
    var t := Starter.Step(s, q, a);
    SimpleMoves(s, q, a);
    OwnKeeps(s, q, a);
    CallerKeeps(s, t, q);
    StarterKeeps(s, t);
  }

  lemma Known(s: State)
    requires Base(s)
    ensures PhaseInv(s) && Once.OnceInv(s) && Provenance.EvidenceOk(s.log, s.ev) && Frozen.CloseInv(s) && Fifo.QueueInv(s)
  {
  }

  // ------------------------------------------------------------------- reader

  /** A step of the reader or the dispatcher: starters stay, completions move. */
  lemma FlightMoves(s: State, t: State)
    requires NoneLost(s) && t.slots.Keys == s.slots.Keys && t.cfg == s.cfg
    requires forall r <- t.slots :: (Ended(t.slots[r].run) ==> Ended(s.slots[r].run)) && Unmoved(s.slots[r].caller, t.slots[r].caller)
    requires forall r <- t.slots :: Ended(t.slots[r].run) && WithReader(s.reader, r) ==> WithReader(t.reader, r) || Queued(t.q.queue, r)
    requires forall r <- t.slots :: Queued(s.q.queue, r) ==> Queued(t.q.queue, r) || WithDispatcher(t.q.disp, r)
    requires forall r <- t.slots :: Ended(t.slots[r].run) && WithDispatcher(s.q.disp, r) ==> WithDispatcher(t.q.disp, r)
    requires t.ev.completion == s.ev.completion && forall no <- s.ev.owner :: no in t.ev.owner
    requires s.cfg.handler ==> forall no <- s.ev.completion :: no in s.ev.owner && no in t.ev.released && no !in s.ev.released ==>
                                 WithDispatcher(t.q.disp, s.ev.completion[no].run)
    ensures NoneLost(t)
  {
    hide WithReader, WithDispatcher, Queued, InList;
    forall r <- t.slots | Ended(t.slots[r].run) ensures InFlight(t, r) {
      assert InFlight(s, r);
      StillToSee(s.slots[r].caller, t.slots[r].caller, r);
      if no :| HeldBy(s.cfg.handler, s.ev, s.slots[r].caller, r, no) {
        assert WithDispatcher(t.q.disp, r) || HeldBy(t.cfg.handler, t.ev, t.slots[r].caller, r, no);
      }
    }
  }

  /** The starter has the same to see to. */
  predicate Unmoved(a: Caller, b: Caller) { a == b || (a.Calling? && b.Answered?) }

  lemma StillToSee(a: Caller, b: Caller, r: RunId)
    requires Unmoved(a, b)
    ensures FromRegistration(a, r) ==> FromRegistration(b, r)
    ensures forall no :: InList(a, no) ==> InList(b, no)
  {
  }

  lemma FirstFinishes(cs: seq<Completion>, r: RunId)
    requires cs != [] && HasFor(cs, r)
    ensures cs[0].run == r || HasFor(cs[1..], r)
  {
    var k :| 0 <= k < |cs| && cs[k].run == r;
    if k > 0 { assert cs[1..][k - 1].run == r; }
  }

  lemma HasMore(a: seq<Completion>, b: seq<Completion>)
    ensures forall r :: HasFor(a, r) || HasFor(b, r) ==> HasFor(a + b, r)
  {
    forall r | HasFor(a, r) || HasFor(b, r) ensures HasFor(a + b, r) {
      if k :| 0 <= k < |a| && a[k].run == r {
        assert (a + b)[k].run == r;
      } else {
        var k :| 0 <= k < |b| && b[k].run == r;
        assert (a + b)[|a| + k].run == r;
      }
    }
  }

  lemma RouteSettles(s: State, note: Note, order: seq<RunId>, bytes: nat)
    requires Settles(s) && Fifo.QueueInv(s) && Provenance.EvidenceOk(s.log, s.ev) && Reader.CanRoute(s, note, order)
    ensures Settles(Reader.DoRoute(s, note, order, bytes))
  {
    hide Reader.CanRoute, Reader.DoRoute, Plain, Fifo.QueueInv, InList, Queued, WithDispatcher, HasFor;
    var t := Reader.DoRoute(s, note, order, bytes);
    Fifo.RouteShape(s, note, order, bytes);
    RouteKeeps(s, note, order, bytes);
    Unreleased(s);
    if !Failing(t) { FlightMoves(s, t); }
  }

  lemma RouteKeeps(s: State, note: Note, order: seq<RunId>, bytes: nat)
    requires Reader.CanRoute(s, note, order) && |s.log| !in s.ev.owner
    ensures var t := Reader.DoRoute(s, note, order, bytes);
            t.slots == s.slots && t.log == s.log + [note] && forall no <- s.ev.owner :: no in t.ev.owner
  {
    hide Reader.CanRoute, Reserve, Parkable;
  }

  lemma Unreleased(s: State)
    requires Fifo.QueueInv(s)
    ensures |s.log| !in s.ev.released
  {
  }

  /** What offering the frame to its next target does. */
  lemma AcceptShape(s: State, bytes: nat)
    requires Reader.CanReaderAccept(s)
    ensures var t := Reader.DoReaderAccept(s, bytes);
            && t.cfg == s.cfg && t.q == s.q && t.ev == s.ev && t.log == s.log && t.close == s.close
            && t.reader.Routed? && t.reader.frame == s.reader.frame && t.slots.Keys == s.slots.Keys
            && (forall r :: HasFor(s.reader.completions, r) ==> HasFor(t.reader.completions, r))
            && forall r <- t.slots ::
                 t.slots[r].caller == s.slots[r].caller
                 && (Ended(t.slots[r].run) ==> Ended(s.slots[r].run) || HasFor(t.reader.completions, r))
  {
    hide Reserve, AcceptRetained, Admissible, HasFor;
    var rd := s.reader;
    var q := rd.targets[0];
    var (b, l) := Reserve(s.mem.budget, 3, bytes);
    if l.Some? && q in s.slots && Admissible(s.slots[q].run, rd.note) {
      var p := Parked(rd.frame, rd.note, l.value);
      var s1 := LetGo(s.(reader := rd.(targets := rd.targets[1..])), multiset{l.value});
      var s2 := s1.(mem := s1.mem.(budget := b));
      AcceptFrame(s2, q, p);
      AcceptOthers(s2, p, q);
      NewEnd(s2, q, p);
      var c := AcceptRetained(s2, q, p).1;
      if c.Some? {
        HasMore(rd.completions, [c.value]);
        OneHas(c.value);
      }
    }
  }

  lemma AcceptSettles(s: State, bytes: nat)
    requires Settles(s) && Reader.CanReaderAccept(s)
    ensures Settles(Reader.DoReaderAccept(s, bytes))
  {
    hide Reader.DoReaderAccept, Plain, ReleasedReady, Queued, WithDispatcher, FromEvidence, HasFor, FromRegistration;
    var t := Reader.DoReaderAccept(s, bytes);
    AcceptShape(s, bytes);
    if !Failing(t) {
      forall r <- t.slots | Ended(t.slots[r].run) ensures InFlight(t, r) {
        if Ended(s.slots[r].run) { assert InFlight(s, r); }
      }
    }
  }

  lemma OneHas(c: Completion)
    ensures HasFor([c], c.run)
  {
    assert [c][0].run == c.run;
  }

  lemma AcceptOthers(s: State, p: Parked, q: RunId)
    ensures forall r <- s.slots :: var t := AcceptRetained(s, q, p).0;
                                   r in t.slots && t.slots[r].caller == s.slots[r].caller && (r != q ==> t.slots[r] == s.slots[r])
  {
    hide Retain, Accept, Admissible;
  }

  lemma EnqueueSettles(s: State, count: nat, bytes: nat)
    requires Settles(s) && Reader.CanReaderEnqueue(s)
    ensures Settles(Reader.DoReaderEnqueue(s, count, bytes))
  {
    hide Reserve, ReleasedReady, FromEvidence, HasFor, FromRegistration, WithDispatcher;
    var t := Reader.DoReaderEnqueue(s, count, bytes);
    if !Failing(t) {
      var n := |s.q.queue|;
      assert forall k :: 0 <= k < n ==> t.q.queue[k] == s.q.queue[k];
      assert t.q.queue[n].completions == if s.cfg.handler then s.reader.completions else [];
      forall r <- t.slots | Ended(t.slots[r].run) ensures InFlight(t, r) {
        assert InFlight(s, r);
      }
    }
  }

  lemma ReaderCompletes(s: State)
    requires Settles(s) && Reader.CanReaderComplete(s)
    ensures Settles(Reader.DoReaderComplete(s))
  {
    hide FinishRun, HasFor, Plain, ReleasedReady, WithDispatcher, Queued, InList;
    var t := Reader.DoReaderComplete(s);
    var cs := s.reader.inline;
    if cs != [] { FinishShape(s, cs[0].run, cs[0].err, ByReader); }
    if !Failing(t) {
      NothingHas();
      forall r <- t.slots | Ended(t.slots[r].run) && WithReader(s.reader, r) ensures WithReader(t.reader, r) {
        if cs != [] { FirstFinishes(cs, r); }
      }
      FlightMoves(s, t);
    }
  }

  lemma NothingHas()
    ensures forall r :: !HasFor([], r)
  {
  }

  /** What arming leaves alone. */
  predicate Arms(s: State, t: State) {
    && t.cfg == s.cfg && t.q == s.q && t.ev == s.ev && t.log == s.log && t.close == s.close
    && s.reader.Idle? && (t.reader.Idle? || t.reader.Failing?) && t.slots.Keys == s.slots.Keys
    && forall r <- t.slots :: t.slots[r].run == s.slots[r].run && Unmoved(s.slots[r].caller, t.slots[r].caller)
  }

  lemma ArmThreadShape(s: State, thread: Id, bytes: nat)
    requires Reader.CanArmThread(s, thread)
    ensures Arms(s, Reader.DoArmThread(s, thread, bytes))
  {
    hide Reserve;
    var (b, l) := Reserve(s.mem.budget, 1, bytes);
    assert Reader.DoArmThread(s, thread, bytes).slots == s.slots;
  }

  lemma ArmTurnShape(s: State, r: RunId, turn: Id, bytes: nat)
    requires Reader.CanArmTurn(s, r, turn)
    ensures Arms(s, Reader.DoArmTurn(s, r, turn, bytes))
  {
    hide Reserve, Arms;
    var (b, l) := Reserve(s.mem.budget, 1, bytes);
    var bound := Reader.BindTurn(s, r, turn);
    var t := Reader.DoArmTurn(s, r, turn, bytes);
    assert t.slots == s.slots || t.slots == bound.slots;
    BindShape(s, r, turn, t);
  }

  lemma BindShape(s: State, r: RunId, turn: Id, t: State)
    requires Reader.CanArmTurn(s, r, turn) && (t.slots == s.slots || t.slots == Reader.BindTurn(s, r, turn).slots)
    requires t.cfg == s.cfg && t.q == s.q && t.ev == s.ev && t.log == s.log && t.close == s.close
    requires t.reader.Idle? || t.reader.Failing?
    ensures Arms(s, t)
  {
  }

  lemma ArmShape(s: State, a: Reader.Action)
    requires Reader.Enabled(s, a) && (a.ArmThread? || a.ArmTurn?)
    ensures Arms(s, Reader.Step(s, a))
  {
    hide Arms, Reader.DoArmThread, Reader.DoArmTurn;
    match a
    case ArmThread(thread, bytes) => ArmThreadShape(s, thread, bytes);
    case ArmTurn(r, turn, bytes) => ArmTurnShape(s, r, turn, bytes);
    case _ =>
  }

  lemma ArmSettles(s: State, a: Reader.Action)
    requires Settles(s) && Reader.Enabled(s, a) && (a.ArmThread? || a.ArmTurn?)
    ensures Settles(Reader.Step(s, a))
  {
    hide Reader.Step, Reader.Enabled, HasFor, Plain, ReleasedReady, WithDispatcher, Queued, Unmoved, InFlight;
    var t := Reader.Step(s, a);
    ArmShape(s, a);
    if !Failing(t) { FlightMoves(s, t); }
  }

  lemma ReaderSettles(s: State, a: Reader.Action)
    requires Settles(s) && Base(s) && Reader.Enabled(s, a)
    ensures Settles(Reader.Step(s, a))
  {
    hide Settles, Base, PhaseInv, Once.OnceInv, Fifo.QueueInv;
    hide Reader.CanRoute, Reader.DoRoute, Reader.DoReaderAccept, Reader.CanReaderAccept, Reader.DoReaderEnqueue;
    hide Reader.DoReaderComplete, Reader.DoArmTurn, Reader.DoArmThread;
    Known(s);
    match a
    case ArmThread(_, _) => ArmSettles(s, a);
    case ArmTurn(_, _, _) => ArmSettles(s, a);
    case Route(note, order, bytes) => RouteSettles(s, note, order, bytes);
    case Accept(bytes) => AcceptSettles(s, bytes);
    case Enqueue(count, bytes) => EnqueueSettles(s, count, bytes);
    case Complete => ReaderCompletes(s);
    case Claim => ClaimSettles(s);
    case Reject => RejectSettles(s);
  }

  lemma ClaimSettles(s: State)
    requires Settles(s) && Reader.CanReaderClaim(s)
    ensures Settles(Reader.DoReaderClaim(s))
  {
    StillFailing(s, Reader.DoReaderClaim(s));
  }

  lemma RejectSettles(s: State)
    requires Settles(s) && Frozen.CloseInv(s) && Reader.CanReaderReject(s)
    ensures Settles(Reader.DoReaderReject(s))
  {
    StillFailing(s, Reader.DoReaderReject(s));
  }

  // ------------------------------------------------------ closers and dispatcher

  /** Apart from accounting for memory, closing happens to a closed client. */
  lemma CloserSettles(s: State, a: Closing.Action)
    requires Settles(s) && Base(s) && Closing.Enabled(s, a)
    ensures Settles(Closing.Step(s, a))
  {
    hide Settles, Base, Once.OnceInv, PhaseInv, Fifo.QueueInv, Closing.Enabled, Closing.Step;
    Known(s);
    CloserShape(s, a);
    if a.Drop? || a.ReserveDiagnostic? || a.KeepDiagnostic? || a.LetGoDiagnostic? {
      Indifferent(s, Closing.Step(s, a));
    } else {
      StillFailing(s, Closing.Step(s, a));
    }
  }

  lemma CloserShape(s: State, a: Closing.Action)
    requires Frozen.CloseInv(s) && Closing.Enabled(s, a)
    ensures var t := Closing.Step(s, a);
            if a.Drop? || a.ReserveDiagnostic? || a.KeepDiagnostic? || a.LetGoDiagnostic?
            then SameElsewhere(s, t) && t.slots == s.slots && t.ev == s.ev
            else Failing(t) && t.cfg == s.cfg && (Plain(s.q) ==> Plain(t.q))
  {
    hide Resolve, FinishRun, Release, Closing.CanSnapshot, Closing.DoSnapshot, Plain, Reserve, Retain;
    match a
    case Snapshot(turns, runs, finishing) => SnapshotShape(s, turns, runs, finishing);
    case PublishPending =>
      var p := s.close.pub.pending[0];
      if p.no in s.ev.owner { ResolveFrame(s, p, s.ev.owner[p.no]); }
    case PublishReplay =>
      var p := s.close.pub.replay[0];
      if p.no in s.ev.owner { ResolveFrame(s, p, s.ev.owner[p.no]); }
    case PublishFinish => FinishShape(s, s.close.pub.finishing[0], Cause(s), ByError);
    case DiscardQueued => DiscardPlain(s);
    case _ =>
  }

  lemma SnapshotShape(s: State, turns: seq<Id>, runs: seq<RunId>, finishing: seq<RunId>)
    requires Closing.CanSnapshot(s, turns, runs, finishing)
    ensures var t := Closing.DoSnapshot(s, turns, runs, finishing);
            s.close.pub.Claimed? && t.close.closed == s.close.closed && t.cfg == s.cfg && t.q == s.q
  {
    hide Concat, ConcatReplays, RetainAll, Leases, Totals.Union;
  }

  lemma DiscardPlain(s: State)
    requires s.q.queue != []
    ensures var t := DiscardFirst(s);
            t.cfg == s.cfg && t.close == s.close && t.q.disp == s.q.disp && (Plain(s.q) ==> Plain(t.q))
  {
  }

  lemma DispatcherSettles(s: State, a: Dispatch.Action)
    requires Settles(s) && Base(s) && Dispatch.Enabled(s, a)
    ensures Settles(Dispatch.Step(s, a))
  {
    hide Settles, Base, Once.OnceInv, PhaseInv, Fifo.QueueInv, Provenance.EvidenceOk;
    hide Dispatch.DoTake, Dispatch.DoDeliver, Dispatch.DoDispatchComplete, Dispatch.DoDispatchNext, DiscardFirst;
    hide Dispatch.DoDiscardHeld, Dispatch.DoBeginStopping;
    Known(s);
    match a
    case Take => TakeSettles(s);
    case Deliver => DeliverSettles(s);
    case Complete => CompleteSettles(s);
    case Next => NextSettles(s);
    case _ => EndingSettles(s, a);
  }

  /** A failing callback, and the steps of a closed client's dispatcher. */
  lemma EndingSettles(s: State, a: Dispatch.Action)
    requires Settles(s) && Fifo.QueueInv(s) && Frozen.CloseInv(s) && Dispatch.Enabled(s, a)
    requires !a.Take? && !a.Deliver? && !a.Complete? && !a.Next?
    ensures Settles(Dispatch.Step(s, a))
  {
    hide Settles, Fifo.Numbered, Fifo.Accounted, Fifo.EntriesOk, Fifo.ReaderOwns, Fifo.ReleasesOk, Fifo.WorkExact;
    if a.DiscardHead? { DiscardPlain(s); }
    StillFailing(s, Dispatch.Step(s, a));
  }

  lemma TakeSettles(s: State)
    requires Settles(s) && Dispatch.CanTake(s)
    ensures Settles(Dispatch.DoTake(s))
  {
    hide ReleasedReady, InList, HasFor, InFlight;
    var t := Dispatch.DoTake(s);
    assert s.q.queue == [s.q.queue[0]] + t.q.queue;
    if !Failing(t) {
      forall r | Queued(s.q.queue, r) ensures Queued(t.q.queue, r) || WithDispatcher(t.q.disp, r) {
        var k :| 0 <= k < |s.q.queue| && HasFor(s.q.queue[k].completions, r);
        if k > 0 { assert t.q.queue[k - 1] == s.q.queue[k]; }
      }
      TakeFlights(s, t);
    }
  }

  lemma TakeFlights(s: State, t: State)
    requires NoneLost(s) && t == s.(q := s.q.(queue := t.q.queue, disp := t.q.disp)) && s.q.disp.Waiting?
    requires forall r :: Queued(s.q.queue, r) ==> Queued(t.q.queue, r) || WithDispatcher(t.q.disp, r)
    ensures NoneLost(t)
  {
    hide InList, HasFor, Queued, WithReader, NoneLost;
    FlightMoves(s, t);
  }

  lemma CompleteSettles(s: State)
    requires Settles(s) && Dispatch.CanDispatchComplete(s)
    ensures Settles(Dispatch.DoDispatchComplete(s))
  {
    hide FinishRun, ReleasedReady, HasFor, Queued, WithReader, InList;
    var t := Dispatch.DoDispatchComplete(s);
    var cs := s.q.disp.completions;
    FinishShape(s, cs[0].run, cs[0].err, ByDispatch(s.q.disp.e.frame));
    if !Failing(t) {
      forall r <- t.slots | Ended(t.slots[r].run) && WithDispatcher(s.q.disp, r) ensures WithDispatcher(t.q.disp, r) {
        FirstFinishes(cs, r);
      }
      FlightMoves(s, t);
    }
  }

  lemma NextSettles(s: State)
    requires Settles(s) && Dispatch.CanDispatchNext(s)
    ensures Settles(Dispatch.DoDispatchNext(s))
  {
    hide ReleasedReady, HasFor, Queued, WithReader, InList;
    var t := Dispatch.DoDispatchNext(s);
    NothingHas();
    if !Failing(t) { FlightMoves(s, t); }
  }

  /** What delivering the held entry does. */
  lemma DeliverShape(s: State)
    requires Dispatch.MayDispatch(s)
    ensures var t, e := Dispatch.DoDeliver(s), s.q.disp.e;
            && t.cfg == s.cfg && t.reader == s.reader && t.slots == s.slots && t.log == s.log && t.close == s.close
            && t.q.queue == s.q.queue && t.q.entryOf == s.q.entryOf
            && t.ev.owner == s.ev.owner && t.ev.ready == s.ev.ready && t.ev.completion == s.ev.completion
            && t.ev.released <= s.ev.released + {e.frame} && (e.evidence || t.ev.released == s.ev.released)
            && (if s.cfg.handler
                then t.q.disp == Delivered(e, (if e.evidence && e.frame in s.ev.completion
                                               then [s.ev.completion[e.frame]] else []) + e.completions)
                else t.q.disp == Dispatcher.Waiting && t.ev.released == s.ev.released)
  {
  }

  lemma DeliverSettles(s: State)
    requires Settles(s) && Fifo.QueueInv(s) && Dispatch.MayDispatch(s)
    ensures Settles(Dispatch.DoDeliver(s))
  {
    hide Dispatch.DoDeliver, HasFor, Queued, WithReader, InList;
    hide Fifo.Numbered, Fifo.Accounted, Fifo.ReaderOwns, Fifo.ReleasesOk, Fifo.WorkExact;
    var t, e := Dispatch.DoDeliver(s), s.q.disp.e;
    DeliverShape(s);
    if !Failing(t) {
      NothingHas();
      var first := if e.evidence && e.frame in s.ev.completion then [s.ev.completion[e.frame]] else [];
      HasMore(first, e.completions);
      if first != [] { OneHas(first[0]); }
      FlightMoves(s, t);
    }
  }

  /** A frame is refused admission exactly when the client is closed, the budget has no
      room for it or the queue is full; otherwise it is queued last, with its
      completions if there are callbacks. */
  lemma RefusedExactly(s: State, count: nat, bytes: nat)
    requires Reader.CanReaderEnqueue(s)
    ensures var t := Reader.DoReaderEnqueue(s, count, bytes);
            var refused := s.close.closed || Reserve(s.mem.budget, count, bytes).1.None? || |s.q.queue| >= s.cfg.capacity;
            && (t.reader.Rejecting? <==> refused) && (refused ==> t.q == s.q)
            && (!refused ==>
                  && |t.q.queue| == |s.q.queue| + 1 && t.q.queue[..|s.q.queue|] == s.q.queue
                  && t.q.entryOf == s.q.entryOf[s.reader.frame := t.q.queue[|s.q.queue|].no]
                  && var e := t.q.queue[|s.q.queue|];
                     e.frame == s.reader.frame && e.evidence == s.reader.evidence
                     && e.completions == (if s.cfg.handler then s.reader.completions else [])
                     && t.reader == Completing(if s.cfg.handler then [] else s.reader.completions))
  {
    hide Reserve;
  }

  // ----------------------------------------------------------------- whole runs

  lemma InitSettles(s: State)
    requires Client.IsInit(s)
    ensures Settles(s)
  {
  }

  lemma StepSettles(s: State, a: Client.Action)
    requires Settles(s) && Base(s) && Client.Enabled(s, a)
    ensures Settles(Client.Step(s, a))
  {
    hide Settles, Base, Reader.Enabled, Reader.Step, Starter.Enabled, Starter.Step;
    hide Closing.Enabled, Closing.Step, Dispatch.Enabled, Dispatch.Step;
    match a
    case ByReader(b) => ReaderSettles(s, b);
    case ByStarter(r, b) => StarterSettles(s, r, b);
    case ByCloser(b) => CloserSettles(s, b);
    case ByDispatcher(b) => DispatcherSettles(s, b);
  }

  lemma {:induction false} AlwaysSettles(states: seq<State>, actions: seq<Client.Action>, i: nat)
    requires Client.IsRun(states, actions) && i < |states|
    ensures Settles(states[i])
  {
    hide Settles, Base, Client.Enabled, Client.Step;
    if i == 0 {
      InitSettles(states[0]);
    } else {
      AlwaysSettles(states, actions, i - 1);
      AlwaysBase(states, actions, i - 1);
      StepAt(states, actions, i - 1);
      StepSettles(states[i - 1], actions[i - 1]);
    }
  }

  /** Reader and dispatcher have nothing to do and the client is open. */
  predicate AtRest(s: State) {
    !s.close.closed && s.reader.Idle? && s.q.queue == [] && s.q.disp.Waiting?
  }

  /** The starter is not replaying or finishing. */
  predicate Resting(c: Caller) { !c.RegReplay? && !c.Replay? && !c.FinResolve? && !c.FinComplete? }

  /** While the client is open and at rest, every frame ever ingested has had its
      callbacks return, and a run that accepted its completed turn is finished once
      its starter is through with replaying. */
  lemma RestMeansSettled(states: seq<State>, actions: seq<Client.Action>, i: nat)
    requires Client.IsRun(states, actions) && i < |states| && AtRest(states[i])
    ensures var q := states[i].q;
            forall f: nat :: f < |states[i].log| ==> f in q.entryOf && q.entryOf[f] in q.delivered
    ensures forall r <- states[i].slots ::
              Resting(states[i].slots[r].caller) && states[i].slots[r].run.terminalAdmitted ==>
                states[i].slots[r].run.terminal
  {
    hide Settles, Fifo.QueueInv, Base, Client.IsRun;
    var s := states[i];
    AlwaysSettles(states, actions, i);
    AlwaysBase(states, actions, i);
    Known(s);
    FramesDelivered(s);
    forall r <- s.slots | Resting(s.slots[r].caller) && s.slots[r].run.terminalAdmitted ensures s.slots[r].run.terminal {
      if !s.slots[r].run.terminal { NothingInFlight(s, r); }
    }
  }

  lemma FramesDelivered(s: State)
    requires Settles(s) && Fifo.QueueInv(s) && AtRest(s)
    ensures forall f: nat :: f < |s.log| ==> f in s.q.entryOf && s.q.entryOf[f] in s.q.delivered
  {
    hide NoneLost, ReleasedReady, Fifo.ReaderOwns, Fifo.ReleasesOk, Plain;
    forall f: nat | f < |s.log| ensures f in s.q.entryOf && s.q.entryOf[f] in s.q.delivered {
      assert f in s.q.entryOf;
      assert s.q.entryOf[f] < Fifo.Taken(s.q);
    }
  }

  lemma NothingInFlight(s: State, r: RunId)
    requires Settles(s) && Fifo.QueueInv(s) && AtRest(s) && r in s.slots && Resting(s.slots[r].caller)
    ensures !Ended(s.slots[r].run)
  {
    hide Fifo.ReaderOwns, Plain, Fifo.Numbered, Fifo.Accounted, Fifo.WorkExact;
    FramesDelivered(s);
    assert forall no <- s.ev.owner :: no in s.ev.released || Fifo.Settled(s.q, no) || !s.cfg.handler;
  }
}
