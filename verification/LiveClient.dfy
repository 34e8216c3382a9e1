/** The client's critical sections on its own fields, updated in place
    (codexsdk/client.go, codexsdk/notification_dispatch.go, codexsdk/lifecycle.go).
    Each is proved to be one action of the state machine, whatever the order in which
    a map is ranged over. */
module LiveClient {
  import opened Wrappers
  import opened Attribution
  import opened Retention
  import opened ExactRun
  import opened ClientState
  import opened RetentionBudget
  import Registration
  import Totals
  import Reader
  import Starter
  import Closing
  import Dispatch
  import Client
  import Scope

  class LiveClient {
    const cfg: Config
    const retention: NotificationRetention
    var close: Close            // closeMu
    var reg: Registry           // turnMu
    var runs: map<RunId, Slot>
    var unregister: set<RunId>
    var evidence: Evidence
    var ingested: seq<Note>
    var reader: ClientState.Reader
    var queue: Queue
    ghost var dropping: multiset<LeaseId>
    ghost var diagnostics: multiset<LeaseId>

    constructor (handler: bool, capacity: nat, maxCount: nat, maxBytes: nat)
      ensures Now() == Init(handler, capacity, maxCount, maxBytes) && fresh(retention)
    {
      cfg := Config(handler, capacity);
      retention := new NotificationRetention(maxCount, maxBytes);
      close := Close(false, None, None, NoPublisher, false, false);
      reg := Registry(map[], map[], {}, map[], map[], map[], map[]);
      runs, unregister, evidence := map[], {}, Evidence(map[], {}, map[], {}, false);
      ingested, reader := [], Idle;
      queue := Queue([], 0, map[], Dispatcher.Waiting, false, 0, {}, {});
      dropping, diagnostics := multiset{}, multiset{};
    }

    ghost function Now(): State
      reads this, retention
    {
      State(cfg, close, Memory(retention.Value(), dropping, diagnostics), reg, runs, unregister, evidence, ingested,
          reader, queue)
    }

    // ------------------------------------------------------------------ closing

    method ClaimFailureLocked(err: Err)
      modifies this`close
      ensures Now() == ClaimFailure(old(Now()), err)
    {
      if close.closed { return; }
      close := close.(failure := Some(err), reason := Some(err), closed := true, pub := Claimed);
    }

    /** beginShutdown by Close; after a claimed failure the cause is set already. */
    method BeginShutdown()
      modifies this`close
      ensures Now() == Closing.DoBeginShutdown(old(Now()))
    {
      if close.closed { return; }
      close := close.(closed := true, reason := Some(ErrClientClosed), pub := Claimed);
    }

    method FirstCloseReason() returns (cause: Option<Err>)
      ensures cause == Cause(Now())
    {
      if close.reason.Some? { return close.reason; }
      return close.failure;
    }

    // --------------------------------------------------------- runs and evidence

    /** finishState: the first finish wins and owes the unregister step. */
    method FinishState(r: RunId, err: Option<Err>, via: Via)
      modifies this`runs, this`unregister
      ensures Now() == FinishRun(old(Now()), r, err, via)
    {
      if r !in runs || runs[r].run.terminal { return; }
      var cause := FirstCloseReason();
      runs := runs[r := runs[r].(run := Finish(runs[r].run, cause, err), via := via)];
      unregister := unregister + {r};
    }

    method Accept(r: RunId, p: Parked) returns (completion: Option<Completion>)
      modifies this`runs, retention
      ensures (Now(), completion) == AcceptRetained(old(Now()), r, p)
    {
      hide Admissible, ExactRun.Accept;
      if r !in runs || !Admissible(runs[r].run, p.note) { return None; }
      var (run, outcome) := ExactRun.Accept(runs[r].run, Frame(p.no, p.note), p.lease);
      retention.Retain(p.lease);
      runs := runs[r := runs[r].(run := run)];
      completion := if outcome.Ended? then Some(Completion(r, outcome.err)) else None;
    }

    /** resolveEvidence: the once fires at most once. */
    method ResolveEvidence(p: Parked, r: RunId)
      modifies this`runs, this`evidence, retention
      ensures Now() == Resolve(old(Now()), p, r)
    {
      hide AcceptRetained;
      if p.no in evidence.ready { return; }
      AcceptFrame(Now(), r, p);
      var completion := Accept(r, p);
      evidence := evidence.(ready := evidence.ready + {p.no});
      if completion.Some? {
        evidence := evidence.(completion := evidence.completion[p.no := completion.value]);
      }
    }

    method ReleaseAttachmentLocked(key: Key)
      modifies this`reg, this`dropping
      ensures Now() == ReleaseAttachment(old(Now()), key)
    {
      if key in reg.attachment {
        dropping := dropping + multiset{reg.attachment[key]};
        reg := reg.(attachment := reg.attachment - {key});
      }
    }

    // ------------------------------------------------------ attaching and leaving

    method DeleteAttaching(thread: Id, r: RunId)
      modifies this`reg
      ensures reg == old(reg).(attaching := Without(old(reg.attaching), thread, r))
    {
      if thread in reg.attaching {
        reg := reg.(attaching := reg.attaching[thread := reg.attaching[thread] - {r}]);
        if reg.attaching[thread] == {} { reg := reg.(attaching := reg.attaching - {thread}); }
        assert reg.attaching == Without(old(reg.attaching), thread, r);
      }
    }

    method DeleteStream(turn: Id, r: RunId)
      modifies this`reg
      ensures reg == old(reg).(streams := Without(old(reg.streams), turn, r))
    {
      if turn in reg.streams {
        reg := reg.(streams := reg.streams[turn := reg.streams[turn] - {r}]);
        if reg.streams[turn] == {} { reg := reg.(streams := reg.streams - {turn}); }
        assert reg.streams == Without(old(reg.streams), turn, r);
      }
    }

    method UnregisterExactRun(r: RunId)
      requires Starter.CanUnregister(Now(), r)
      modifies this`reg, this`runs, this`unregister
      ensures Now() == Starter.DoUnregister(old(Now()), r)
    {
      hide Without;
      DeleteAttaching(runs[r].run.threadId, r);
      DeleteStream(runs[r].run.turnId, r);
      unregister := unregister - {r};
      runs := runs[r := runs[r].(gone := true)];
    }

    method RegisterAttachingExactStream(r: RunId)
      requires Starter.CanRegister(Now(), r)
      modifies this`reg, this`runs, this`dropping
      ensures Now() == Starter.DoRegister(old(Now()), r)
    {
      var thread := runs[r].run.threadId;
      if close.closed {
        runs := runs[r := runs[r].(caller := Refused(ErrClientClosed))];
        return;
      }
      if thread in reg.attaching && reg.attaching[thread] != {} {
        runs := runs[r := runs[r].(caller := Refused(ErrConcurrentTurnStart))];
        return;
      }
      reg := reg.(attaching := reg.attaching[thread := {r}]);
      var pending := ListAt(reg.threadPend, thread);
      reg := reg.(threadPend := reg.threadPend - {thread}, armedThreads := reg.armedThreads - {thread});
      ReleaseAttachmentLocked(ThreadKey(thread));
      runs := runs[r := runs[r].(caller := RegReplay(pending, 0, None))];
    }

    /** attachExactStreamLocked until turnMu is released; a terminal run is not
        published and leaves its parked evidence behind. */
    method AttachExactStreamLocked(r: RunId)
      requires Starter.CanAttachPublish(Now(), r)
      modifies this`reg, this`runs, this`dropping
      ensures Now() == Starter.DoAttachPublish(old(Now()), r)
    {
      hide Without;
      var x := runs[r];
      var turn := x.run.turnId;
      reg := reg.(armedTurns := reg.armedTurns - {turn});
      ReleaseAttachmentLocked(TurnKey(turn));
      DeleteAttaching(x.run.threadId, r);
      if x.run.terminal {
        runs := runs[r := x.(caller := Attached, ordered := false)];
        return;
      }
      reg := reg.(streams := reg.streams[turn := Under(reg.streams, turn) + {r}]);
      var pending := ListAt(reg.pend, turn);
      reg := reg.(pend := reg.pend - {turn});
      runs := runs[r := x.(caller := Replay(pending, 0, false))];
    }

    // --------------------------------------------- finishing without attachment

    /** Disarms every turn armed for the run; only its own can be. */
    method DisarmOwned(r: RunId)
      requires r in runs && OwnTurnOnly(Now(), r)
      modifies this`reg, this`dropping
      ensures Now() == Disarmed(old(Now()), r)
    {
      ghost var s := Now();
      var turns := Ranged(reg.armedTurns.Keys);
      for k := 0 to |turns|
        invariant Now() == if exists j :: 0 <= j < k && s.reg.armedTurns[turns[j]] == r then Disarmed(s, r) else s
        invariant forall j :: k <= j < |turns| ==>
                    turns[j] in reg.armedTurns && reg.armedTurns[turns[j]] == s.reg.armedTurns[turns[j]]
      {
        var turn := turns[k];
        if reg.armedTurns[turn] == r {
          reg := reg.(armedTurns := reg.armedTurns - {turn});
          ReleaseAttachmentLocked(TurnKey(turn));
        }
      }
    }

    /** finishAttachingExactStream under turnMu: the scan of all armed turns and all
        parked lists finds what the run's own turn holds. */
    method FinishAttachingExactStream(r: RunId)
      requires Starter.CanFinishCollect(Now(), r) && Registration.RegistryInv(Now()) && NoEmptyLists(reg.pend)
      modifies this`reg, this`runs, this`dropping
      ensures Now() == Starter.DoFinishCollect(old(Now()), r)
    {
      hide Registration.RegistryInv, OwnTurnOnly, Without, NoEmptyLists, Starter.Mine, Starter.Kept, Starter.KeepOthers;
      ghost var s := Now();
      FindsOwn(s, r);
      var x := runs[r];
      DeleteAttaching(x.run.threadId, r);
      StillOwn(s, Now(), r);
      DisarmOwned(r);
      var pending, pend := CollectEvidence(reg.pend, evidence.owner, r, s);
      reg := reg.(pend := pend);
      var arm := if x.arm.Some? then Some(x.arm.value.(until := Some(|ingested|))) else None;
      runs := runs[r := x.(caller := FinResolve(pending, 0), arm := arm)];
    }

    // --------------------------------------------------------------- the snapshot

    /** failAll under turnMu. Everything parked, replaying or armed is taken; the
        snapshot happens once, by whoever claimed the failure. */
    method TakeSnapshot() returns (turns: seq<Id>, replaying: seq<RunId>, finishing: seq<RunId>)
      requires close.pub.Claimed? && Registration.RegistryInv(Now())
      modifies this`close, this`reg, this`runs, this`dropping, retention
      ensures Closing.CanSnapshot(old(Now()), turns, replaying, finishing)
      ensures Now() == Closing.DoSnapshot(old(Now()), turns, replaying, finishing)
    {
      hide Registration.RegistryInv, Closing.MarkAll, Closing.Registered, Closing.Replaying;
      hide Concat, ConcatReplays, RetainAll, Leases, Totals.Union;
      finishing := RegisteredRuns();
      var pending, replay;
      turns, pending := Flatten(reg.pend);
      replaying, replay := RetainReplays();
      EmptyRegistries(pending, replay, finishing);
    }

    method RegisteredRuns() returns (list: seq<RunId>)
      requires Registration.RegistryInv(Now())
      ensures Enumerates(list, Closing.Registered(Now()))
    {
      hide Registration.RegistryInv, Closing.Registered, Lists;
      Disjoint(Now());
      var streaming := Collect(reg.streams, runs.Keys);
      var attaching := Collect(reg.attaching, runs.Keys);
      RegisteredOnce(Now(), streaming, attaching);
      list := streaming + attaching;
    }

    method EmptyRegistries(pending: seq<Parked>, replay: seq<Parked>, finishing: seq<RunId>)
      modifies this`close, this`reg, this`runs, this`dropping
      ensures close == old(close).(pub := Draining(pending, replay, finishing)) && runs == Closing.MarkAll(old(runs))
      ensures reg == old(reg).(pend := map[], threadPend := map[], attachment := map[], armedThreads := {},
                armedTurns := map[])
      ensures dropping == old(dropping)
                + (Totals.Union(old(reg.threadPend), ListLeases) + Totals.Union(old(reg.attachment), One))
    {
      hide Totals.Union;
      dropping := dropping + (Totals.Union(reg.threadPend, ListLeases) + Totals.Union(reg.attachment, One));
      reg := reg.(pend := map[], threadPend := map[], attachment := map[], armedThreads := {}, armedTurns := map[]);
      runs := Closing.MarkAll(runs);
      close := close.(pub := Draining(pending, replay, finishing));
    }

    /** Evidence being replayed is retained once more for the publisher. */
    method RetainReplays() returns (replaying: seq<RunId>, replay: seq<Parked>)
      modifies retention
      ensures Enumerates(replaying, Closing.Replaying(old(Now()))) && replay == ConcatReplays(runs, replaying)
      ensures retention.Value() == RetainAll(old(retention.Value()), Leases(replay))
    {
      hide RetainAll, Leases, Enumerates;
      NothingRetained(retention.Value());
      var all := set r | r in runs && runs[r].caller.Replay?;
      replaying := Ranged(all);
      replay := [];
      for k := 0 to |replaying|
        invariant replay == ConcatReplays(runs, replaying[..k])
        invariant retention.Value() == RetainAll(old(retention.Value()), Leases(replay))
      {
        assert replaying[k] in replaying;
        ReplaysSnoc(runs, replaying[..k], replaying[k]);
        assert replaying[..k + 1] == replaying[..k] + [replaying[k]];
        var list := runs[replaying[k]].caller.list;
        ghost var before := replay;
        for i := 0 to |list|
          invariant replay == before + list[..i]
          invariant retention.Value() == RetainAll(old(retention.Value()), Leases(replay))
        {
          RetainOneMore(old(retention.Value()), replay, list[i]);
          assert list[..i + 1] == list[..i] + [list[i]];
          retention.Retain(list[i].lease);
          replay := replay + [list[i]];
        }
        assert list[..|list|] == list;
      }
      assert replaying[..|replaying|] == replaying;
    }

    // ------------------------------------------------------------------ the reader

    /** The runs a notification is for, in the order of two map ranges. */
    method Targets(note: Note) returns (order: seq<RunId>)
      requires Registration.RegistryInv(Now()) && (ClassOf(note).Turn? || ClassOf(note).Thread?)
      ensures multiset(order) == multiset(StreamTargets(Now(), note)) + multiset(AttachTargets(Now(), note))
      ensures forall r :: r in order <==> Scope.Receives(Now(), r, note)
      ensures forall i, j :: 0 <= i < j < |order| ==> order[i] != order[j]
    {
      hide Registration.RegistryInv, Lists, ClassOf, MatchesRun;
      ghost var s := Now();
      Disjoint(s);
      var wanted := set r | r in runs && MatchesRun(note, runs[r].run.threadId, runs[r].run.turnId);
      var turn := ClassOf(note).Turn?;
      var streams := if turn then map[note.turnId := Under(reg.streams, note.turnId)] else reg.streams;
      var first := Collect(streams, wanted);
      var bound := if turn then set r | r in wanted && runs[r].run.turnId == note.turnId else wanted;
      var second := Collect(reg.attaching, bound);
      StreamsListed(s, note, wanted, first);
      AttachingListed(s, note, bound, second);
      order := first + second;
      OrderedReceivers(s, note, order);
      EachOnce(s, streams, wanted, first, bound, second);
    }

    /** routeExactNotificationBeforeTerminalCompletion up to the release of turnMu. */
    method Route(note: Note, bytes: nat) returns (order: seq<RunId>)
      requires reader.Idle? && !close.closed && Registration.RegistryInv(Now())
      modifies this`reg, this`evidence, this`ingested, this`reader, retention
      ensures Reader.CanRoute(old(Now()), note, order) && Now() == Reader.DoRoute(old(Now()), note, order, bytes)
      ensures forall r :: r in order <==> Scope.Receives(old(Now()), r, note)
    {
      hide Registration.RegistryInv, StreamTargets, AttachTargets, ClassOf, MatchesRun, Scope.Receives;
      order := [];
      ghost var s := Now();
      if ClassOf(note).Turn? || ClassOf(note).Thread? { order := Targets(note); }
      Receivers(s, note, order);
      var no := |ingested|;
      reader := Routed(no, note, order, [], false, None);
      if order == [] && ClassOf(note).Thread? && note.threadId in reg.armedThreads {
        var lease := retention.Reserve(3, bytes);
        if lease.None? {
          reader := Routed(no, note, order, [], false, Some(ErrRetention));
        } else {
          var list := ListAt(reg.threadPend, note.threadId) + [Parked(no, note, lease.value)];
          reg := reg.(threadPend := reg.threadPend[note.threadId := list]);
        }
      } else if order == [] && ClassOf(note).Turn? && note.turnId in reg.armedTurns && note.turnId != "" {
        var owner := reg.armedTurns[note.turnId];
        if owner in runs && MatchesRun(note, runs[owner].run.threadId, runs[owner].run.turnId) {
          var lease := retention.Reserve(4, bytes);
          if lease.None? {
            reader := Routed(no, note, order, [], false, Some(ErrRetention));
          } else {
            var list := ListAt(reg.pend, note.turnId) + [Parked(no, note, lease.value)];
            reg := reg.(pend := reg.pend[note.turnId := list]);
            evidence := evidence.(owner := evidence.owner[no := owner]);
            reader := Routed(no, note, order, [], true, None);
          }
        }
      }
      ingested := ingested + [note];
    }

    /** acceptOrderedBeforeTerminalCompletion for the next target: a run that admits
        the frame retains it, and the first refusal of the budget is remembered. */
    method AcceptOrdered(bytes: nat)
      requires Reader.CanReaderAccept(Now())
      modifies this`reader, this`runs, this`dropping, retention
      ensures Now() == Reader.DoReaderAccept(old(Now()), bytes)
    {
      hide Admissible, AcceptRetained;
      var rd := reader;
      var r := rd.targets[0];
      reader := rd.(targets := rd.targets[1..]);
      if r !in runs || !Admissible(runs[r].run, rd.note) { return; }
      var lease := retention.Reserve(3, bytes);
      if lease.None? {
        if rd.failed.None? { reader := reader.(failed := Some(ErrRetention)); }
        return;
      }
      dropping := dropping + multiset{lease.value};
      var p := Parked(rd.frame, rd.note, lease.value);
      AcceptFrame(Now(), r, p);
      var completion := Accept(r, p);
      if completion.Some? { reader := reader.(completions := rd.completions + [completion.value]); }
    }

    /** armThreadAttach, on the thread/start response. */
    method ArmThreadAttach(thread: Id, bytes: nat)
      requires Reader.CanArmThread(Now(), thread)
      modifies this`reg, this`reader, retention
      ensures Now() == Reader.DoArmThread(old(Now()), thread, bytes)
    {
      if close.closed {
        reader := Failing(ErrClientClosed);
        return;
      }
      if ThreadKey(thread) !in reg.attachment {
        var lease := retention.Reserve(1, bytes);
        if lease.None? {
          reader := Failing(ErrRetention);
          return;
        }
        reg := reg.(attachment := reg.attachment[ThreadKey(thread) := lease.value]);
      }
      reg := reg.(armedThreads := reg.armedThreads + {thread});
    }

    /** armTurnAttach, on the turn/start response. */
    method ArmTurnAttach(r: RunId, turn: Id, bytes: nat)
      requires Reader.CanArmTurn(Now(), r, turn)
      modifies this`reg, this`runs, this`reader, retention
      ensures Now() == Reader.DoArmTurn(old(Now()), r, turn, bytes)
    {
      if close.closed {
        reader := Failing(ErrClientClosed);
        return;
      }
      if TurnKey(turn) !in reg.attachment {
        var lease := retention.Reserve(1, bytes);
        if lease.None? {
          reader := Failing(ErrRetention);
          return;
        }
        reg := reg.(attachment := reg.attachment[TurnKey(turn) := lease.value]);
      }
      reg := reg.(armedTurns := reg.armedTurns[turn := r]);
      runs := runs[r := runs[r].(caller := Answered, arm := Some(Arm(turn, |ingested|, None)))];
    }

    /** enqueueAcceptedNotification under closeMu: the queue is bounded, and a rejected
        entry owes the release of its dispatch fence. */
    method EnqueueAcceptedNotification(count: nat, bytes: nat)
      requires Reader.CanReaderEnqueue(Now())
      modifies this`reader, this`queue, this`dropping, retention
      ensures Now() == Reader.DoReaderEnqueue(old(Now()), count, bytes)
    {
      var rd := reader;
      var inline := if cfg.handler then [] else rd.completions;
      if close.closed {
        reader := Rejecting(rd.frame, rd.evidence, None, inline);
        return;
      }
      var lease := retention.Reserve(count, bytes);
      if lease.None? {
        reader := Rejecting(rd.frame, rd.evidence, Some(ErrRetention), []);
        return;
      }
      if |queue.queue| >= cfg.capacity {
        dropping := dropping + multiset{lease.value};
        reader := Rejecting(rd.frame, rd.evidence, Some(ErrBackpressure), []);
        return;
      }
      var e := Entry(queue.admitted, rd.frame, rd.evidence, if cfg.handler then rd.completions else [], lease.value);
      queue := queue.(queue := queue.queue + [e], admitted := queue.admitted + 1,
                      entryOf := queue.entryOf[rd.frame := queue.admitted],
                      work := queue.work + (if cfg.handler then 1 else 0));
      reader := Completing(inline);
    }

    // -------------------------------------------------------------- the dispatcher

    /** releaseDispatchWaiter closes the dispatch channel of parked evidence. */
    method ReleaseDispatchWaiter(e: Entry)
      modifies this`evidence, this`dropping
      ensures Now() == LetGo(ReleaseWaiter(old(Now()), e.frame, e.evidence), multiset{e.lease})
    {
      if e.evidence && cfg.handler {
        if e.frame in evidence.released {
          evidence := evidence.(doubleClosed := true);
        } else {
          evidence := evidence.(released := evidence.released + {e.frame});
        }
      }
      dropping := dropping + multiset{e.lease};
    }

    /** discardAcceptedNotifications drains the queue. */
    method DiscardAcceptedNotifications()
      modifies this`queue, this`evidence, this`dropping
      ensures Now() == DiscardAll(old(Now())) && queue.queue == []
    {
      hide DiscardFirst, ReleaseWaiter, LetGo;
      while queue.queue != []
        invariant DiscardAll(Now()) == DiscardAll(old(Now()))
        decreases |queue.queue|
      {
        DiscardShrinks(Now());
        DiscardOne();
      }
    }

    method DiscardOne()
      requires queue.queue != []
      modifies this`queue, this`evidence, this`dropping
      ensures Now() == DiscardFirst(old(Now()))
    {
      hide ReleaseWaiter;
      var e := queue.queue[0];
      ReleaseDispatchWaiter(e);
      queue := queue.(queue := queue.queue[1..], discarded := queue.discarded + {e.no},
                      work := if cfg.handler then queue.work - 1 else queue.work);
    }

    /** dispatchAcceptedNotification once every callback returned without error: the
        fence opens before the run completes. */
    method Deliver()
      requires Dispatch.MayDispatch(Now())
      modifies this`queue, this`evidence, this`dropping
      ensures Now() == Dispatch.DoDeliver(old(Now()))
    {
      hide ReleaseWaiter;
      var e := queue.disp.e;
      var fromEvidence := if e.evidence && e.frame in evidence.completion then [evidence.completion[e.frame]] else [];
      ReleaseDispatchWaiter(e);
      queue := queue.(delivered := queue.delivered + {e.no},
                      disp := if cfg.handler then Delivered(e, fromEvidence + e.completions) else Dispatcher.Waiting);
    }

    /** finishDispatchStop: evidence still awaited is opened without acceptance. */
    method BeginStopping()
      requires Dispatch.CanBeginStopping(Now())
      modifies this`queue, this`evidence
      ensures Now() == Dispatch.DoBeginStopping(old(Now()))
    {
      if queue.disp.Holding? && queue.disp.e.evidence && queue.disp.e.frame !in evidence.ready {
        evidence := evidence.(ready := evidence.ready + {queue.disp.e.frame});
      }
      queue := queue.(stopping := true);
    }
  }

  /** The state with the queue drained. */
  ghost function DiscardAll(s: State): State
    decreases |s.q.queue|
  {
    if s.q.queue == [] then s
    else
      DiscardShrinks(s);
      DiscardAll(DiscardFirst(s))
  }

  lemma DiscardShrinks(s: State)
    requires s.q.queue != []
    ensures DiscardFirst(s).q.queue == s.q.queue[1..]
  {
  }

  lemma Receivers(s: State, note: Note, order: seq<RunId>)
    requires Registration.RegistryInv(s) && Reader.CanRoute(s, note, order)
    ensures forall r :: r in order <==> Scope.Receives(s, r, note)
  {
    hide *;
    forall r ensures r in order <==> Scope.Receives(s, r, note) { Scope.OrderReceives(s, note, order, r); }
  }

  lemma OrderedReceivers(s: State, note: Note, order: seq<RunId>)
    requires Registration.RegistryInv(s) && (ClassOf(note).Turn? || ClassOf(note).Thread?)
    requires multiset(order) == multiset(StreamTargets(s, note)) + multiset(AttachTargets(s, note))
    ensures forall r :: r in order <==> Scope.Receives(s, r, note)
  {
    hide *;
    forall r ensures r in order <==> Scope.Receives(s, r, note) {
      Scope.TargetsReceive(s, note, r);
      assert r in order <==> r in multiset(order);
    }
  }

  /** Nobody is both streaming and attaching. */
  lemma EachOnce(s: State, streams: map<Id, set<RunId>>, wanted: set<RunId>, first: seq<RunId>, bound: set<RunId>,
                 second: seq<RunId>)
    requires Registration.RegistryInv(s) && Lists(first, streams, wanted) && Lists(second, s.reg.attaching, bound)
    requires forall t <- streams :: streams[t] == Under(s.reg.streams, t)
    ensures var order := first + second; forall i, j :: 0 <= i < j < |order| ==> order[i] != order[j]
  {
    hide Registration.RegistryInv;
    var order := first + second;
    forall i, j | 0 <= i < j < |order| ensures order[i] != order[j] {
      if i < |first| <= j {
        assert first[i] in first && second[j - |first|] in second;
        var t :| t in streams && first[i] in streams[t];
        var u :| u in s.reg.attaching && second[j - |first|] in s.reg.attaching[u];
        Registration.NeverInBoth(s, t, u, first[i]);
      }
    }
  }

  lemma StreamsListed(s: State, note: Note, wanted: set<RunId>, list: seq<RunId>)
    requires ClassOf(note).Turn? || ClassOf(note).Thread?
    requires forall r :: r in wanted <==> Matches(s, r, note)
    requires Lists(list, if ClassOf(note).Turn? then map[note.turnId := Under(s.reg.streams, note.turnId)]
               else s.reg.streams, wanted)
    ensures multiset(list) == multiset(StreamTargets(s, note))
  {
    hide ClassOf, Matches;
    if ClassOf(note).Turn? {
      var m := map[note.turnId := Under(s.reg.streams, note.turnId)];
      assert note.turnId in m;
      forall r ensures r in list <==> r in StreamTargets(s, note) {
        if r in StreamTargets(s, note) { assert r in m[note.turnId]; }
      }
    }
    DistinctEnumerates(list, StreamTargets(s, note));
  }

  lemma AttachingListed(s: State, note: Note, wanted: set<RunId>, list: seq<RunId>)
    requires forall r :: r in wanted <==>
               Matches(s, r, note) && (ClassOf(note).Turn? ==> s.slots[r].run.turnId == note.turnId)
    requires Lists(list, s.reg.attaching, wanted)
    ensures multiset(list) == multiset(AttachTargets(s, note))
  {
    hide ClassOf;
    DistinctEnumerates(list, AttachTargets(s, note));
  }

  lemma {:induction false} ConcatSnoc(m: map<Id, seq<Parked>>, keys: seq<Id>, k: Id)
    ensures Concat(m, keys + [k]) == Concat(m, keys) + ListAt(m, k)
  {
    if keys == [] {
      assert Concat(m, [k]) == ListAt(m, k) + Concat(m, []);
    } else {
      assert (keys + [k])[1..] == keys[1..] + [k];
      ConcatSnoc(m, keys[1..], k);
    }
  }

  lemma {:induction false} ReplaysSnoc(slots: map<RunId, Slot>, rs: seq<RunId>, r: RunId)
    ensures ConcatReplays(slots, rs + [r]) == ConcatReplays(slots, rs) + if r in slots
              then ReplayList(slots[r].caller) else []
  {
    if rs == [] {
      assert ConcatReplays(slots, [r]) == (if r in slots then ReplayList(slots[r].caller) else [])
          + ConcatReplays(slots, []);
    } else {
      assert (rs + [r])[1..] == rs[1..] + [r];
      ReplaysSnoc(slots, rs[1..], r);
    }
  }

  lemma NothingRetained(b: Budget)
    ensures RetainAll(b, Leases([])) == b
  {
  }

  lemma RetainOneMore(b: Budget, list: seq<Parked>, p: Parked)
    ensures RetainAll(b, Leases(list + [p])) == Retain(RetainAll(b, Leases(list)), p.lease)
  {
    LeasesSnoc(list, p);
    RetainAllSnoc(b, Leases(list), p.lease);
  }

  lemma {:induction false} LeasesSnoc(list: seq<Parked>, p: Parked)
    ensures Leases(list + [p]) == Leases(list) + [p.lease]
  {
    if list == [] {
      assert Leases([p]) == [p.lease] + Leases([]);
    } else {
      assert (list + [p])[1..] == list[1..] + [p];
      LeasesSnoc(list[1..], p);
    }
  }

  lemma {:induction false} RetainAllSnoc(b: Budget, ls: seq<LeaseId>, l: LeaseId)
    ensures RetainAll(b, ls + [l]) == Retain(RetainAll(b, ls), l)
    decreases |ls|
  {
    if ls == [] {
      assert (ls + [l])[1..] == [];
    } else {
      assert (ls + [l])[1..] == ls[1..] + [l];
      RetainAllSnoc(Retain(b, ls[0]), ls[1..], l);
    }
  }

  /** Distinct keys register distinct runs. */
  lemma Disjoint(s: State)
    requires Registration.RegistryInv(s)
    ensures forall t <- s.reg.streams, u <- s.reg.streams :: t != u ==> s.reg.streams[t] !! s.reg.streams[u]
    ensures forall t <- s.reg.attaching, u <- s.reg.attaching :: t != u ==> s.reg.attaching[t] !! s.reg.attaching[u]
  {
  }

  lemma RegisteredOnce(s: State, streaming: seq<RunId>, attaching: seq<RunId>)
    requires Registration.RegistryInv(s)
    requires Lists(streaming, s.reg.streams, s.slots.Keys) && Lists(attaching, s.reg.attaching, s.slots.Keys)
    ensures Enumerates(streaming + attaching, Closing.Registered(s))
  {
    var all := streaming + attaching;
    forall r ensures r in all <==> r in Closing.Registered(s) {
      if r in Closing.Registered(s) { OnlyRuns(s, r); }
    }
    forall i, j | 0 <= i < j < |all| ensures all[i] != all[j] {
      if i < |streaming| <= j {
        assert streaming[i] in streaming && attaching[j - |streaming|] in attaching;
        var t :| t in s.reg.streams && streaming[i] in s.reg.streams[t];
        var u :| u in s.reg.attaching && attaching[j - |streaming|] in s.reg.attaching[u];
        Registration.NeverInBoth(s, t, u, streaming[i]);
      }
    }
    DistinctEnumerates(all, Closing.Registered(s));
  }

  lemma OnlyRuns(s: State, r: RunId)
    requires Registration.RegistryInv(s) && r in Closing.Registered(s)
    ensures r in s.slots
  {
  }

  lemma {:induction false} DistinctEnumerates<T(!new)>(list: seq<T>, elems: set<T>)
    requires (forall x :: x in list <==> x in elems) && forall i, j :: 0 <= i < j < |list| ==> list[i] != list[j]
    ensures Enumerates(list, elems)
    decreases |list|
  {
    if list == [] {
      assert elems == {};
    } else {
      var x, rest := list[0], list[1..];
      assert list == [x] + rest;
      forall y ensures y in rest <==> y in elems - {x} {
        assert y in rest <==> y in list && y != x;
      }
      DistinctEnumerates(rest, elems - {x});
      assert elems == (elems - {x}) + {x};
    }
  }

  /** The wanted runs of a registry, each once. */
  ghost predicate Lists(list: seq<RunId>, registry: map<Id, set<RunId>>, wanted: set<RunId>) {
    && (forall r :: r in list <==> r in wanted && exists t :: t in registry && r in registry[t])
    && forall i, j :: 0 <= i < j < |list| ==> list[i] != list[j]
  }

  method Collect(registry: map<Id, set<RunId>>, wanted: set<RunId>) returns (list: seq<RunId>)
    requires forall t <- registry, u <- registry :: t != u ==> registry[t] !! registry[u]
    ensures Lists(list, registry, wanted)
  {
    var keys := Ranged(registry.Keys);
    list := [];
    for i := 0 to |keys|
      invariant forall r :: r in list <==> r in wanted && exists j :: 0 <= j < i && r in registry[keys[j]]
      invariant forall a, b :: 0 <= a < b < |list| ==> list[a] != list[b]
    {
      assert keys[i] in keys;
      var some := Ranged(registry[keys[i]] * wanted);
      forall j | 0 <= j < i ensures registry[keys[j]] !! registry[keys[i]] { assert keys[j] in keys; }
      ghost var before := list;
      list := list + some;
      forall a, b | 0 <= a < b < |list| ensures list[a] != list[b] {
        if a < |before| <= b { assert list[a] in before && some[b - |before|] in some; }
      }
    }
  }

  /** All parked lists, one turn after another. */
  method Flatten(pend: map<Id, seq<Parked>>) returns (turns: seq<Id>, pending: seq<Parked>)
    ensures Enumerates(turns, pend.Keys) && pending == Concat(pend, turns)
  {
    turns := Ranged(pend.Keys);
    pending := [];
    for k := 0 to |turns|
      invariant pending == Concat(pend, turns[..k])
    {
      assert turns[k] in turns;
      ConcatSnoc(pend, turns[..k], turns[k]);
      assert turns[..k + 1] == turns[..k] + [turns[k]];
      pending := pending + pend[turns[k]];
    }
    assert turns[..|turns|] == turns;
  }

  ghost predicate NoEmptyLists(pend: map<Id, seq<Parked>>) { forall t <- pend :: pend[t] != [] }

  predicate IsOwnTurn(s: State, r: RunId, turn: Id)
    requires r in s.slots
  {
    s.slots[r].arm.Some? && s.slots[r].arm.value.turn == turn
  }

  ghost function OwnEvidence(s: State, r: RunId): seq<Parked>
    requires r in s.slots
  {
    if s.slots[r].arm.None? then [] else Starter.Mine(s, ListAt(s.reg.pend, s.slots[r].arm.value.turn), r)
  }

  ghost function Remaining(s: State, r: RunId): map<Id, seq<Parked>>
    requires r in s.slots
  {
    if s.slots[r].arm.None? then s.reg.pend else Starter.KeepOthers(s, s.slots[r].arm.value.turn, r)
  }

  /** Only the run's own turn is armed for it or holds its evidence. */
  ghost predicate OwnTurnOnly(s: State, r: RunId)
    requires r in s.slots
  {
    && (forall t <- s.reg.armedTurns :: s.reg.armedTurns[t] == r ==> IsOwnTurn(s, r, t))
    && (forall t <- s.reg.pend, p <- s.reg.pend[t] :: Starter.OwnedBy(s, p, r) ==> IsOwnTurn(s, r, t))
  }

  lemma FindsOwn(s: State, r: RunId)
    requires r in s.slots && Registration.RegistryInv(s)
    ensures OwnTurnOnly(s, r)
  {
    hide Registration.RegistryInv;
    forall t <- s.reg.armedTurns | s.reg.armedTurns[t] == r ensures IsOwnTurn(s, r, t) {
      Registration.FinishScansEverything(s, r, t);
    }
    forall t <- s.reg.pend, p <- s.reg.pend[t] | Starter.OwnedBy(s, p, r) ensures IsOwnTurn(s, r, t) {
      Registration.FinishScansEverything(s, r, t);
      assert p in ListAt(s.reg.pend, t);
    }
  }

  lemma StillOwn(s: State, t: State, r: RunId)
    requires r in s.slots && OwnTurnOnly(s, r) && t == s.(reg := s.reg.(attaching := t.reg.attaching))
    ensures OwnTurnOnly(t, r)
  {
    forall u <- t.reg.pend, p <- t.reg.pend[u] | Starter.OwnedBy(t, p, r) ensures IsOwnTurn(t, r, u) {
      assert p in s.reg.pend[u] && Starter.OwnedBy(s, p, r);
    }
  }

  method Split(list: seq<Parked>, owner: map<nat, RunId>, r: RunId, ghost s: State) returns (mine: seq<Parked>,
          kept: seq<Parked>)
    requires s.ev.owner == owner
    ensures mine == Starter.Mine(s, list, r) && kept == Starter.Kept(s, list, r)
  {
    mine, kept := [], [];
    for i := 0 to |list|
      invariant mine == Starter.Mine(s, list[..i], r) && kept == Starter.Kept(s, list[..i], r)
    {
      assert list[..i + 1][..i] == list[..i];
      if list[i].no in owner && owner[list[i].no] == r {
        mine := mine + [list[i]];
      } else {
        kept := kept + [list[i]];
      }
    }
    assert list[..|list|] == list;
  }

  /** Takes the run's own evidence out of every parked list. */
  method CollectEvidence(parked: map<Id, seq<Parked>>, owner: map<nat, RunId>, r: RunId, ghost s: State)
    returns (pending: seq<Parked>, pend: map<Id, seq<Parked>>)
    requires r in s.slots && OwnTurnOnly(s, r) && NoEmptyLists(s.reg.pend)
    requires s.ev.owner == owner && s.reg.pend == parked
    ensures pending == OwnEvidence(s, r) && pend == Remaining(s, r)
  {
    hide Starter.Mine, Starter.Kept, Starter.KeepOthers, OwnTurnOnly, OwnEvidence, Remaining, NoEmptyLists;
    var turns := Ranged(parked.Keys);
    pending, pend := [], parked;
    ghost var found := false;
    NoTurn(s, r, turns);
    for k := 0 to |turns|
      invariant forall j :: k <= j < |turns| ==> turns[j] in pend && pend[turns[j]] == parked[turns[j]]
      invariant found ==> exists j :: 0 <= j < k && IsOwnTurn(s, r, turns[j])
      invariant !found ==> forall j :: 0 <= j < k ==> !IsOwnTurn(s, r, turns[j])
      invariant pending == (if found then OwnEvidence(s, r) else [])
      invariant pend == (if found then Remaining(s, r) else parked)
    {
      var turn := turns[k];
      assert turn in turns;
      var mine, kept := Split(pend[turn], owner, r, s);
      OneTaken(s, r, turn, found, pend, mine, kept);
      pending := pending + mine;
      pend := if kept == [] then pend - {turn} else pend[turn := kept];
      found := found || IsOwnTurn(s, r, turn);
    }
  }

  /** One more list is gone through, and at most one is the own turn's. */
  lemma OneTaken(s: State, r: RunId, turn: Id, found: bool, pend: map<Id, seq<Parked>>, mine: seq<Parked>,
                 kept: seq<Parked>)
    requires r in s.slots && turn in s.reg.pend && OwnTurnOnly(s, r) && NoEmptyLists(s.reg.pend)
    requires turn in pend && pend[turn] == s.reg.pend[turn] && pend == if found then Remaining(s, r) else s.reg.pend
    requires mine == Starter.Mine(s, pend[turn], r) && kept == Starter.Kept(s, pend[turn], r)
    requires !(found && IsOwnTurn(s, r, turn))
    ensures var now := found || IsOwnTurn(s, r, turn);
            && (if found then OwnEvidence(s, r) else []) + mine == (if now then OwnEvidence(s, r) else [])
            && (if kept == [] then pend - {turn} else pend[turn := kept]) == if now then Remaining(s, r) else s.reg.pend
    ensures var after := if kept == [] then pend - {turn} else pend[turn := kept];
            forall u <- pend :: u != turn ==> u in after && after[u] == pend[u]
  {
    hide Starter.Mine, Starter.Kept, Starter.KeepOthers, OwnTurnOnly, OwnEvidence, Remaining, NoEmptyLists;
    OneTurn(s, r, turn);
    if !IsOwnTurn(s, r, turn) { assert pend[turn := kept] == pend; }
  }

  lemma {:induction false} NothingMine(s: State, list: seq<Parked>, r: RunId)
    requires forall p <- list :: !Starter.OwnedBy(s, p, r)
    ensures Starter.Mine(s, list, r) == [] && Starter.Kept(s, list, r) == list
    decreases |list|
  {
    if list == [] {
    } else {
      assert list == list[..|list| - 1] + [list[|list| - 1]];
      NothingMine(s, list[..|list| - 1], r);
    }
  }

  /** What one parked list contributes: the own turn everything, another nothing. */
  lemma OneTurn(s: State, r: RunId, turn: Id)
    requires r in s.slots && turn in s.reg.pend && OwnTurnOnly(s, r) && NoEmptyLists(s.reg.pend)
    ensures var mine, kept := Starter.Mine(s, s.reg.pend[turn], r), Starter.Kept(s, s.reg.pend[turn], r);
            if IsOwnTurn(s, r, turn)
            then OwnEvidence(s, r) == mine && Remaining(s, r) == if kept == [] then s.reg.pend - {turn}
                else s.reg.pend[turn := kept]
            else mine == [] && kept == s.reg.pend[turn] && kept != []
                 && (turn in Remaining(s, r) && Remaining(s, r)[turn] == kept)
    ensures forall u <- s.reg.pend :: u != turn && IsOwnTurn(s, r, turn) ==>
              u in Remaining(s, r) && Remaining(s, r)[u] == s.reg.pend[u]
  {
    hide Starter.Mine, Starter.Kept;
    if !IsOwnTurn(s, r, turn) { NothingMine(s, s.reg.pend[turn], r); }
  }

  lemma NoTurn(s: State, r: RunId, turns: seq<Id>)
    requires r in s.slots && forall x :: x in turns <==> x in s.reg.pend.Keys
    ensures (forall j :: 0 <= j < |turns| ==> !IsOwnTurn(s, r, turns[j])) ==>
              OwnEvidence(s, r) == [] && Remaining(s, r) == s.reg.pend
  {
    if (forall j :: 0 <= j < |turns| ==> !IsOwnTurn(s, r, turns[j])) && s.slots[r].arm.Some? {
      var turn := s.slots[r].arm.value.turn;
      assert turn !in turns;
      assert s.reg.pend - {turn} == s.reg.pend;
    }
  }

  /** The state once the run's own turn is disarmed. */
  ghost function Disarmed(s: State, r: RunId): State
    requires r in s.slots
  {
    var x := s.slots[r];
    if x.arm.Some? && x.arm.value.turn in s.reg.armedTurns && s.reg.armedTurns[x.arm.value.turn] == r
    then ReleaseAttachment(s.(reg := s.reg.(armedTurns := s.reg.armedTurns - {x.arm.value.turn})),
        TurnKey(x.arm.value.turn))
    else s
  }

  /** The elements of a set in the order in which they happen to be ranged over. */
  method Ranged<T(==, !new)>(elems: set<T>) returns (list: seq<T>)
    ensures Enumerates(list, elems) && |list| == |elems|
    ensures (forall x :: x in list <==> x in elems) && forall i, j :: 0 <= i < j < |list| ==> list[i] != list[j]
  {
    list := [];
    var todo := elems;
    while todo != {}
      invariant todo <= elems && (forall x :: x in list <==> x in elems && x !in todo) && |list| + |todo| == |elems|
      invariant forall i, j :: 0 <= i < j < |list| ==> list[i] != list[j]
      invariant multiset(list) + multiset(todo) == multiset(elems)
      decreases |todo|
    {
      var x :| x in todo;
      list := list + [x];
      assert multiset(todo) == multiset(todo - {x}) + multiset{x};
      todo := todo - {x};
    }
  }

  // ------------------------------------------------- no parked list is ever empty

  lemma FinishKeepsRegistry(s: State, r: RunId, err: Option<Err>, via: Via)
    ensures FinishRun(s, r, err, via).reg == s.reg
  {
  }

  lemma WaiterKeepsRegistry(s: State, frame: nat, evidence: bool)
    ensures ReleaseWaiter(s, frame, evidence).reg == s.reg
  {
  }

  lemma ReaderParks(s: State, a: Reader.Action)
    requires NoEmptyLists(s.reg.pend) && Reader.Enabled(s, a)
    ensures NoEmptyLists(Reader.Step(s, a).reg.pend)
  {
    hide AcceptRetained, FinishRun, ReleaseWaiter;
    match a
    case Accept(bytes) => AcceptParks(s, bytes);
    case Complete =>
      if s.reader.inline != [] { FinishKeepsRegistry(s, s.reader.inline[0].run, s.reader.inline[0].err, ByReader); }
    case Reject => WaiterKeepsRegistry(s, s.reader.frame, s.reader.fenced);
    case _ =>
  }

  lemma AcceptParks(s: State, bytes: nat)
    requires Reader.CanReaderAccept(s)
    ensures Reader.DoReaderAccept(s, bytes).reg == s.reg
  {
    hide AcceptRetained, Admissible;
    var rd := s.reader;
    var (b, l) := Reserve(s.mem.budget, 3, bytes);
    if l.Some? {
      var s1 := LetGo(s.(reader := rd.(targets := rd.targets[1..])), multiset{l.value});
      AcceptFrame(s1.(mem := s1.mem.(budget := b)), rd.targets[0], Parked(rd.frame, rd.note, l.value));
    }
  }

  lemma ResolveParks(s: State, p: Parked, r: RunId)
    ensures Resolve(s, p, r).reg == s.reg
  {
    ResolveFrame(s, p, r);
  }

  lemma StarterParks(s: State, r: RunId, a: Starter.Action)
    requires NoEmptyLists(s.reg.pend) && Starter.Enabled(s, r, a)
    ensures NoEmptyLists(Starter.Step(s, r, a).reg.pend)
  {
    hide AcceptRetained, FinishRun, Resolve, Starter.Kept, Starter.Mine, Without, With, ListLeases;
    match a
    case FinishRefused => FinishKeepsRegistry(SetCaller(s, r, Over), r, Some(s.slots[r].caller.refusal), ByError);
    case RegisterAccept => AcceptFrame(s, r, s.slots[r].caller.list[s.slots[r].caller.regNext]);
    case RegisterComplete =>
      var c := s.slots[r].caller;
      FinishKeepsRegistry(SetCaller(s, r, c.(todo := None)), c.todo.value.run, c.todo.value.err, ByRegister);
    case AttachResolve => ResolveParks(s, s.slots[r].caller.list[s.slots[r].caller.next], r);
    case AttachNext =>
      var c := s.slots[r].caller;
      var no := c.list[c.next].no;
      if no in s.ev.completion {
        FinishKeepsRegistry(SetCaller(s, r, c.(next := c.next + 1, resolved := false)),
                            s.ev.completion[no].run, s.ev.completion[no].err, ByReplay);
      }
    case FinishResolve => ResolveParks(s, s.slots[r].caller.list[s.slots[r].caller.finNext], r);
    case FinishComplete =>
      var c := s.slots[r].caller;
      var no := c.list[c.doneNext].no;
      if no in s.ev.completion {
        FinishKeepsRegistry(SetCaller(s, r, c.(doneNext := c.doneNext + 1)),
                            s.ev.completion[no].run, s.ev.completion[no].err, ByFinish(no));
      }
    case FinishEnd(err) =>
      FinishKeepsRegistry(LetGo(SetCaller(s, r, Over), ListLeases(s.slots[r].caller.list)), r, Some(err), ByError);
    case ExternalFinish(err) => FinishKeepsRegistry(s, r, Some(err), ByError);
    case _ =>
  }

  lemma CloserParks(s: State, a: Closing.Action)
    requires NoEmptyLists(s.reg.pend) && Closing.Enabled(s, a)
    ensures NoEmptyLists(Closing.Step(s, a).reg.pend)
  {
    hide FinishRun, Resolve, ReleaseWaiter, Closing.MarkAll, Closing.Overtakes, Release, RetainAll;
    match a
    case PublishPending =>
      var p := s.close.pub.pending[0];
      if p.no in s.ev.owner { ResolveParks(s, p, s.ev.owner[p.no]); }
    case PublishReplay =>
      var p := s.close.pub.replay[0];
      if p.no in s.ev.owner { ResolveParks(s, p, s.ev.owner[p.no]); }
    case PublishFinish => FinishKeepsRegistry(s, s.close.pub.finishing[0], Cause(s), ByError);
    case DiscardQueued => WaiterKeepsRegistry(s, s.q.queue[0].frame, s.q.queue[0].evidence);
    case _ =>
  }

  lemma DispatcherParks(s: State, a: Dispatch.Action)
    requires NoEmptyLists(s.reg.pend) && Dispatch.Enabled(s, a)
    ensures NoEmptyLists(Dispatch.Step(s, a).reg.pend)
  {
    hide FinishRun, ReleaseWaiter;
    match a
    case Deliver => WaiterKeepsRegistry(s, s.q.disp.e.frame, s.q.disp.e.evidence);
    case DiscardHeld => WaiterKeepsRegistry(s, s.q.disp.e.frame, s.q.disp.e.evidence);
    case DiscardHead => WaiterKeepsRegistry(s, s.q.queue[0].frame, s.q.queue[0].evidence);
    case Complete =>
      var c := s.q.disp.completions[0];
      FinishKeepsRegistry(s, c.run, c.err, ByDispatch(s.q.disp.e.frame));
    case _ =>
  }

  /** The precondition of finishing without attachment holds in every reachable state. */
  lemma {:induction false} NeverEmptyLists(states: seq<State>, actions: seq<Client.Action>, i: nat)
    requires Client.IsRun(states, actions) && i < |states|
    ensures NoEmptyLists(states[i].reg.pend)
  {
    hide NoEmptyLists, Client.Step, Client.Enabled, Reader.Step, Starter.Step, Closing.Step, Dispatch.Step;
    if i == 0 {
      StartsEmpty(states[0]);
    } else {
      NeverEmptyLists(states, actions, i - 1);
      assert Client.Enabled(states[i - 1], actions[i - 1]) && states[i] == Client.Step(states[i - 1], actions[i - 1]);
      StepParks(states[i - 1], actions[i - 1]);
    }
  }

  lemma StartsEmpty(s: State)
    requires Client.IsInit(s)
    ensures NoEmptyLists(s.reg.pend)
  {
  }

  lemma StepParks(s: State, a: Client.Action)
    requires NoEmptyLists(s.reg.pend) && Client.Enabled(s, a)
    ensures NoEmptyLists(Client.Step(s, a).reg.pend)
  {
    hide NoEmptyLists, Reader.Step, Starter.Step, Closing.Step, Dispatch.Step;
    match a
    case ByReader(b) => ReaderParks(s, b);
    case ByStarter(r, b) => StarterParks(s, r, b);
    case ByCloser(b) => CloserParks(s, b);
    case ByDispatcher(b) => DispatcherParks(s, b);
  }
}
