/** The notification, exact-run and close protocol of codexsdk.Client as a state
    machine. Every action is one critical section of one goroutine: of turnMu,
    closeMu, a run's mu, or an evidence's once. A run's notificationOrderMu is
    held across several actions and appears as `ordered`. */
module ClientState {
  import opened Wrappers
  import opened Attribution
  import opened Retention
  import opened ExactRun
  import Totals

  type RunId = nat

  /** A retained copy of an ingested frame (rpcNotification, or a thread-scoped
      notification pending for a thread that is being attached). */
  datatype Parked = Parked(no: nat, note: Note, lease: LeaseId)

  /** A deferred terminal completion of a run. */
  datatype Completion = Completion(run: RunId, err: Option<Err>)

  /** An admitted queue entry; `no` counts admissions. */
  datatype Entry = Entry(no: nat, frame: nat, evidence: bool, completions: seq<Completion>, lease: LeaseId)

  /** Where the goroutine that starts a run stands. */
  datatype Caller =
    | Created
    | Refused(refusal: Err)
    | RegReplay(list: seq<Parked>, regNext: nat, todo: Option<Completion>)
    | Calling
    | Answered
    | Window                                          // order gate held, turn id published
    | Replay(list: seq<Parked>, next: nat, resolved: bool) // order gate held
    | Attached
    | FinLocked                                       // order gate held
    | FinResolve(list: seq<Parked>, finNext: nat)           // order gate held
    | FinComplete(list: seq<Parked>, doneNext: nat)
    | Over

  /** The turn/start response bound this turn to the run when `at` frames had been
      ingested; `until` is where finishing without attachment disarmed it. */
  datatype Arm = Arm(turn: Id, at: nat, until: Option<nat>)

  /** Which path completed a run. */
  datatype Via =
    | NotFinished | ByDispatch(frame: nat) | ByFinish(frame: nat) | ByRegister | ByReader | ByReplay | ByError

  datatype Slot = Slot(
    run: Run, caller: Caller, ordered: bool, arm: Option<Arm>,
    gone: bool,     // unregisterExactRun has run
    taken: bool,    // the failure snapshot took its parked evidence
    copied: bool,   // the failure snapshot copied its replay list
    via: Via)

  datatype Reader =
    | Idle
    | Routed(frame: nat, note: Note, targets: seq<RunId>, completions: seq<Completion>,
             evidence: bool, failed: Option<Err>)
    | Failing(err: Err)
    | Rejecting(frame: nat, fenced: bool, refusal: Option<Err>, rest: seq<Completion>)
    | Completing(inline: seq<Completion>)

  datatype Publisher =
    | NoPublisher
    | Claimed
    | Draining(pending: seq<Parked>, replay: seq<Parked>, finishing: seq<RunId>)
    | Published

  datatype Dispatcher =
    | Waiting
    | Holding(e: Entry)
    | Delivered(e: Entry, completions: seq<Completion>)
    | Aborting(e: Entry, failed: Option<Err>)
    | Discarding
    | Exited

  datatype Key = ThreadKey(thread: Id) | TurnKey(turn: Id)

  datatype Config = Config(handler: bool, capacity: nat)

  /** Guarded by closeMu, with the progress of the one close publisher and of the
      contexts and channels that closing cancels. */
  datatype Close = Close(
    closed: bool, reason: Option<Err>, failure: Option<Err>,
    pub: Publisher, cancelled: bool, stopped: bool)

  /** The retention budget. `dropping` holds leases whose owner has let go and
      whose release call is still to come; `diagnostics` those held for diagnostics
      of frames that could not be decoded, pending for a turn, being attached, or
      recorded by a run. */
  datatype Memory = Memory(budget: Budget, dropping: multiset<LeaseId>, diagnostics: multiset<LeaseId>)

  /** Guarded by turnMu. */
  datatype Registry = Registry(
    streams: map<Id, set<RunId>>, attaching: map<Id, set<RunId>>,
    armedThreads: set<Id>, armedTurns: map<Id, RunId>, attachment: map<Key, LeaseId>,
    pend: map<Id, seq<Parked>>, threadPend: map<Id, seq<Parked>>)

  /** Evidence of parked turn frames, keyed by frame: the run it was parked for,
      whether its once has fired, the completion it holds, and whether its
      dispatch channel is closed. */
  datatype Evidence = Evidence(
    owner: map<nat, RunId>, ready: set<nat>, completion: map<nat, Completion>,
    released: set<nat>, doubleClosed: bool)

  /** The bounded FIFO, the serial dispatcher and the callback-work count; and, as
      history, each frame's admission, the entries whose callbacks returned
      without error, and the discarded entries. */
  datatype Queue = Queue(
    queue: seq<Entry>, admitted: nat, entryOf: map<nat, nat>,
    disp: Dispatcher, stopping: bool, work: int,
    delivered: set<nat>, discarded: set<nat>)

  /** `unreg` holds the runs whose unregister step is outstanding; `log` the frames
      ingested so far. */
  datatype State = State(
    cfg: Config, close: Close, mem: Memory, reg: Registry,
    slots: map<RunId, Slot>, unreg: set<RunId>, ev: Evidence,
    log: seq<Note>, reader: Reader, q: Queue)

  function Init(handler: bool, capacity: nat, maxCount: nat, maxBytes: nat): State {
    State(Config(handler, capacity),
          Close(false, None, None, NoPublisher, false, false),
          Memory(NewBudget(maxCount, maxBytes), multiset{}, multiset{}),
          Registry(map[], map[], {}, map[], map[], map[], map[]),
          map[], {}, Evidence(map[], {}, map[], {}, false),
          [], Idle, Queue([], 0, map[], Waiting, false, 0, {}, {}))
  }

  function Under<K, V>(m: map<K, set<V>>, k: K): set<V> { if k in m then m[k] else {} }

  function ListAt<K, V>(m: map<K, seq<V>>, k: K): seq<V> { if k in m then m[k] else [] }

  /** Removes a run from a registry; a key never maps to the empty set. */
  function Without(m: map<Id, set<RunId>>, k: Id, r: RunId): map<Id, set<RunId>> {
    if k !in m then m
    else if m[k] - {r} == {} then m - {k}
    else m[k := m[k] - {r}]
  }

  function With(m: map<Id, set<RunId>>, k: Id, r: RunId): map<Id, set<RunId>> {
    m[k := Under(m, k) + {r}]
  }

  function SetRun(s: State, r: RunId, run: Run): State
    requires r in s.slots
  {
    s.(slots := s.slots[r := s.slots[r].(run := run)])
  }

  function SetCaller(s: State, r: RunId, c: Caller): State
    requires r in s.slots
  {
    s.(slots := s.slots[r := s.slots[r].(caller := c)])
  }

  /** An owner lets go of leases; each release call is an action of its own. */
  function LetGo(s: State, ls: multiset<LeaseId>): State {
    s.(mem := s.mem.(dropping := s.mem.dropping + ls))
  }

  function SetDispatcher(s: State, d: Dispatcher): State { s.(q := s.q.(disp := d)) }

  function SetPublisher(s: State, p: Publisher): State { s.(close := s.close.(pub := p)) }

  /** Parked evidence of run `r` that nobody has resolved. */
  predicate Open(ev: Evidence, r: RunId, no: nat) { no in ev.owner && ev.owner[no] == r && no !in ev.ready }

  function ParkTurn(s: State, turn: Id, p: Parked): State {
    s.(reg := s.reg.(pend := s.reg.pend[turn := ListAt(s.reg.pend, turn) + [p]]))
  }

  function ParkThread(s: State, thread: Id, p: Parked): State {
    s.(reg := s.reg.(threadPend := s.reg.threadPend[thread := ListAt(s.reg.threadPend, thread) + [p]]))
  }

  function Cause(s: State): Option<Err> { if s.close.reason.Some? then s.close.reason else s.close.failure }

  /** claimFailureLocked: the first failure closes admission and owns the
      publication of the close cause. */
  function ClaimFailure(s: State, err: Err): State {
    if s.close.closed then s
    else s.(close := s.close.(closed := true, failure := Some(err), reason := Some(err), pub := Claimed))
  }

  /** finishState; its caller owes one unregister step. */
  function FinishRun(s: State, r: RunId, err: Option<Err>, via: Via): State {
    if r !in s.slots || s.slots[r].run.terminal then s
    else s.(slots := s.slots[r := s.slots[r].(run := Finish(s.slots[r].run, Cause(s), err), via := via)],
            unreg := s.unreg + {r})
  }

  /** releaseAttachmentLocked */
  function ReleaseAttachment(s: State, key: Key): State {
    if key in s.reg.attachment
    then LetGo(s.(reg := s.reg.(attachment := s.reg.attachment - {key})), multiset{s.reg.attachment[key]})
    else s
  }

  /** Closing a dispatch channel, which exists only when there are callbacks. */
  function ReleaseWaiter(s: State, frame: nat, evidence: bool): State {
    if !evidence || !s.cfg.handler then s
    else if frame in s.ev.released then s.(ev := s.ev.(doubleClosed := true))
    else s.(ev := s.ev.(released := s.ev.released + {frame}))
  }

  /** acceptRetainedBeforeTerminalCompletion with a lease the caller already owns. */
  function AcceptRetained(s: State, r: RunId, p: Parked): (State, Option<Completion>) {
    if r !in s.slots || !Admissible(s.slots[r].run, p.note) then (s, None)
    else
      var (run, a) := Accept(s.slots[r].run, Frame(p.no, p.note), p.lease);
      (SetRun(s, r, run).(mem := s.mem.(budget := Retain(s.mem.budget, p.lease))),
       if a.Ended? then Some(Completion(r, a.err)) else None)
  }

  /** resolveEvidence: at most one acceptance per evidence. */
  function Resolve(s: State, p: Parked, r: RunId): State {
    if p.no in s.ev.ready then s
    else
      var (s1, c) := AcceptRetained(s, r, p);
      s1.(ev := s1.ev.(ready := s.ev.ready + {p.no},
                       completion := if c.Some? then s.ev.completion[p.no := c.value] else s.ev.completion))
  }

  lemma ReleaseAttachmentFrame(s: State, key: Key)
    ensures var t := ReleaseAttachment(s, key); t == s.(reg := t.reg, mem := t.mem)
  {
  }

  /** What acceptance, resolution and completion leave alone. */
  lemma AcceptFrame(s: State, r: RunId, p: Parked)
    ensures var t := AcceptRetained(s, r, p).0;
            t == s.(slots := t.slots, mem := s.mem.(budget := t.mem.budget)) && t.slots.Keys == s.slots.Keys
  {
  }

  lemma ResolveFrame(s: State, p: Parked, r: RunId)
    ensures var t := Resolve(s, p, r);
            t == s.(slots := t.slots, mem := s.mem.(budget := t.mem.budget), ev := t.ev) && t.slots.Keys == s.slots.Keys
  {
  }

  ghost function StreamTargets(s: State, note: Note): set<RunId> {
    if ClassOf(note) == Turn
    then set r | r in Under(s.reg.streams, note.turnId) && Matches(s, r, note)
    else set t, r | t in s.reg.streams && r in s.reg.streams[t] && Matches(s, r, note) :: r
  }

  ghost function AttachTargets(s: State, note: Note): set<RunId> {
    set t, r | t in s.reg.attaching && r in s.reg.attaching[t] && Matches(s, r, note)
               && (ClassOf(note) == Turn ==> s.slots[r].run.turnId == note.turnId) :: r
  }

  predicate Matches(s: State, r: RunId, note: Note) {
    r in s.slots && MatchesRun(note, s.slots[r].run.threadId, s.slots[r].run.turnId)
  }

  /** The evidence owner a turn frame without live target is parked for. */
  predicate Parkable(s: State, note: Note) {
    && note.turnId in s.reg.armedTurns && note.turnId != ""
    && Matches(s, s.reg.armedTurns[note.turnId], note)
  }

  function Concat(m: map<Id, seq<Parked>>, keys: seq<Id>): seq<Parked> {
    if keys == [] then [] else ListAt(m, keys[0]) + Concat(m, keys[1..])
  }

  function ReplayList(c: Caller): seq<Parked> { if c.Replay? then c.list else [] }

  function ConcatReplays(slots: map<RunId, Slot>, rs: seq<RunId>): seq<Parked> {
    if rs == [] then []
    else (if rs[0] in slots then ReplayList(slots[rs[0]].caller) else []) + ConcatReplays(slots, rs[1..])
  }

  function Leases(list: seq<Parked>): seq<LeaseId> {
    if list == [] then [] else [list[0].lease] + Leases(list[1..])
  }

  function ListLeases(list: seq<Parked>): multiset<LeaseId> { multiset(Leases(list)) }

  function One(l: LeaseId): multiset<LeaseId> { multiset{l} }

  ghost predicate Enumerates<T(!new)>(list: seq<T>, elems: set<T>) {
    multiset(list) == multiset(elems)
  }

  function SettleWork(s: State): int { if s.cfg.handler then s.q.work - 1 else s.q.work }

  ghost function DiscardFirst(s: State): State
    requires s.q.queue != []
  {
    var e := s.q.queue[0];
    LetGo(ReleaseWaiter(s, e.frame, e.evidence), multiset{e.lease})
      .(q := s.q.(queue := s.q.queue[1..], discarded := s.q.discarded + {e.no}, work := SettleWork(s)))
  }
}
