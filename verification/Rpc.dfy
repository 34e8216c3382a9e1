/** RPC calls: admission, response routing, cancellation and the failure snapshot
    compete for each pending call; exactly one of them gets it
    (codexsdk/client.go). */
module Rpc {
  import opened Wrappers

  type CallId = nat

  datatype Response = Reply(tag: nat) | Failed(cause: nat)

  /** Who removed the call from `pending`. */
  datatype Taker = TheCaller | TheReader | TheSnapshot

  /** Where the calling goroutine stands. A receiving caller found its call gone
      and waits on its channel without a way out. */
  datatype CallPhase = Writing | Selecting | Receiving | Returned(got: Option<Response>)

  /** `sent` lists everything ever sent on the call's channel, which has one slot. */
  datatype Call = Call(phase: CallPhase, taker: Option<Taker>, sent: seq<Response>)

  /** `pending` and `closed` are guarded by closeMu. `routing` is the call the
      reader took and has not answered yet, `failing` the calls the snapshot took
      and has not answered yet. */
  datatype State = State(
    closed: bool, pending: set<CallId>, calls: map<CallId, Call>,
    routing: Option<CallId>, failing: set<CallId>, drained: bool)

  function Init(): State { State(false, {}, map[], None, {}, false) }

  datatype Action =
    | Admit(id: CallId)
    | WriteOk(id: CallId)
    | WriteFails(id: CallId)
    | ContextDone(id: CallId)
    | Receive(id: CallId)
    | TakeResponse(id: CallId)
    | SendResponse(response: Response)
    | Close
    | Drain
    | SendFailure(id: CallId, cause: nat)

  predicate CanReceive(c: Call) { (c.phase.Selecting? || c.phase.Receiving?) && c.sent != [] }

  predicate Enabled(s: State, a: Action) {
    match a
    case Admit(id) => id !in s.calls
    case WriteOk(id) => id in s.calls && s.calls[id].phase.Writing?
    case WriteFails(id) => id in s.calls && s.calls[id].phase.Writing?
    case ContextDone(id) => id in s.calls && s.calls[id].phase.Selecting?
    case Receive(id) => id in s.calls && CanReceive(s.calls[id])
    case TakeResponse(_) => s.routing.None?
    case SendResponse(_) => s.routing.Some? && s.routing.value in s.calls
    case Close => true
    case Drain => s.closed && !s.drained
    case SendFailure(id, _) => id in s.failing && id in s.calls
  }

  /** takePending by the caller itself: on success it returns, otherwise it is left
      waiting on the channel. */
  function CallerTakes(s: State, id: CallId): State
    requires id in s.calls
  {
    if id in s.pending
    then s.(pending := s.pending - {id},
            calls := s.calls[id := s.calls[id].(phase := Returned(None), taker := Some(TheCaller))])
    else s.(calls := s.calls[id := s.calls[id].(phase := Receiving)])
  }

  function Send(s: State, id: CallId, r: Response): State
    requires id in s.calls
  {
    s.(calls := s.calls[id := s.calls[id].(sent := s.calls[id].sent + [r])])
  }

  function Taken(c: Call, t: Taker): Call { c.(taker := Some(t)) }

  function SnapshotTakes(calls: map<CallId, Call>, ids: set<CallId>): map<CallId, Call> {
    map id | id in calls :: if id in ids then Taken(calls[id], TheSnapshot) else calls[id]
  }

  function Step(s: State, a: Action): State
    requires Enabled(s, a)
  {
    match a
    case Admit(id) =>
      if s.closed then s.(calls := s.calls[id := Call(Returned(None), None, [])])
      else s.(pending := s.pending + {id}, calls := s.calls[id := Call(Writing, None, [])])
    case WriteOk(id) => s.(calls := s.calls[id := s.calls[id].(phase := Selecting)])
    case WriteFails(id) => CallerTakes(s, id)
    case ContextDone(id) => CallerTakes(s, id)
    case Receive(id) => s.(calls := s.calls[id := s.calls[id].(phase := Returned(Some(s.calls[id].sent[0])))])
    case TakeResponse(id) =>
      if id !in s.pending || id !in s.calls then s
      else s.(pending := s.pending - {id}, routing := Some(id), calls := s.calls[id := Taken(s.calls[id], TheReader)])
    case SendResponse(r) => Send(s, s.routing.value, r).(routing := None)
    case Close => s.(closed := true)
    case Drain => s.(pending := {}, calls := SnapshotTakes(s.calls, s.pending), failing := s.pending, drained := true)
    case SendFailure(id, cause) => Send(s, id, Failed(cause)).(failing := s.failing - {id})
  }

  /** A call that somebody took and will still answer. */
  predicate Owed(s: State, id: CallId) { s.routing == Some(id) || id in s.failing }

  /** One outcome per call. */
  predicate CallOk(s: State, id: CallId)
    requires id in s.calls
  {
    var c := s.calls[id];
    && (id in s.pending <==> c.taker.None? && !c.phase.Returned?)
    && |c.sent| <= 1
    && (c.taker.None? || c.taker.value.TheCaller? ==> c.sent == [] && !Owed(s, id))
    && (c.taker.Some? && c.taker.value.TheCaller? ==> c.phase == Returned(None))
    && (c.taker.Some? && !c.taker.value.TheCaller? ==> (c.sent == [] <==> Owed(s, id)))
    && (c.phase.Receiving? ==> c.taker.Some?)
    && (c.phase.Returned? && c.phase.got.Some? ==> c.sent == [c.phase.got.value])
    && !(s.routing == Some(id) && id in s.failing)
  }

  ghost predicate Inv(s: State) {
    && (forall id <- s.calls :: CallOk(s, id))
    && (forall id <- s.pending :: id in s.calls)
    && (s.routing.Some? ==> s.routing.value in s.calls)
    && (forall id <- s.failing :: id in s.calls)
    && (s.drained ==> s.closed && s.pending == {})
    && (s.failing != {} ==> s.drained)
  }

  /** Once somebody took a call nobody else ever does, and what was sent stays. */
  predicate CallEvolves(a: Call, b: Call) {
    && (a.taker.Some? ==> b.taker == a.taker)
    && a.sent <= b.sent
    && (a.phase.Returned? ==> b.phase == a.phase)
  }

  ghost predicate Evolves(a: State, b: State) {
    && (forall id <- a.calls :: id in b.calls && CallEvolves(a.calls[id], b.calls[id]))
    && (a.drained ==> b.drained && b.pending == {})
  }

  lemma StepsCall(s: State, a: Action, id: CallId)
    requires Inv(s) && Enabled(s, a) && id in Step(s, a).calls
    ensures CallOk(Step(s, a), id)
    ensures id in s.calls ==> CallEvolves(s.calls[id], Step(s, a).calls[id])
  {
    if id in s.calls { assert CallOk(s, id); }
  }

  lemma Steps(s: State, a: Action)
    requires Inv(s) && Enabled(s, a)
    ensures Inv(Step(s, a)) && Evolves(s, Step(s, a))
  {
    hide CallOk, CallEvolves;
    var s' := Step(s, a);
    assert forall id <- s.calls :: id in s'.calls;
    forall id <- s'.calls ensures CallOk(s', id) && (id in s.calls ==> CallEvolves(s.calls[id], s'.calls[id])) {
      StepsCall(s, a, id);
    }
  }

  ghost predicate IsRun(states: seq<State>, actions: seq<Action>) {
    && |states| == |actions| + 1 && states[0] == Init()
    && forall i :: 0 <= i < |actions| ==> Enabled(states[i], actions[i]) && states[i + 1] == Step(states[i], actions[i])
  }

  lemma {:induction false} AlwaysInv(states: seq<State>, actions: seq<Action>, i: nat)
    requires IsRun(states, actions) && i < |states|
    ensures Inv(states[i])
  {
    if i > 0 {
      AlwaysInv(states, actions, i - 1);
      Steps(states[i - 1], actions[i - 1]);
    }
  }

  /** At any point of any run: a call is pending exactly until one of its caller,
      the reader and the snapshot takes it; at most one response is ever sent; and a
      caller left waiting has one or is owed one. */
  lemma OneOutcome(states: seq<State>, actions: seq<Action>, i: nat, id: CallId)
    requires IsRun(states, actions) && i < |states| && id in states[i].calls
    ensures var s := states[i]; var c := s.calls[id];
            && |c.sent| <= 1
            && (id in s.pending ==> c.taker.None? && c.sent == [])
            && (c.taker == Some(TheCaller) ==> c.sent == [] && c.phase == Returned(None))
            && (c.phase.Receiving? ==> |c.sent| == 1 || Owed(s, id))
            && (c.phase.Returned? && c.phase.got.Some? ==> c.sent == [c.phase.got.value])
  {
    AlwaysInv(states, actions, i);
    assert CallOk(states[i], id);
  }

  /** Takers, sent responses and outcomes never change; after the drain nothing is
      ever pending again. */
  lemma {:induction false} OutcomesStay(states: seq<State>, actions: seq<Action>, i: nat, j: nat)
    requires IsRun(states, actions) && i <= j < |states|
    ensures Evolves(states[i], states[j])
    ensures states[i].drained ==> states[j].pending == {}
    decreases j
  {
    hide Step, Enabled, CallEvolves, CallOk;
    AlwaysInv(states, actions, j);
    if i == j {
      EvolvesSame(states[i]);
    } else {
      OutcomesStay(states, actions, i, j - 1);
      AlwaysInv(states, actions, j - 1);
      Steps(states[j - 1], actions[j - 1]);
      EvolvesThen(states[i], states[j - 1], states[j]);
    }
  }

  lemma EvolvesSame(a: State)
    requires Inv(a)
    ensures Evolves(a, a)
  {
  }

  lemma EvolvesThen(a: State, b: State, c: State)
    requires Evolves(a, b) && Evolves(b, c)
    ensures Evolves(a, c)
  {
  }

  /** Somebody answered the call: the reader with what it had taken for this call, or
      the snapshot's owner with a failure. */
  predicate Answers(s: State, a: Action, id: CallId, r: Response) {
    (a == SendResponse(r) && s.routing == Some(id)) || (r.Failed? && a == SendFailure(id, r.cause))
  }

  /** The reader took the call because a response for its id came in. */
  ghost predicate TookFor(states: seq<State>, actions: seq<Action>, i: nat, id: CallId) {
    exists k: nat :: k < i && k < |actions| && k < |states| && actions[k] == TakeResponse(id) && id in states[k].pending
  }

  ghost predicate Answered(states: seq<State>, actions: seq<Action>, i: nat, id: CallId, r: Response) {
    exists k: nat :: k < i && k < |actions| && k < |states| && Answers(states[k], actions[k], id, r)
  }

  lemma RoutedLater(states: seq<State>, actions: seq<Action>, i: nat, id: CallId, r: Response)
    ensures TookFor(states, actions, i, id) ==> TookFor(states, actions, i + 1, id)
    ensures Answered(states, actions, i, id, r) ==> Answered(states, actions, i + 1, id, r)
  {
  }

  /** Whatever a call receives was sent for this very call: a response that came in
      under its id, or the failure the snapshot owed it. */
  lemma {:induction false} AnswersComeFrom(states: seq<State>, actions: seq<Action>, i: nat, id: CallId, r: Response)
    requires IsRun(states, actions) && i < |states| && id in states[i].calls
    ensures states[i].calls[id].sent == [r] ==> Answered(states, actions, i, id, r)
    ensures states[i].routing == Some(id) ==> TookFor(states, actions, i, id)
    ensures states[i].calls[id].phase == Returned(Some(r)) ==> Answered(states, actions, i, id, r)
    decreases i
  {
    hide TookFor, Answered, Step, Enabled, Inv, Answers;
    AlwaysInv(states, actions, i);
    OneOutcome(states, actions, i, id);
    if i > 0 {
      var s, a := states[i - 1], actions[i - 1];
      AlwaysInv(states, actions, i - 1);
      RoutedLater(states, actions, i - 1, id, r);
      if id in s.calls { AnswersComeFrom(states, actions, i - 1, id, r); }
      JustHappened(states, actions, i - 1, id, r);
      SentBy(s, a, id, r);
    }
  }

  lemma JustHappened(states: seq<State>, actions: seq<Action>, k: nat, id: CallId, r: Response)
    requires k < |actions| && k < |states|
    ensures Answers(states[k], actions[k], id, r) ==> Answered(states, actions, k + 1, id, r)
    ensures actions[k] == TakeResponse(id) && id in states[k].pending ==> TookFor(states, actions, k + 1, id)
  {
  }

  /** Only an answer puts something on a call's channel, and only a taken response is
      routed. */
  lemma SentBy(s: State, a: Action, id: CallId, r: Response)
    requires Inv(s) && Enabled(s, a) && id in Step(s, a).calls && |Step(s, a).calls[id].sent| <= 1
    ensures var t := Step(s, a);
            && (t.calls[id].sent == [r] ==> Answers(s, a, id, r) || (id in s.calls && s.calls[id].sent == [r]))
            && (t.routing == Some(id) ==> s.routing == Some(id) || (a == TakeResponse(id) && id in s.pending))
            && (t.routing == Some(id) ==> id in s.calls)
  {
    var t := Step(s, a);
    if a.SendResponse? && s.routing == Some(id) {
      assert t.calls[id].sent[|s.calls[id].sent|] == a.response;
    } else if a.SendFailure? && a.id == id {
      assert t.calls[id].sent[|s.calls[id].sent|] == Failed(a.cause);
    }
  }

  /** The map of admitted calls as the client keeps it. */
  class PendingCalls {
    var closed: bool
    var pending: map<CallId, nat>

    constructor ()
      ensures !closed && pending == map[]
    {
      closed, pending := false, map[];
    }

    /** admitPending */
    method Admit(id: CallId, call: nat) returns (ok: bool)
      modifies this`pending
      ensures ok == !closed
      ensures pending == if closed then old(pending) else old(pending)[id := call]
    {
      if closed { return false; }
      pending := pending[id := call];
      return true;
    }

    /** takePending: whoever finds the call owns its outcome. */
    method Take(id: CallId) returns (call: Option<nat>)
      modifies this`pending
      ensures call == if id in old(pending) then Some(old(pending)[id]) else None
      ensures pending == old(pending) - {id}
    {
      if id in pending {
        call := Some(pending[id]);
        pending := pending - {id};
      } else {
        call := None;
        assert pending - {id} == pending;
      }
    }

    /** The draining loop of failAll: every pending call exactly once. */
    method Drain() returns (taken: seq<CallId>)
      modifies this`pending
      ensures pending == map[]
      ensures forall id :: id in taken <==> id in old(pending)
      ensures forall i, j :: 0 <= i < j < |taken| ==> taken[i] != taken[j]
    {
      taken := [];
      while pending != map[]
        invariant forall id :: id in old(pending) <==> id in pending || id in taken
        invariant forall id :: id in pending ==> id !in taken
        invariant forall i, j :: 0 <= i < j < |taken| ==> taken[i] != taken[j]
        decreases |pending|
      {
        var id :| id in pending;
        assert id !in taken;
        pending := pending - {id};
        taken := taken + [id];
      }
    }
  }
}
