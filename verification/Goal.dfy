/** Observing the lifecycle of a native goal
    (codexsdk/internal/codexexec/goal.go): notifications, and the one verification a
    turn may ask for. */
module Goal {
  import opened Wrappers

  datatype GoalStatus = Unset | Active | Complete | Paused | Blocked | UsageLimited | BudgetLimited | Unknown

  datatype Failure =
    | IdentityInvalid | GoalPaused | GoalBlocked | GoalUsageLimited | GoalBudgetLimited | StatusInvalid
    | TurnSequenceInvalid | TurnFailed | GoalCleared | RequestRejected | VerificationFailed

  /** One critical section of the observation. `Requested` is one pass of the
      admission loop of a well-formed request, `Rejected` the end of one that is
      malformed or waited too long; `Undelivered` and `Ended` are the last sections of
      an admitted request. */
  datatype Input =
    | Bound(thread: string)
    | GoalUpdated(thread: string, goalThread: string, objective: string, status: GoalStatus)
    | TurnStarted(thread: string, id: string, inProgress: bool)
    | TurnCompleted(thread: string, id: string, succeeded: bool)
    | Cleared
    | OtherNotification
    | Rejected
    | Requested(thread: string, turn: string, cancelled: bool)
    | Undelivered
    | Ended

  datatype State = State(thread: string, activeTurn: string, failure: Option<Failure>, status: GoalStatus,
                         completedTurn: bool, verifying: bool)

  const INITIAL := State("", "", None, Unset, false, false)

  function StatusFailure(status: GoalStatus): Option<Failure> {
    match status
    case Active => None
    case Complete => None
    case Paused => Some(GoalPaused)
    case Blocked => Some(GoalBlocked)
    case UsageLimited => Some(GoalUsageLimited)
    case BudgetLimited => Some(GoalBudgetLimited)
    case _ => Some(StatusInvalid)
  }

  function Fail(s: State, f: Failure): State { if s.failure.None? then s.(failure := Some(f)) else s }

  predicate Admits(s: State, input: Input) {
    && input.Requested? && !input.cancelled && input.thread == s.thread && s.failure.None? && !s.verifying
    && input.turn != "" && s.activeTurn == input.turn
  }

  /** A pass that ends in a rejection. */
  predicate Refuses(s: State, input: Input) {
    input.Requested? && (input.turn == "" || input.cancelled || input.thread != s.thread || s.failure.Some?
        || s.verifying)
  }

  function Step(objective: string, s: State, input: Input): State {
    match input
    case Bound(thread) => s.(thread := thread)
    case Rejected => Fail(s, RequestRejected)
    case Requested(_, _, _) =>
      if Refuses(s, input) then Fail(s, RequestRejected) else if Admits(s, input) then s.(verifying := true) else s
    case Undelivered => Fail(s, VerificationFailed)
    case Ended => s.(verifying := false)
    case _ => if s.failure.Some? then s else Observed(objective, s, input)
  }

  function Observed(objective: string, s: State, input: Input): State {
    match input
    case GoalUpdated(thread, goalThread, goal, status) =>
      if thread != s.thread then s
      else if goalThread != s.thread || goal != objective then Fail(s, IdentityInvalid)
      else s.(status := status, failure := StatusFailure(status))
    case TurnStarted(thread, id, inProgress) =>
      if thread != s.thread then Fail(s, IdentityInvalid)
      else if id == "" || s.activeTurn != "" || !inProgress || s.status.Complete? then Fail(s, TurnSequenceInvalid)
      else s.(activeTurn := id)
    case TurnCompleted(thread, id, succeeded) =>
      if thread != s.thread then Fail(s, IdentityInvalid)
      else if id == "" || id != s.activeTurn then Fail(s, TurnSequenceInvalid)
      else if !succeeded then Fail(s, TurnFailed)
      else s.(activeTurn := "", completedTurn := true)
    case Cleared => Fail(s, GoalCleared)
    case _ => s
  }

  function Run(objective: string, inputs: seq<Input>): State {
    if inputs == [] then INITIAL
    else Step(objective, Run(objective, inputs[..|inputs| - 1]), inputs[|inputs| - 1])
  }

  /** What the runner waits for, once it has seen no failure. */
  predicate Ready(s: State) { s.status.Complete? && s.activeTurn == "" && s.completedTurn && !s.verifying }

  // ------------------------------------------------------- what the trace says

  /** The thread bound last. */
  function Thread(inputs: seq<Input>): string {
    if inputs == [] then ""
    else
      var last := inputs[|inputs| - 1];
      if last.Bound? then last.thread else Thread(inputs[..|inputs| - 1])
  }

  /** The status of the last update of the own goal. */
  function LastStatus(inputs: seq<Input>): GoalStatus {
    if inputs == [] then Unset
    else
      var init, last := inputs[..|inputs| - 1], inputs[|inputs| - 1];
      if last.GoalUpdated? && last.thread == Thread(init) then last.status else LastStatus(init)
  }

  /** The turn notifications. */
  function Turns(inputs: seq<Input>): seq<Input> {
    if inputs == [] then []
    else
      var init, last := inputs[..|inputs| - 1], inputs[|inputs| - 1];
      Turns(init) + if last.TurnStarted? || last.TurnCompleted? then [last] else []
  }

  /** Turns start and complete in alternation, each with its own id. */
  predicate Alternate(turns: seq<Input>) {
    forall k :: 0 <= k < |turns| ==> InTurn(turns, k)
  }

  predicate InTurn(turns: seq<Input>, k: nat)
    requires k < |turns|
  {
    Follows(turns[..k], turns[k])
  }

  /** May this turn notification come next? */
  predicate Follows(turns: seq<Input>, t: Input) {
    if |turns| % 2 == 0 then t.TurnStarted? && t.id != "" && t.inProgress
    else t.TurnCompleted? && t.succeeded && turns[|turns| - 1].TurnStarted? && t.id == turns[|turns| - 1].id
  }

  /** Admitted verifications that have not ended. */
  function InFlight(objective: string, inputs: seq<Input>): int {
    if inputs == [] then 0
    else
      var init, last := inputs[..|inputs| - 1], inputs[|inputs| - 1];
      InFlight(objective, init) + if Admits(Run(objective, init), last) then 1 else if last.Ended? then -1 else 0
  }

  /** Only an admitted verification ends. */
  ghost predicate Legal(objective: string, inputs: seq<Input>) {
    forall i :: 0 <= i < |inputs| && (inputs[i].Ended? || inputs[i].Undelivered?) ==>
        InFlight(objective, inputs[..i]) > 0
  }

  /** An input that gives no offence where it stands. */
  ghost predicate Proper(objective: string, before: seq<Input>, input: Input) {
    match input
    case GoalUpdated(thread, goalThread, goal, status) =>
      thread == Thread(before) ==> goalThread == thread && goal == objective && (status.Active? || status.Complete?)
    case TurnStarted(thread, _, _) => thread == Thread(before) && !LastStatus(before).Complete?
    case TurnCompleted(thread, _, _) => thread == Thread(before)
    case Cleared => false
    case Rejected => false
    case Undelivered => false
    case Requested(thread, turn, cancelled) =>
      thread == Thread(before) && turn != "" && !cancelled && InFlight(objective, before) == 0
    case _ => true
  }

  ghost predicate Clean(objective: string, inputs: seq<Input>) {
    Alternate(Turns(inputs)) && AllProper(objective, inputs)
  }

  ghost predicate AllProper(objective: string, inputs: seq<Input>) {
    forall i :: 0 <= i < |inputs| ==> Proper(objective, inputs[..i], inputs[i])
  }

  lemma LegalSplits(objective: string, inputs: seq<Input>)
    requires inputs != [] && Legal(objective, inputs)
    ensures Legal(objective, inputs[..|inputs| - 1])
    ensures inputs[|inputs| - 1].Ended? || inputs[|inputs| - 1].Undelivered? ==>
              InFlight(objective, inputs[..|inputs| - 1]) > 0
  {
    hide InFlight;
    var init := inputs[..|inputs| - 1];
    forall i | 0 <= i < |init| && (init[i].Ended? || init[i].Undelivered?) ensures InFlight(objective, init[..i]) > 0 {
      assert inputs[..i] == init[..i] && inputs[i] == init[i];
    }
  }

  lemma ProperSplits(objective: string, inputs: seq<Input>)
    requires inputs != []
    ensures var init, last := inputs[..|inputs| - 1], inputs[|inputs| - 1];
            AllProper(objective, inputs) <==> AllProper(objective, init) && Proper(objective, init, last)
  {
    hide Proper;
    var init, last := inputs[..|inputs| - 1], inputs[|inputs| - 1];
    assert forall i :: 0 <= i < |init| ==> inputs[..i] == init[..i] && inputs[i] == init[i];
  }

  lemma AlternateSnoc(turns: seq<Input>, t: Input)
    ensures Alternate(turns + [t]) <==> Alternate(turns) && Follows(turns, t)
  {
    hide Follows;
    var all := turns + [t];
    forall k | 0 <= k < |turns| ensures InTurn(all, k) == InTurn(turns, k) {
      assert all[..k] == turns[..k];
    }
    assert all[..|turns|] == turns;
    assert InTurn(all, |turns|) == Follows(turns, t);
  }

  lemma ObservedKeeps(objective: string, s: State, input: Input)
    ensures Observed(objective, s, input).verifying == s.verifying && Observed(objective, s, input).thread == s.thread
  {
  }

  /** At every moment at most one verification runs. */
  lemma {:induction false} OneVerification(objective: string, inputs: seq<Input>)
    requires Legal(objective, inputs)
    ensures InFlight(objective, inputs) == if Run(objective, inputs).verifying then 1 else 0
    decreases |inputs|
  {
    if inputs == [] {
    } else {
      hide Observed, Legal;
      LegalSplits(objective, inputs);
      OneVerification(objective, inputs[..|inputs| - 1]);
      ObservedKeeps(objective, Run(objective, inputs[..|inputs| - 1]), inputs[|inputs| - 1]);
    }
  }

  /** The first failure is final. */
  lemma {:induction false} FirstFailureStays(objective: string, inputs: seq<Input>, more: seq<Input>)
    requires Run(objective, inputs).failure.Some?
    ensures Run(objective, inputs + more).failure == Run(objective, inputs).failure
    decreases |more|
  {
    if more == [] {
      assert inputs + more == inputs;
    } else {
      var all := inputs + more;
      assert all[..|all| - 1] == inputs + more[..|more| - 1];
      FirstFailureStays(objective, inputs, more[..|more| - 1]);
    }
  }

  /** The state in terms of the trace, as long as nothing failed. */
  ghost predicate Mirrors(objective: string, inputs: seq<Input>, s: State) {
    var turns := Turns(inputs);
    && s.status == LastStatus(inputs) && (s.completedTurn <==> |turns| >= 2)
        && s.verifying == (InFlight(objective, inputs) == 1)
    && s.activeTurn == ActiveIn(turns)
  }

  lemma {:induction false} FailureFree(objective: string, inputs: seq<Input>)
    requires Legal(objective, inputs)
    ensures var s := Run(objective, inputs);
            && s.thread == Thread(inputs) && (s.failure.None? <==> Clean(objective, inputs))
            && (s.failure.None? ==> Mirrors(objective, inputs, s))
    decreases |inputs|
  {
    hide Legal, Clean, Mirrors, Step;
    if inputs == [] {
      NothingFailed(objective);
    } else {
      LegalSplits(objective, inputs);
      FailureFree(objective, inputs[..|inputs| - 1]);
      OneVerification(objective, inputs[..|inputs| - 1]);
      OneVerification(objective, inputs);
      FailureFreeStep(objective, inputs);
    }
  }

  lemma NothingFailed(objective: string)
    ensures Clean(objective, []) && Mirrors(objective, [], INITIAL)
  {
  }

  lemma FailureFreeStep(objective: string, inputs: seq<Input>)
    requires inputs != []
    requires var init := inputs[..|inputs| - 1];
             var s := Run(objective, init);
             && s.thread == Thread(init) && (s.failure.None? <==> Clean(objective, init))
             && (s.failure.None? ==> Mirrors(objective, init, s))
             && InFlight(objective, init) == if s.verifying then 1 else 0
    requires InFlight(objective, inputs) == if Run(objective, inputs).verifying then 1 else 0
    ensures var s := Run(objective, inputs);
            && s.thread == Thread(inputs) && (s.failure.None? <==> Clean(objective, inputs))
            && (s.failure.None? ==> Mirrors(objective, inputs, s))
  {
    hide Alternate, AllProper, Step, InFlight, Proper, Follows;
    var init, last := inputs[..|inputs| - 1], inputs[|inputs| - 1];
    var s := Run(objective, init);
    ProperSplits(objective, inputs);
    StepKeeps(objective, s, last);
    AlternateSnoc(Turns(init), last);
    assert Turns(inputs) == if last.TurnStarted? || last.TurnCompleted? then Turns(init) + [last] else Turns(init);
    if s.failure.None? {
      if last.TurnStarted? || last.TurnCompleted? {
        TurnStep(objective, init, s, last);
      } else {
        OtherStep(objective, init, s, last);
      }
    }
  }

  /** A failure stays, and only binding changes the thread. */
  lemma StepKeeps(objective: string, s: State, input: Input)
    ensures s.failure.Some? ==> Step(objective, s, input).failure == s.failure
    ensures Step(objective, s, input).thread == if input.Bound? then input.thread else s.thread
  {
    ObservedKeeps(objective, s, input);
  }

  ghost function ActiveIn(turns: seq<Input>): string {
    if |turns| % 2 == 1 && turns[|turns| - 1].TurnStarted? then turns[|turns| - 1].id else ""
  }

  /** A turn notification fails exactly when it is improper or breaks the alternation. */
  lemma TurnStep(objective: string, before: seq<Input>, s: State, t: Input)
    requires s.failure.None? && (t.TurnStarted? || t.TurnCompleted?)
    requires s.thread == Thread(before) && Alternate(Turns(before))
    requires s.status == LastStatus(before) && s.activeTurn == ActiveIn(Turns(before))
    requires (s.completedTurn <==> |Turns(before)| >= 2)
    ensures var r := Step(objective, s, t);
            && (r.failure.None? <==> Proper(objective, before, t) && Follows(Turns(before), t))
            && (r.failure.None? ==> r.status == s.status && r.activeTurn == ActiveIn(Turns(before) + [t])
                                    && (r.completedTurn <==> |Turns(before)| + 1 >= 2))
  {
    hide Turns, Thread, LastStatus;
    var turns := Turns(before);
    if |turns| % 2 == 1 { LastStarted(turns); }
  }

  /** Any other input fails exactly when it is improper. */
  lemma OtherStep(objective: string, before: seq<Input>, s: State, t: Input)
    requires s.failure.None? && !t.TurnStarted? && !t.TurnCompleted? && s.thread == Thread(before)
    requires InFlight(objective, before) == if s.verifying then 1 else 0
    ensures var r := Step(objective, s, t);
            && (r.failure.None? <==> Proper(objective, before, t))
            && (r.failure.None? ==> r.activeTurn == s.activeTurn && r.completedTurn == s.completedTurn
                                    && r.status == if t.GoalUpdated? && t.thread == s.thread then t.status
                                        else s.status)
  {
    hide Turns, Thread, LastStatus, InFlight;
  }

  /** The runner reports completion exactly when the trace is clean, every started
      turn completed, at least one did, the own goal was last reported complete, and
      no verification is running. */
  lemma ReadyExactly(objective: string, inputs: seq<Input>)
    requires Legal(objective, inputs)
    ensures Run(objective, inputs).failure.None? && Ready(Run(objective, inputs))
       <==> && Clean(objective, inputs) && |Turns(inputs)| >= 2 && |Turns(inputs)| % 2 == 0
            && LastStatus(inputs).Complete? && InFlight(objective, inputs) == 0
  {
    hide Run, Legal, AllProper, LastStatus, InFlight, Turns;
    FailureFree(objective, inputs);
    OneVerification(objective, inputs);
    if Clean(objective, inputs) && |Turns(inputs)| % 2 == 1 { LastStarted(Turns(inputs)); }
  }

  lemma LastStarted(turns: seq<Input>)
    requires Alternate(turns) && |turns| % 2 == 1
    ensures turns[|turns| - 1].TurnStarted? && turns[|turns| - 1].id != ""
  {
    assert InTurn(turns, |turns| - 1);
  }

  /** A verification is admitted only for the turn that is running, and alone. */
  lemma AdmittedForActiveTurn(objective: string, inputs: seq<Input>, input: Input)
    requires Legal(objective, inputs) && Admits(Run(objective, inputs), input)
    ensures var turns := Turns(inputs);
            turns != [] && turns[|turns| - 1].TurnStarted? && turns[|turns| - 1].id == input.turn
    ensures InFlight(objective, inputs) == 0 && Clean(objective, inputs)
  {
    FailureFree(objective, inputs);
    OneVerification(objective, inputs);
  }

  /** A request is admitted exactly when nothing has failed, it is for the bound thread
      and the turn that is running, its caller still waits, and no verification runs. */
  lemma AdmittedExactly(objective: string, inputs: seq<Input>, thread: string, turn: string, cancelled: bool)
    requires Legal(objective, inputs)
    ensures Admits(Run(objective, inputs), Requested(thread, turn, cancelled)) <==>
            && Clean(objective, inputs) && thread == Thread(inputs) && turn != "" && !cancelled
            && InFlight(objective, inputs) == 0
            && Turns(inputs) != [] && Turns(inputs)[|Turns(inputs)| - 1].TurnStarted?
            && Turns(inputs)[|Turns(inputs)| - 1].id == turn
  {
    hide Run, Legal, AllProper, LastStatus, InFlight, Turns, Thread;
    FailureFree(objective, inputs);
    OneVerification(objective, inputs);
    var turns := Turns(inputs);
    if Alternate(turns) && turns != [] { LastFollows(turns); }
  }

  lemma LastFollows(turns: seq<Input>)
    requires Alternate(turns) && turns != []
    ensures turns[|turns| - 1].TurnStarted? <==> |turns| % 2 == 1
  {
    assert InTurn(turns, |turns| - 1);
  }

  /** What each failure says of the input that caused it. */
  ghost predicate Causes(objective: string, before: seq<Input>, input: Input, f: Failure) {
    var own := Thread(before);
    match f
    case IdentityInvalid =>
      || (input.GoalUpdated? && input.thread == own && (input.goalThread != own || input.objective != objective))
      || ((input.TurnStarted? || input.TurnCompleted?) && input.thread != own)
    case GoalPaused => OwnUpdate(objective, before, input) && input.status.Paused?
    case GoalBlocked => OwnUpdate(objective, before, input) && input.status.Blocked?
    case GoalUsageLimited => OwnUpdate(objective, before, input) && input.status.UsageLimited?
    case GoalBudgetLimited => OwnUpdate(objective, before, input) && input.status.BudgetLimited?
    case StatusInvalid => OwnUpdate(objective, before, input) && (input.status.Unset? || input.status.Unknown?)
    case TurnSequenceInvalid =>
      || (input.TurnStarted? && input.thread == own
          && (input.id == "" || ActiveIn(Turns(before)) != "" || !input.inProgress || LastStatus(before).Complete?))
      || (input.TurnCompleted? && input.thread == own && (input.id == "" || input.id != ActiveIn(Turns(before))))
    case TurnFailed =>
      && input.TurnCompleted? && input.thread == own && input.id != "" && input.id == ActiveIn(Turns(before))
      && !input.succeeded
    case GoalCleared => input.Cleared?
    case RequestRejected =>
      || input.Rejected?
      || (input.Requested? && (input.turn == "" || input.cancelled || input.thread != own || InFlight(objective, before) == 1))
    case VerificationFailed => input.Undelivered?
  }

  /** An update of the own goal for the own objective. */
  predicate OwnUpdate(objective: string, before: seq<Input>, input: Input) {
    input.GoalUpdated? && input.thread == Thread(before) && input.goalThread == input.thread && input.objective == objective
  }

  /** The first input that gives offence decides which failure is reported, whatever
      follows it. */
  lemma FirstOffenceTells(objective: string, before: seq<Input>, input: Input, more: seq<Input>, f: Failure)
    requires Legal(objective, before + [input]) && Clean(objective, before) && !Clean(objective, before + [input])
    requires Causes(objective, before, input, f)
    ensures Run(objective, before + [input] + more).failure == Some(f)
  {
    hide Legal, AllProper, InFlight, Turns, Thread, LastStatus, Alternate;
    var all := before + [input];
    assert all[..|all| - 1] == before;
    LegalSplits(objective, all);
    FailureFree(objective, before);
    OneVerification(objective, before);
    FirstFailureStays(objective, all, more);
  }

  /** And there is exactly one that it causes. */
  lemma SomeOffence(objective: string, before: seq<Input>, input: Input)
    requires Legal(objective, before + [input]) && Clean(objective, before) && !Clean(objective, before + [input])
    ensures exists f :: Causes(objective, before, input, f)
  {
    hide Legal, AllProper, InFlight, Turns, Thread, LastStatus, Alternate;
    var all := before + [input];
    assert all[..|all| - 1] == before;
    LegalSplits(objective, all);
    FailureFree(objective, before);
    FailureFree(objective, all);
    OneVerification(objective, before);
    var s := Run(objective, before);
    assert Causes(objective, before, input, Step(objective, s, input).failure.value);
  }

  // ------------------------------------------------------------------ the observer

  class GoalObservation {
    const objective: string
    var threadID: string
    var activeTurn: string
    var failure: Option<Failure>
    var status: GoalStatus
    var completedTurn: bool
    var verifying: bool

    constructor (objective: string)
      ensures Now() == INITIAL && this.objective == objective
    {
      this.objective := objective;
      threadID, activeTurn, failure, status, completedTurn, verifying := "", "", None, Unset, false, false;
    }

    ghost function Now(): State
      reads this
    {
      State(threadID, activeTurn, failure, status, completedTurn, verifying)
    }

    /** The executor learns its thread. */
    method Bind(thread: string)
      modifies this
      ensures Now() == Step(objective, old(Now()), Bound(thread))
    {
      threadID := thread;
    }

    /** observe. */
    method Observe(event: Input)
      requires event.GoalUpdated? || event.TurnStarted? || event.TurnCompleted? || event.Cleared?
                 || event.OtherNotification?
      modifies this
      ensures Now() == Step(objective, old(Now()), event)
    {
      if failure.Some? { return; }
      match event
      case GoalUpdated(thread, goalThread, goal, reported) =>
        if thread != threadID { return; }
        if goalThread != threadID || goal != objective {
          failure := Some(IdentityInvalid);
          return;
        }
        status := reported;
        failure := StatusFailure(reported);
      case TurnStarted(thread, id, inProgress) =>
        if thread != threadID {
          failure := Some(IdentityInvalid);
          return;
        }
        if id == "" || activeTurn != "" || !inProgress || status.Complete? {
          failure := Some(TurnSequenceInvalid);
          return;
        }
        activeTurn := id;
      case TurnCompleted(thread, id, succeeded) =>
        if thread != threadID {
          failure := Some(IdentityInvalid);
          return;
        }
        if id == "" || id != activeTurn {
          failure := Some(TurnSequenceInvalid);
          return;
        }
        if !succeeded {
          failure := Some(TurnFailed);
          return;
        }
        activeTurn, completedTurn := "", true;
      case Cleared =>
        failure := Some(GoalCleared);
      case OtherNotification =>
    }

    method Reject()
      modifies this
      ensures Now() == Step(objective, old(Now()), Rejected)
    {
      if failure.None? { failure := Some(RequestRejected); }
    }

    /** One pass of the admission loop: None means wait for a change. */
    method Admit(thread: string, turn: string, cancelled: bool) returns (admitted: Option<bool>)
      requires turn != ""
      modifies this
      ensures Now() == Step(objective, old(Now()), Requested(thread, turn, cancelled))
      ensures admitted == if Refuses(old(Now()), Requested(thread, turn, cancelled)) then Some(false)
                          else if Admits(old(Now()), Requested(thread, turn, cancelled)) then Some(true) else None
    {
      if cancelled || thread != threadID || failure.Some? || verifying {
        Reject();
        return Some(false);
      }
      if activeTurn == turn {
        verifying := true;
        return Some(true);
      }
      return None;
    }

    /** The verification produced no feedback path. */
    method Fail()
      modifies this
      ensures Now() == Step(objective, old(Now()), Undelivered)
    {
      if failure.None? { failure := Some(VerificationFailed); }
    }

    method End()
      modifies this
      ensures Now() == Step(objective, old(Now()), Ended)
    {
      verifying := false;
    }

    /** What the runner reads: a failure, readiness, or neither. */
    method Poll() returns (seen: Option<Failure>, ready: bool)
      ensures seen == failure && ready == Ready(Now())
    {
      seen := failure;
      ready := status.Complete? && activeTurn == "" && completedTurn && !verifying;
    }
  }
}
