/** The converge loop that integrates a candidate into main, against an arbitrary
    repository (codexsdk/internal/protocolsync/auto_forward.go). */
module AutoForward {
  import opened Wrappers

  type Sha = string

  predicate IsSha(s: Sha) { |s| == 40 && forall c <- s :: '0' <= c <= '9' || 'a' <= c <= 'f' }

  datatype ForwardState = ForwardState(head: Sha, main: Sha, ready: bool, merged: bool)

  datatype CheckState = Missing | Pending | Failed | Cancelled | Succeeded | Unknown(name: string)

  datatype Observation = Observation(head: Sha, state: CheckState)

  datatype Fault = Conflict | SemanticProof | OtherFault(tag: nat)

  /** Why AutoForward gives up: an error of the environment, or its own. */
  datatype Reason =
    | FromEnvironment(fault: Fault) | Expired | Required | Changed | NotNew | NotDescendant | UnknownOutcome
    | LeaseLost | NotConfirmed | ChecksElsewhere | ChecksFailed | ChecksUnknown | NotContained

  datatype ForwardResult = ForwardResult(status: string, head: Sha, main: Sha, checks: Option<Observation>)

  /** One answer of the environment; each operation uses the part it needs. */
  datatype Answer = Answer(fault: Option<Fault>, state: ForwardState, yes: bool, word: string, sha: Sha,
      seen: Observation)

  /** An operation that was asked for and its whole answer. */
  datatype Event =
    | EDeadline(passed: bool)
    | ERead(asked: Sha, got: Result<ForwardState, Fault>)
    | EAncestor(lower: Sha, upper: Sha, holds: Result<bool, Fault>)
    | EPolicy(main: Sha, head: Sha, decision: Result<string, Fault>)
    | ERebase(main: Sha, head: Sha, rebased: Result<Sha, Fault>)
    | EPublish(from: Sha, next: Sha, main: Sha, fault: Option<Fault>)
    | EChecks(head: Sha, checks: Result<Observation, Fault>)
    | EReview(fault: Option<Fault>)
    | EVerify(main: Sha, head: Sha, fault: Option<Fault>)
    | EForward(head: Sha, main: Sha, fault: Option<Fault>)
    | ECleanup(head: Sha, fault: Option<Fault>)

  predicate IsEffect(e: Event) { e.EPublish? || e.EForward? || e.ECleanup? }

  /** A read that shows the candidate `h` ready on top of main `m`. */
  predicate Shows(e: Event, h: Sha, m: Sha) {
    e.ERead? && e.asked == h && e.got.Success? && e.got.value.head == h && e.got.value.main == m && e.got.value.ready
  }

  /** A read asked about `h`, whatever it answered. */
  predicate ReadBack(e: Event, h: Sha) { e.ERead? && e.asked == h }

  /** A read that shows `h` unchanged and ready, but main no longer at `m`. */
  predicate MovedOn(e: Event, h: Sha, m: Sha) {
    ReadBack(e, h) && e.got.Success? && e.got.value.head == h && e.got.value.ready && e.got.value.main != m
  }

  predicate Green(e: Event, h: Sha) {
    e == EChecks(h, Success(Observation(h, Succeeded)))
  }

  /** The trace ends with one pass's preparation: the deadline stands, h is ready on
      m, not contained in it, and policy says to run. */
  predicate Eligible(t: seq<Event>, h: Sha, m: Sha) {
    && |t| >= 4 && t[|t| - 4] == EDeadline(false) && Shows(t[|t| - 3], h, m) && !t[|t| - 3].got.value.merged
    && t[|t| - 2] == EAncestor(h, m, Success(false)) && t[|t| - 1] == EPolicy(m, h, Success("run"))
  }

  /** What stands immediately before a Forward: the whole admission of one
      iteration, with the two check observations around the review and the read. */
  predicate MayForward(t: seq<Event>, h: Sha, m: Sha) {
    var n := |t|;
    && n >= 9 && Eligible(t[..n - 6], h, m)
    && t[n - 6] == EAncestor(m, h, Success(true)) && t[n - 5] == EVerify(m, h, None)
    && Green(t[n - 4], h) && t[n - 3] == EReview(None) && Shows(t[n - 2], h, m) && Green(t[n - 1], h)
  }

  /** What stands immediately before a Publish: a new descendant of main, rebased
      from the eligible candidate and verified. */
  predicate MayPublish(t: seq<Event>, h: Sha, next: Sha, m: Sha) {
    var n := |t|;
    && n >= 4 && IsSha(next) && next != h
    && t[n - 3] == ERebase(m, h, Success(next)) && t[n - 2] == EAncestor(m, next, Success(true))
    && t[n - 1] == EVerify(m, next, None)
    && ((t[n - 4] == EAncestor(m, h, Success(false)) && Eligible(t[..n - 4], h, m))
        || (n >= 6 && t[n - 6] == EAncestor(m, h, Success(true)) && t[n - 5] == EVerify(m, h, Some(SemanticProof))
            && ReadBack(t[n - 4], h) && !MovedOn(t[n - 4], h, m) && Eligible(t[..n - 6], h, m)))
  }

  /** May `e` follow the trace? After an effect only a read may, and nothing after
      the cleanup. */
  predicate MayFollow(t: seq<Event>, e: Event) {
    && (t != [] && IsEffect(t[|t| - 1]) ==> e.ERead? && !t[|t| - 1].ECleanup?)
    && (e.EForward? ==> MayForward(t, e.head, e.main))
    && (e.EPublish? ==> MayPublish(t, e.from, e.next, e.main))
  }

  /** The last effect, if any, has been resolved by a read. */
  predicate Settled(t: seq<Event>) { t == [] || !IsEffect(t[|t| - 1]) }

  /** A read is still possible. */
  predicate Open(t: seq<Event>) { t == [] || !t[|t| - 1].ECleanup? }

  ghost predicate Safe(t: seq<Event>) {
    t == [] || (Safe(t[..|t| - 1]) && MayFollow(t[..|t| - 1], t[|t| - 1]))
  }

  /** The candidate: the expected head, until a publication is confirmed by a read
      of the new head. */
  function HeadOf(t: seq<Event>, expected: Sha): Sha {
    if t == [] then expected
    else
      var e := t[|t| - 1];
      if |t| >= 2 && t[|t| - 2].EPublish? && e.ERead? && e.got.Success? && e.got.value.head == t[|t| - 2].next
      then t[|t| - 2].next
      else HeadOf(t[..|t| - 1], expected)
  }

  lemma SafeNext(t: seq<Event>, e: Event)
    requires Safe(t) && MayFollow(t, e)
    ensures Safe(t + [e])
  {
    assert (t + [e])[..|t|] == t;
  }

  /** An environment that answers anything at all, for as long as it answers. */
  class Repository {
    var tape: seq<Answer>
    ghost var trace: seq<Event>

    constructor (tape: seq<Answer>)
      ensures this.tape == tape && trace == []
    {
      this.tape, trace := tape, [];
    }

    /** The next answer; a silent environment fails. */
    method Next() returns (a: Answer)
      modifies this`tape
      ensures |tape| == if |old(tape)| == 0 then 0 else |old(tape)| - 1
    {
      if |tape| == 0 {
        a := Answer(Some(OtherFault(0)), ForwardState("", "", false, false), false, "", "", Observation("", Missing));
      } else {
        a := tape[0];
        tape := tape[1..];
      }
    }

    /** Has the caller's deadline passed? Once the environment is silent it has. */
    method DeadlinePassed() returns (passed: bool)
      requires Safe(trace) && Settled(trace)
      modifies this
      ensures |tape| <= |old(tape)| && (!passed ==> |tape| < |old(tape)|)
      ensures trace == old(trace) + [EDeadline(passed)] && Safe(trace)
    {
      passed := true;
      if |tape| > 0 {
        var a := Next();
        passed := a.yes;
      }
      SafeNext(trace, EDeadline(passed));
      trace := trace + [EDeadline(passed)];
    }

    method Read(head: Sha) returns (s: Result<ForwardState, Fault>)
      requires Safe(trace) && Open(trace)
      modifies this
      ensures |tape| <= |old(tape)|
      ensures trace == old(trace) + [ERead(head, s)] && Safe(trace)
    {
      var a := Next();
      s := if a.fault.Some? then Failure(a.fault.value) else Success(a.state);
      SafeNext(trace, ERead(head, s));
      trace := trace + [ERead(head, s)];
    }

    method Ancestor(lower: Sha, upper: Sha) returns (s: Result<bool, Fault>)
      requires Safe(trace) && Settled(trace)
      modifies this
      ensures |tape| <= |old(tape)|
      ensures trace == old(trace) + [EAncestor(lower, upper, s)] && Safe(trace)
    {
      var a := Next();
      s := if a.fault.Some? then Failure(a.fault.value) else Success(a.yes);
      SafeNext(trace, EAncestor(lower, upper, s));
      trace := trace + [EAncestor(lower, upper, s)];
    }

    method Policy(main: Sha, head: Sha) returns (s: Result<string, Fault>)
      requires Safe(trace) && Settled(trace)
      modifies this
      ensures |tape| <= |old(tape)|
      ensures trace == old(trace) + [EPolicy(main, head, s)] && Safe(trace)
    {
      var a := Next();
      s := if a.fault.Some? then Failure(a.fault.value) else Success(a.word);
      SafeNext(trace, EPolicy(main, head, s));
      trace := trace + [EPolicy(main, head, s)];
    }

    method Rebase(main: Sha, head: Sha) returns (s: Result<Sha, Fault>)
      requires Safe(trace) && Settled(trace)
      modifies this
      ensures |tape| <= |old(tape)|
      ensures trace == old(trace) + [ERebase(main, head, s)] && Safe(trace)
    {
      var a := Next();
      s := if a.fault.Some? then Failure(a.fault.value) else Success(a.sha);
      SafeNext(trace, ERebase(main, head, s));
      trace := trace + [ERebase(main, head, s)];
    }

    method Publish(from: Sha, next: Sha, main: Sha) returns (e: Option<Fault>)
      requires Safe(trace) && Settled(trace) && MayPublish(trace, from, next, main)
      modifies this
      ensures |tape| <= |old(tape)|
      ensures trace == old(trace) + [EPublish(from, next, main, e)] && Safe(trace)
    {
      var a := Next();
      e := a.fault;
      SafeNext(trace, EPublish(from, next, main, e));
      trace := trace + [EPublish(from, next, main, e)];
    }

    method Checks(head: Sha) returns (s: Result<Observation, Fault>)
      requires Safe(trace) && Settled(trace)
      modifies this
      ensures |tape| <= |old(tape)|
      ensures trace == old(trace) + [EChecks(head, s)] && Safe(trace)
    {
      var a := Next();
      s := if a.fault.Some? then Failure(a.fault.value) else Success(a.seen);
      SafeNext(trace, EChecks(head, s));
      trace := trace + [EChecks(head, s)];
    }

    method Review() returns (e: Option<Fault>)
      requires Safe(trace) && Settled(trace)
      modifies this
      ensures |tape| <= |old(tape)|
      ensures trace == old(trace) + [EReview(e)] && Safe(trace)
    {
      var a := Next();
      e := a.fault;
      SafeNext(trace, EReview(e));
      trace := trace + [EReview(e)];
    }

    method Verify(main: Sha, head: Sha) returns (e: Option<Fault>)
      requires Safe(trace) && Settled(trace)
      modifies this
      ensures |tape| <= |old(tape)|
      ensures trace == old(trace) + [EVerify(main, head, e)] && Safe(trace)
    {
      var a := Next();
      e := a.fault;
      SafeNext(trace, EVerify(main, head, e));
      trace := trace + [EVerify(main, head, e)];
    }

    method Forward(head: Sha, main: Sha) returns (e: Option<Fault>)
      requires Safe(trace) && Settled(trace) && MayForward(trace, head, main)
      modifies this
      ensures |tape| <= |old(tape)|
      ensures trace == old(trace) + [EForward(head, main, e)] && Safe(trace)
    {
      var a := Next();
      e := a.fault;
      SafeNext(trace, EForward(head, main, e));
      trace := trace + [EForward(head, main, e)];
    }

    method Cleanup(head: Sha) returns (e: Option<Fault>)
      requires Safe(trace) && Settled(trace)
      modifies this
      ensures |tape| <= |old(tape)|
      ensures trace == old(trace) + [ECleanup(head, e)] && Safe(trace)
    {
      var a := Next();
      e := a.fault;
      SafeNext(trace, ECleanup(head, e));
      trace := trace + [ECleanup(head, e)];
    }
  }

  /** The last observation of the checks, of the candidate as it stands. */
  function SeenOf(t: seq<Event>): Option<Observation> {
    if t == [] then None
    else
      var e := t[|t| - 1];
      if e.EChecks? then (if e.checks.Success? then Some(e.checks.value) else None)
      else if |t| >= 2 && t[|t| - 2].EPublish? && e.ERead? && e.got.Success? && e.got.value.head == t[|t| - 2].next
      then None
      else SeenOf(t[..|t| - 1])
  }

  /** The result claims integration only for a head that the last read main
      contains, after a confirmed cleanup. */
  predicate Integrated(t: seq<Event>, head: Sha, main: Sha) {
    var n := |t|;
    && n >= 3 && t[n - 1] == ECleanup(head, None) && t[n - 2] == EAncestor(head, main, Success(true))
    && ReadBack(t[n - 3], head) && t[n - 3].got.Success? && t[n - 3].got.value.main == main
  }

  lemma HeadStays(t: seq<Event>, e: Event, expected: Sha)
    requires !(t != [] && t[|t| - 1].EPublish? && e.ERead?)
    ensures HeadOf(t + [e], expected) == HeadOf(t, expected)
    ensures SeenOf(t + [e]) ==
            if e.EChecks? then (if e.checks.Success? then Some(e.checks.value) else None) else SeenOf(t)
  {
    assert (t + [e])[..|t|] == t;
  }

  /** The read after a publication decides whether the candidate moved. */
  lemma HeadConfirmed(t: seq<Event>, e: Event, expected: Sha)
    requires t != [] && t[|t| - 1].EPublish? && e.ERead?
    ensures HeadOf(t + [e], expected) ==
      if e.got.Success? && e.got.value.head == t[|t| - 1].next then t[|t| - 1].next else HeadOf(t[..|t| - 1], expected)
    ensures SeenOf(t + [e]) ==
      if e.got.Success? && e.got.value.head == t[|t| - 1].next then None else SeenOf(t[..|t| - 1])
  {
    var u := t + [e];
    assert u[..|t|] == t;
    assert u[|u| - 2] == t[|t| - 1];
  }

  // ------------------------------------------------------- what each outcome needs

  /** The publication of `h`'s successor was read back and is not confirmed. */
  predicate Unpublished(t: seq<Event>, h: Sha, m: Sha) {
    var n := |t|;
    && n >= 2 && t[n - 2].EPublish? && t[n - 2].from == h && t[n - 2].main == m
    && ReadBack(t[n - 1], t[n - 2].next) && t[n - 1].got.Success? && t[n - 1].got.value.head != t[n - 2].next
  }

  /** The forward of `h` was read back, and the main read does not contain `h`. */
  predicate Unlanded(t: seq<Event>, h: Sha, m: Sha) {
    var n := |t|;
    && n >= 3 && t[n - 3].EForward? && t[n - 3].head == h && t[n - 3].main == m
    && ReadBack(t[n - 2], h) && t[n - 2].got.Success?
    && t[n - 1] == EAncestor(h, t[n - 2].got.value.main, Success(false))
  }

  /** The rebase failed with `f`, and no new main explains it. */
  predicate Unrebased(t: seq<Event>, h: Sha, m: Sha, f: Fault) {
    var n := |t|;
    n >= 2 && t[n - 2] == ERebase(m, h, Failure(f)) && ReadBack(t[n - 1], h) && !MovedOn(t[n - 1], h, m)
  }

  /** The candidate itself failed verification for good, or its rebuilt successor did,
      and no new main explains it. */
  predicate Unverified(t: seq<Event>, h: Sha, m: Sha, f: Fault) {
    var n := |t|;
    && n >= 4 && t[n - 2].EVerify? && t[n - 2].main == m && t[n - 2].fault == Some(f)
    && ReadBack(t[n - 1], h) && !MovedOn(t[n - 1], h, m)
    && if t[n - 4] == ERebase(m, h, Success(t[n - 2].head))
       then t[n - 3] == EAncestor(m, t[n - 2].head, Success(true)) && t[n - 2].head != h
       else t[n - 3] == EAncestor(m, h, Success(true)) && t[n - 2].head == h && !f.SemanticProof?
  }

  /** The checks of the verified candidate are looked at before the review. */
  predicate FirstLook(t: seq<Event>, h: Sha, m: Sha) {
    var n := |t|;
    n >= 2 && t[n - 2] == EVerify(m, h, None) && t[n - 1].EChecks? && t[n - 1].head == h
  }

  /** And again after the review and a read that shows nothing changed. */
  predicate SecondLook(t: seq<Event>, h: Sha, m: Sha) {
    var n := |t|;
    n >= 3 && t[n - 3] == EReview(None) && Shows(t[n - 2], h, m) && t[n - 1].EChecks? && t[n - 1].head == h
  }

  /** A pass has read the state and knows whether its main contains the candidate. */
  predicate Compared(t: seq<Event>, h: Sha) {
    var n := |t|;
    && n >= 3 && t[n - 3] == EDeadline(false) && ReadBack(t[n - 2], h) && t[n - 2].got.Success?
    && t[n - 1].EAncestor? && t[n - 1].lower == h && t[n - 1].upper == t[n - 2].got.value.main
  }

  /** The environment's own fault ends the run. A fault of Verify, Rebase, Publish or
      Forward does so only after a read that does not explain it away. */
  predicate Faulted(t: seq<Event>, h: Sha, m: Sha, f: Fault) {
    var n := |t|;
    || (n >= 2 && (t[n - 2] == EDeadline(false) || t[n - 2] == EReview(None)) && t[n - 1] == ERead(h, Failure(f)))
    || (Compared(t, h) && t[n - 1].holds == Failure(f))
    || (n >= 1 && t[n - 1] == ECleanup(h, Some(f)))
    || (n >= 1 && t[n - 1] == EPolicy(m, h, Failure(f)))
    || (n >= 2 && t[n - 2] == EPolicy(m, h, Success("run")) && t[n - 1] == EAncestor(m, h, Failure(f)))
    || Unverified(t, h, m, f)
    || Unrebased(t, h, m, f)
    || (Unpublished(t, h, m) && t[n - 1].got.value.head == h && !Postponed(t[n - 1].got.value, h, m) && t[n - 2].fault == Some(f))
    || ((FirstLook(t, h, m) || SecondLook(t, h, m)) && t[n - 1].checks == Failure(f))
    || (n >= 1 && t[n - 1] == EReview(Some(f)))
    || (Unlanded(t, h, m) && t[n - 2].got.value.head == h && t[n - 2].got.value.main == m && t[n - 3].fault == Some(f))
  }

  /** The candidate is unchanged and ready, but main moved on. */
  predicate Postponed(s: ForwardState, h: Sha, m: Sha) { s.head == h && s.ready && s.main != m }

  /** What the trace of a run that gives up for this reason ends with, where `h` is the
      candidate and `m` the main of the last pass. */
  predicate Justifies(t: seq<Event>, h: Sha, m: Sha, why: Reason) {
    var n := |t|;
    match why
    case Required => false
    case Expired => n >= 1 && t[n - 1] == EDeadline(true)
    case FromEnvironment(f) => Faulted(t, h, m, f)
    case Changed =>
      || (Compared(t, h) && t[n - 1].holds == Success(false)
          && (!t[n - 2].got.value.ready || t[n - 2].got.value.merged || t[n - 2].got.value.head != h))
      || (n >= 2 && t[n - 2] == EReview(None) && ReadBack(t[n - 1], h) && t[n - 1].got.Success?
          && (!t[n - 1].got.value.ready || t[n - 1].got.value.head != h))
      || (Unlanded(t, h, m) && t[n - 2].got.value.head != h)
    case NotNew =>
      && n >= 1 && t[n - 1].ERebase? && t[n - 1].main == m && t[n - 1].head == h && t[n - 1].rebased.Success?
      && (!IsSha(t[n - 1].rebased.value) || t[n - 1].rebased.value == h)
    case NotDescendant =>
      && n >= 2 && t[n - 2].ERebase? && t[n - 2].main == m && t[n - 2].head == h && t[n - 2].rebased.Success?
      && IsSha(t[n - 2].rebased.value) && t[n - 2].rebased.value != h
      && t[n - 1].EAncestor? && t[n - 1].lower == m && t[n - 1].upper == t[n - 2].rebased.value
      && t[n - 1].holds != Success(true)
    case UnknownOutcome =>
      || (n >= 2 && t[n - 2].EPublish? && ReadBack(t[n - 1], t[n - 2].next) && t[n - 1].got.Failure?)
      || (n >= 2 && t[n - 2].EForward? && ReadBack(t[n - 1], h) && t[n - 1].got.Failure?)
      || (n >= 3 && t[n - 3].EForward? && ReadBack(t[n - 2], h) && t[n - 2].got.Success?
          && t[n - 1].EAncestor? && t[n - 1].holds.Failure?)
    case LeaseLost => Unpublished(t, h, m) && t[n - 1].got.value.head != h
    case NotConfirmed =>
      Unpublished(t, h, m) && t[n - 1].got.value.head == h && !Postponed(t[n - 1].got.value, h, m) && t[n - 2].fault.None?
    case ChecksElsewhere => FirstLook(t, h, m) && t[n - 1].checks.Success? && t[n - 1].checks.value.head != h
    case ChecksFailed =>
      || (FirstLook(t, h, m) && (t[n - 1].checks == Success(Observation(h, Failed))
                                 || t[n - 1].checks == Success(Observation(h, Cancelled))))
      || (SecondLook(t, h, m) && t[n - 1].checks.Success? && t[n - 1].checks.value != Observation(h, Succeeded))
    case ChecksUnknown =>
      FirstLook(t, h, m) && t[n - 1].checks.Success? && t[n - 1].checks.value.head == h && t[n - 1].checks.value.state.Unknown?
    case NotContained =>
      Unlanded(t, h, m) && t[n - 2].got.value.head == h && t[n - 2].got.value.main == m && t[n - 3].fault.None?
  }

  /** A fresh repair is asked for exactly when the rebase conflicts. */
  function StatusFor(t: seq<Event>, h: Sha, m: Sha): string {
    if Unrebased(t, h, m, Conflict) then "repair_required" else "blocked"
  }

  /** What a pass that goes on with candidate `next` ends with: main moved on under the
      candidate, the checks are not done before the deadline, the successor was read
      back, or main was read back and contains the candidate or has moved. */
  predicate GoesOn(t: seq<Event>, h: Sha, m: Sha, next: Sha) {
    var n := |t|;
    || (n >= 2 && next == h && MovedOn(t[n - 1], h, m)
        && ((t[n - 2].EVerify? && t[n - 2].main == m && t[n - 2].fault.Some?)
            || (t[n - 2].ERebase? && t[n - 2].rebased.Failure?) || t[n - 2] == EReview(None)))
    || (n >= 2 && next == h && t[n - 1] == EDeadline(false)
        && (t[n - 2] == EChecks(h, Success(Observation(h, Missing))) || t[n - 2] == EChecks(h, Success(Observation(h, Pending)))))
    || (n >= 2 && t[n - 2].EPublish? && t[n - 2].from == h && t[n - 2].next == next && t[n - 2].main == m
        && ReadBack(t[n - 1], next) && t[n - 1].got.Success? && t[n - 1].got.value.head == next)
    || (next == h && Unpublished(t, h, m) && Postponed(t[n - 1].got.value, h, m))
    || (n >= 3 && next == h && t[n - 3].EForward? && t[n - 3].head == h && t[n - 3].main == m
        && ReadBack(t[n - 2], h) && t[n - 2].got.Success?
        && t[n - 1] == EAncestor(h, t[n - 2].got.value.main, Success(true)))
    || (next == h && Unlanded(t, h, m) && t[n - 2].got.value.head == h && t[n - 2].got.value.main != m)
  }

  /** Did policy end the run with its own word? */
  predicate PolicyEnded(t: seq<Event>, status: string) {
    t != [] && t[|t| - 1].EPolicy? && t[|t| - 1].decision == Success(status) && status != "run"
  }

  /** A trace justifies at most one reason. */
  lemma OneReason(t: seq<Event>, h: Sha, m: Sha, why: Reason, other: Reason)
    requires Justifies(t, h, m, why) && Justifies(t, h, m, other)
    ensures other == why
  {
    hide IsSha;
  }

  lemma StopsHere(t: seq<Event>, h: Sha, m: Sha, why: Reason, next: Sha, status: string)
    requires Justifies(t, h, m, why)
    ensures !GoesOn(t, h, m, next) && !Integrated(t, h, m) && !PolicyEnded(t, status)
  {
    hide IsSha;
  }

  /** The trace decides: it justifies at most one reason, and then the run neither
      goes on nor ends well. */
  lemma OneOutcome(t: seq<Event>, h: Sha, m: Sha, why: Reason, next: Sha, other: Reason, status: string)
    requires Justifies(t, h, m, why)
    ensures !GoesOn(t, h, m, next) && !Integrated(t, h, m) && !PolicyEnded(t, status)
    ensures Justifies(t, h, m, other) ==> other == why
  {
    hide *;
    StopsHere(t, h, m, why, next, status);
    if Justifies(t, h, m, other) { OneReason(t, h, m, why, other); }
  }

  datatype Verdict = Again | Stop(status: string, reason: Reason)

  /** The trace bears the verdict out. */
  predicate Bears(t: seq<Event>, h: Sha, m: Sha, v: Verdict, next: Sha) {
    match v
    case Again => GoesOn(t, h, m, next)
    case Stop(status, reason) => next == h && Justifies(t, h, m, reason) && status == StatusFor(t, h, m)
  }

  /** The candidate does not build on main, or does but failed verification. */
  predicate NeedsRebase(t: seq<Event>, h: Sha, m: Sha) {
    var n := |t|;
    || (n >= 1 && t[n - 1] == EAncestor(m, h, Success(false)) && Eligible(t[..n - 1], h, m))
    || (n >= 3 && t[n - 3] == EAncestor(m, h, Success(true)) && t[n - 2] == EVerify(m, h, Some(SemanticProof))
        && ReadBack(t[n - 1], h) && !MovedOn(t[n - 1], h, m) && Eligible(t[..n - 3], h, m))
  }

  lemma RebasedMayPublish(t: seq<Event>, h: Sha, m: Sha, next: Sha)
    requires NeedsRebase(t, h, m) && IsSha(next) && next != h
    ensures MayPublish(t + [ERebase(m, h, Success(next)), EAncestor(m, next, Success(true)), EVerify(m, next, None)],
                       h, next, m)
  {
    var u := t + [ERebase(m, h, Success(next)), EAncestor(m, next, Success(true)), EVerify(m, next, None)];
    var n, k := |t|, |u|;
    assert k == n + 3 && u[k - 4] == t[n - 1] && u[..n] == t;
    assert u[..k - 4] == t[..n - 1];
    if n >= 3 { assert u[k - 5] == t[n - 2] && u[k - 6] == t[n - 3] && u[..k - 6] == t[..n - 3]; }
  }

  lemma NotFirst(t: seq<Event>, h: Sha, m: Sha)
    requires NeedsRebase(t, h, m)
    ensures |t| >= 1
  {
  }

  lemma AdmittedMayForward(t: seq<Event>, h: Sha, m: Sha, a: Event, b: Event, c: Event)
    requires Eligible(t, h, m) && Green(a, h) && Shows(b, h, m) && Green(c, h)
    ensures MayForward(t + [EAncestor(m, h, Success(true)), EVerify(m, h, None), a, EReview(None), b, c], h, m)
  {
    var u := t + [EAncestor(m, h, Success(true)), EVerify(m, h, None), a, EReview(None), b, c];
    assert u[..|u| - 6] == t;
  }

  /** The verdicts on a trace `t` as further events reach it. */
  lemma OfRebase(t: seq<Event>, h: Sha, m: Sha, f: Fault, e: Event)
    requires ReadBack(e, h)
    ensures Bears(t + [ERebase(m, h, Failure(f))] + [e], h, m,
                  if MovedOn(e, h, m) then Again
                  else Stop(if f.Conflict? then "repair_required" else "blocked", FromEnvironment(f)), h)
  {
    var u := t + [ERebase(m, h, Failure(f))] + [e];
    assert u[|u| - 2] == ERebase(m, h, Failure(f)) && u[|u| - 1] == e;
  }

  lemma OfOldCommit(t: seq<Event>, h: Sha, m: Sha, x: Sha)
    requires !IsSha(x) || x == h
    ensures Bears(t + [ERebase(m, h, Success(x))], h, m, Stop("blocked", NotNew), h)
  {
  }

  lemma OfStranger(t: seq<Event>, h: Sha, m: Sha, x: Sha, s: Result<bool, Fault>)
    requires IsSha(x) && x != h && s != Success(true)
    ensures Bears(t + [ERebase(m, h, Success(x))] + [EAncestor(m, x, s)], h, m, Stop("blocked", NotDescendant), h)
  {
    var u := t + [ERebase(m, h, Success(x))] + [EAncestor(m, x, s)];
    assert u[|u| - 2] == ERebase(m, h, Success(x)) && u[|u| - 1] == EAncestor(m, x, s);
  }

  lemma OfSuccessor(t: seq<Event>, h: Sha, m: Sha, x: Sha, f: Fault, e: Event)
    requires x != h && ReadBack(e, h)
    ensures Bears(t + [ERebase(m, h, Success(x))] + [EAncestor(m, x, Success(true))] + [EVerify(m, x, Some(f))] + [e],
                  h, m, if MovedOn(e, h, m) then Again else Stop("blocked", FromEnvironment(f)), h)
  {
    var u := t + [ERebase(m, h, Success(x))] + [EAncestor(m, x, Success(true))] + [EVerify(m, x, Some(f))] + [e];
    var n := |u|;
    assert u[n - 4] == ERebase(m, h, Success(x)) && u[n - 3] == EAncestor(m, x, Success(true));
    assert u[n - 2] == EVerify(m, x, Some(f)) && u[n - 1] == e;
  }

  lemma OfPublication(t: seq<Event>, h: Sha, m: Sha, x: Sha, f: Option<Fault>, s: ForwardState)
    requires x != h
    ensures var u := t + [EPublish(h, x, m, f)] + [ERead(x, Success(s))];
            if s.head == x then Bears(u, h, m, Again, x)
            else if Postponed(s, h, m) then Bears(u, h, m, Again, h)
            else Bears(u, h, m, Stop("blocked", if s.head != h then LeaseLost
                                                else if f.Some? then FromEnvironment(f.value) else NotConfirmed), h)
  {
    var u := t + [EPublish(h, x, m, f)] + [ERead(x, Success(s))];
    assert u[|u| - 2] == EPublish(h, x, m, f) && u[|u| - 1] == ERead(x, Success(s));
  }

  lemma OfSilence(t: seq<Event>, h: Sha, m: Sha, x: Sha, f: Option<Fault>, g: Fault)
    ensures Bears(t + [EPublish(h, x, m, f)] + [ERead(x, Failure(g))], h, m, Stop("blocked", UnknownOutcome), h)
  {
    var u := t + [EPublish(h, x, m, f)] + [ERead(x, Failure(g))];
    assert u[|u| - 2] == EPublish(h, x, m, f) && u[|u| - 1] == ERead(x, Failure(g));
  }

  /** Rebuilds the candidate on main and verifies the result: it may then be published. */
  method Rebuild(op: Repository, ghost expected: Sha, head: Sha, main: Sha) returns (v: Verdict, next: Option<Sha>)
    requires Safe(op.trace) && Settled(op.trace) && NeedsRebase(op.trace, head, main)
    requires HeadOf(op.trace, expected) == head
    modifies op
    ensures Safe(op.trace) && Settled(op.trace) && |op.tape| <= |old(op.tape)| && HeadOf(op.trace, expected) == head
    ensures SeenOf(op.trace) == SeenOf(old(op.trace))
    ensures next.Some? ==> MayPublish(op.trace, head, next.value, main)
    ensures next.None? ==> Bears(op.trace, head, main, v, head)
  {
    hide HeadOf, SeenOf, MayPublish, MayForward, Safe, IsSha, Bears, NeedsRebase, MovedOn;
    ghost var t := op.trace;
    NotFirst(t, head, main);
    var rebased := op.Rebase(main, head);
    HeadStays(t, op.trace[|t|], expected);
    if rebased.Failure? {
      v := Refreshed(op, expected, head, main,
                     Stop(if rebased.error.Conflict? then "repair_required" else "blocked", FromEnvironment(rebased.error)));
      OfRebase(t, head, main, rebased.error, op.trace[|op.trace| - 1]);
      return v, None;
    }
    if !IsSha(rebased.value) || rebased.value == head {
      OfOldCommit(t, head, main, rebased.value);
      return Stop("blocked", NotNew), None;
    }
    ghost var t1 := op.trace;
    var descends := op.Ancestor(main, rebased.value);
    HeadStays(t1, op.trace[|t1|], expected);
    if descends.Failure? || !descends.value {
      OfStranger(t, head, main, rebased.value, descends);
      return Stop("blocked", NotDescendant), None;
    }
    ghost var t2 := op.trace;
    var failed := op.Verify(main, rebased.value);
    HeadStays(t2, op.trace[|t2|], expected);
    if failed.Some? {
      v := Refreshed(op, expected, head, main, Stop("blocked", FromEnvironment(failed.value)));
      OfSuccessor(t, head, main, rebased.value, failed.value, op.trace[|op.trace| - 1]);
      return v, None;
    }
    assert op.trace == t + [ERebase(main, head, Success(rebased.value)), EAncestor(main, rebased.value, Success(true)),
                            EVerify(main, rebased.value, None)];
    RebasedMayPublish(t, head, main, rebased.value);
    return Again, Some(rebased.value);
  }

  lemma ReadBackDecides(t: seq<Event>, h: Sha, next: Sha, m: Sha, f: Option<Fault>, s: Result<ForwardState, Fault>,
                        expected: Sha)
    requires HeadOf(t, expected) == h
    ensures var u := t + [EPublish(h, next, m, f)] + [ERead(next, s)];
            var confirmed := s.Success? && s.value.head == next;
            && HeadOf(u, expected) == (if confirmed then next else h)
            && SeenOf(u) == if confirmed then None else SeenOf(t)
  {
    hide HeadOf, SeenOf;
    var t1 := t + [EPublish(h, next, m, f)];
    HeadStays(t, EPublish(h, next, m, f), expected);
    assert t1[..|t1| - 1] == t;
    HeadConfirmed(t1, ERead(next, s), expected);
  }

  lemma NewCommit(t: seq<Event>, h: Sha, next: Sha, m: Sha)
    requires MayPublish(t, h, next, m)
    ensures next != h
  {
  }

  /** Publishes the rebuilt candidate under a lease and reads back. */
  method Confirm(op: Repository, ghost expected: Sha, head: Sha, next: Sha, main: Sha) returns (v: Verdict,
          newHead: Sha)
    requires Safe(op.trace) && Settled(op.trace) && MayPublish(op.trace, head, next, main)
    requires HeadOf(op.trace, expected) == head
    modifies op
    ensures Safe(op.trace) && Settled(op.trace) && |op.tape| <= |old(op.tape)|
    ensures HeadOf(op.trace, expected) == newHead
    ensures SeenOf(op.trace) == if newHead == head then SeenOf(old(op.trace)) else None
    ensures Bears(op.trace, head, main, v, newHead)
  {
    hide HeadOf, SeenOf, MayPublish, MayForward, Safe, IsSha, Bears, Justifies, GoesOn, Eligible, Shows;
    NewCommit(op.trace, head, next, main);
    ghost var t := op.trace;
    var pushed := op.Publish(head, next, main);
    var observed := op.Read(next);
    ReadBackDecides(t, head, next, main, pushed, observed, expected);
    if observed.Failure? {
      OfSilence(t, head, main, next, pushed, observed.error);
      return Stop("blocked", UnknownOutcome), head;
    }
    OfPublication(t, head, main, next, pushed, observed.value);
    if observed.value.head != next {
      if observed.value.head == head && observed.value.main != main && observed.value.ready { return Again, head; }
      if observed.value.head != head { return Stop("blocked", LeaseLost), head; }
      if pushed.Some? { return Stop("blocked", FromEnvironment(pushed.value)), head; }
      return Stop("blocked", NotConfirmed), head;
    }
    return Again, next;
  }

  /** Rebuilds the candidate on main, publishes it under a lease and reads back. */
  method Reconcile(op: Repository, ghost expected: Sha, head: Sha, main: Sha) returns (v: Verdict, newHead: Sha)
    requires Safe(op.trace) && Settled(op.trace) && NeedsRebase(op.trace, head, main)
    requires HeadOf(op.trace, expected) == head
    modifies op
    ensures Safe(op.trace) && Settled(op.trace) && |op.tape| <= |old(op.tape)|
    ensures HeadOf(op.trace, expected) == newHead
    ensures SeenOf(op.trace) == if newHead == head then SeenOf(old(op.trace)) else None
    ensures Bears(op.trace, head, main, v, newHead)
  {
    hide HeadOf, SeenOf, MayPublish, Safe, NeedsRebase, Bears;
    newHead := head;
    var next;
    v, next := Rebuild(op, expected, head, main);
    if next.Some? { v, newHead := Confirm(op, expected, head, next.value, main); }
  }

  /** After a failure: if main moved on under the unchanged candidate, try again. */
  method Refreshed(op: Repository, ghost expected: Sha, head: Sha, main: Sha, otherwise: Verdict) returns (v: Verdict)
    requires Safe(op.trace) && Settled(op.trace) && op.trace != [] && HeadOf(op.trace, expected) == head
    modifies op
    ensures Safe(op.trace) && Settled(op.trace) && |op.tape| <= |old(op.tape)| && HeadOf(op.trace, expected) == head
    ensures SeenOf(op.trace) == SeenOf(old(op.trace))
    ensures exists got :: op.trace == old(op.trace) + [ERead(head, got)]
    ensures v == if MovedOn(op.trace[|op.trace| - 1], head, main) then Again else otherwise
  {
    hide HeadOf, SeenOf, Safe;
    ghost var t := op.trace;
    var current := op.Read(head);
    HeadStays(t, op.trace[|t|], expected);
    if current.Success? && current.value.head == head && current.value.ready && current.value.main != main {
      return Again;
    }
    return otherwise;
  }

  /** The first look at the checks: None when they are green. */
  method FirstChecks(op: Repository, ghost expected: Sha, head: Sha, ghost main: Sha) returns (v: Option<Verdict>,
          checks: Option<Observation>)
    requires Safe(op.trace) && Settled(op.trace) && HeadOf(op.trace, expected) == head
    requires op.trace != [] && op.trace[|op.trace| - 1] == EVerify(main, head, None)
    modifies op
    ensures Safe(op.trace) && Settled(op.trace) && |op.tape| <= |old(op.tape)| && HeadOf(op.trace, expected) == head
    ensures SeenOf(op.trace) == checks
    ensures v.None? ==> op.trace == old(op.trace) + [EChecks(head, Success(Observation(head, Succeeded)))]
    ensures v.Some? ==> Bears(op.trace, head, main, v.value, head)
  {
    hide HeadOf, SeenOf, Safe;
    ghost var t := op.trace;
    var first := op.Checks(head);
    HeadStays(t, op.trace[|t|], expected);
    if first.Failure? { return Some(Stop("blocked", FromEnvironment(first.error))), None; }
    checks := Some(first.value);
    if first.value.head != head { return Some(Stop("blocked", ChecksElsewhere)), checks; }
    if first.value.state.Failed? || first.value.state.Cancelled? { return Some(Stop("blocked", ChecksFailed)), checks; }
    if first.value.state.Missing? || first.value.state.Pending? {
      ghost var t1 := op.trace;
      var passed := op.DeadlinePassed();
      HeadStays(t1, op.trace[|t1|], expected);
      return Some(if passed then Stop("blocked", Expired) else Again), checks;
    }
    if !first.value.state.Succeeded? { return Some(Stop("blocked", ChecksUnknown)), checks; }
    return None, checks;
  }

  lemma OfReview(t: seq<Event>, h: Sha, m: Sha, f: Fault, s: Result<ForwardState, Fault>)
    ensures Bears(t + [EReview(Some(f))], h, m, Stop("blocked", FromEnvironment(f)), h)
    ensures s.Failure? ==> Bears(t + [EReview(None)] + [ERead(h, s)], h, m, Stop("blocked", FromEnvironment(s.error)), h)
    ensures s.Success? && (!s.value.ready || s.value.head != h) ==>
              Bears(t + [EReview(None)] + [ERead(h, s)], h, m, Stop("blocked", Changed), h)
    ensures s.Success? && Postponed(s.value, h, m) ==> Bears(t + [EReview(None)] + [ERead(h, s)], h, m, Again, h)
  {
    var u := t + [EReview(None)] + [ERead(h, s)];
    assert u[|u| - 2] == EReview(None) && u[|u| - 1] == ERead(h, s);
  }

  lemma OfSecondLook(t: seq<Event>, h: Sha, m: Sha, e: Event, s: Result<Observation, Fault>)
    requires Shows(e, h, m)
    ensures var u := t + [EReview(None)] + [e] + [EChecks(h, s)];
            && (s.Failure? ==> Bears(u, h, m, Stop("blocked", FromEnvironment(s.error)), h))
            && (s.Success? && s.value != Observation(h, Succeeded) ==> Bears(u, h, m, Stop("blocked", ChecksFailed), h))
  {
    var u := t + [EReview(None)] + [e] + [EChecks(h, s)];
    assert u[|u| - 3] == EReview(None) && u[|u| - 2] == e && u[|u| - 1] == EChecks(h, s);
  }

  /** Observes the checks twice around review and identity: nothing is decided
      yet exactly when the candidate may be forwarded. */
  method Admit(op: Repository, ghost expected: Sha, head: Sha, main: Sha)
    returns (v: Option<Verdict>, checks: Option<Observation>)
    requires Safe(op.trace) && Settled(op.trace) && HeadOf(op.trace, expected) == head
    requires Linear(op.trace, head, main)
    modifies op
    ensures Safe(op.trace) && Settled(op.trace) && |op.tape| <= |old(op.tape)| && HeadOf(op.trace, expected) == head
    ensures SeenOf(op.trace) == checks
    ensures v.None? ==> MayForward(op.trace, head, main)
    ensures v.Some? ==> Bears(op.trace, head, main, v.value, head)
  {
    hide HeadOf, SeenOf, MayPublish, MayForward, Safe, Eligible, Bears;
    ghost var t := op.trace;
    v, checks := FirstChecks(op, expected, head, main);
    if v.Some? { return; }
    ghost var a := EChecks(head, Success(Observation(head, Succeeded)));
    ghost var t1 := op.trace;
    var refused := op.Review();
    HeadStays(t1, op.trace[|t1|], expected);
    OfReview(t1, head, main, if refused.Some? then refused.value else Conflict, Failure(Conflict));
    if refused.Some? { return Some(Stop("blocked", FromEnvironment(refused.value))), checks; }
    ghost var t2 := op.trace;
    var current := op.Read(head);
    HeadStays(t2, op.trace[|t2|], expected);
    OfReview(t1, head, main, Conflict, current);
    if current.Failure? { return Some(Stop("blocked", FromEnvironment(current.error))), checks; }
    if !current.value.ready || current.value.head != head { return Some(Stop("blocked", Changed)), checks; }
    if current.value.main != main { return Some(Again), checks; }
    ghost var t3 := op.trace;
    var second := op.Checks(head);
    HeadStays(t3, op.trace[|t3|], expected);
    OfSecondLook(t1, head, main, ERead(head, current), second);
    if second.Failure? { return Some(Stop("blocked", FromEnvironment(second.error))), None; }
    checks := Some(second.value);
    if second.value.head != head || !second.value.state.Succeeded? {
      return Some(Stop("blocked", ChecksFailed)), checks;
    }
    Admitted(t, op.trace, head, main, a, ERead(head, current), EChecks(head, second));
    return None, checks;
  }

  lemma Admitted(t: seq<Event>, u: seq<Event>, head: Sha, main: Sha, a: Event, b: Event, c: Event)
    requires Linear(t, head, main) && u == t + [a] + [EReview(None)] + [b] + [c]
    requires Green(a, head) && Shows(b, head, main) && Green(c, head)
    ensures MayForward(u, head, main)
  {
    hide MayForward, Eligible;
    assert t == t[..|t| - 2] + [EAncestor(main, head, Success(true)), EVerify(main, head, None)];
    assert u == t[..|t| - 2] + [EAncestor(main, head, Success(true)), EVerify(main, head, None), a, EReview(None), b, c];
    AdmittedMayForward(t[..|t| - 2], head, main, a, b, c);
  }

  /** Forwards main and resolves the outcome by reading back: when the main read back
      contains the candidate, or has moved under it, the loop goes on. */
  method Land(op: Repository, ghost expected: Sha, head: Sha, main: Sha) returns (v: Verdict)
    requires Safe(op.trace) && Settled(op.trace) && HeadOf(op.trace, expected) == head
    requires MayForward(op.trace, head, main)
    modifies op
    ensures Safe(op.trace) && Settled(op.trace) && |op.tape| <= |old(op.tape)| && HeadOf(op.trace, expected) == head
    ensures SeenOf(op.trace) == SeenOf(old(op.trace))
    ensures Bears(op.trace, head, main, v, head)
    ensures var u, k := op.trace, |old(op.trace)|;
            |u| == k + 3 && u[k].EForward? && u[k + 2].EAncestor? && u[k + 2].holds == Success(true) ==> v == Again
  {
    hide HeadOf, SeenOf, MayPublish, MayForward, Safe;
    ghost var t := op.trace;
    var pushed := op.Forward(head, main);
    HeadStays(t, op.trace[|t|], expected);
    ghost var t1 := op.trace;
    var after := op.Read(head);
    HeadStays(t1, op.trace[|t1|], expected);
    if after.Failure? { return Stop("blocked", UnknownOutcome); }
    ghost var t2 := op.trace;
    var contained := op.Ancestor(head, after.value.main);
    HeadStays(t2, op.trace[|t2|], expected);
    if contained.Failure? { return Stop("blocked", UnknownOutcome); }
    if contained.value { return Again; }
    if after.value.head != head { return Stop("blocked", Changed); }
    if after.value.main != main { return Again; }
    if pushed.Some? { return Stop("blocked", FromEnvironment(pushed.value)); }
    return Stop("blocked", NotContained);
  }

  datatype Ending = GoOn | Done(word: string) | GiveUp(why: Reason)

  /** Reads the state, cleans up if main already contains the candidate, and asks
      policy. */
  method Examine(op: Repository, ghost expected: Sha, head: Sha, ghost before: Sha) returns (end: Ending, main: Option<Sha>)
    requires Safe(op.trace) && Settled(op.trace) && HeadOf(op.trace, expected) == head
    requires op.trace != [] && op.trace[|op.trace| - 1] == EDeadline(false)
    modifies op
    ensures Safe(op.trace) && |op.tape| <= |old(op.tape)| && HeadOf(op.trace, expected) == head
    ensures SeenOf(op.trace) == SeenOf(old(op.trace))
    ensures end.GoOn? ==> Settled(op.trace) && main.Some? && Eligible(op.trace, head, main.value)
    ensures end.Done? ==> main.Some? && ((end.word == "integrated" && Integrated(op.trace, head, main.value))
                                         || PolicyEnded(op.trace, end.word))
    ensures end.GiveUp? ==> Bears(op.trace, head, if main.Some? then main.value else before, Stop("blocked", end.why), head)
  {
    hide HeadOf, SeenOf, MayPublish, MayForward, Safe;
    ghost var t := op.trace;
    var state := op.Read(head);
    HeadStays(t, op.trace[|t|], expected);
    if state.Failure? { return GiveUp(FromEnvironment(state.error)), None; }
    main := Some(state.value.main);
    ghost var t1 := op.trace;
    var integrated := op.Ancestor(head, main.value);
    HeadStays(t1, op.trace[|t1|], expected);
    if integrated.Failure? { return GiveUp(FromEnvironment(integrated.error)), main; }
    ghost var t2 := op.trace;
    if integrated.value {
      var unclean := op.Cleanup(head);
      HeadStays(t2, op.trace[|t2|], expected);
      return if unclean.Some? then GiveUp(FromEnvironment(unclean.value)) else Done("integrated"), main;
    }
    if !state.value.ready || state.value.merged || state.value.head != head { return GiveUp(Changed), main; }
    var decision := op.Policy(main.value, head);
    HeadStays(t2, op.trace[|t2|], expected);
    if decision.Failure? { return GiveUp(FromEnvironment(decision.error)), main; }
    if decision.value != "run" { return Done(decision.value), main; }
    assert op.trace == t + [ERead(head, state)] + [EAncestor(head, main.value, Success(false))]
                         + [EPolicy(main.value, head, Success("run"))];
    return GoOn, main;
  }

  /** The three ways out of the choice. */
  lemma Chosen(t: seq<Event>, h: Sha, m: Sha, e: Event)
    requires Eligible(t, h, m) && ReadBack(e, h)
    ensures NeedsRebase(t + [EAncestor(m, h, Success(false))], h, m)
    ensures !MovedOn(e, h, m) ==>
              NeedsRebase(t + [EAncestor(m, h, Success(true))] + [EVerify(m, h, Some(SemanticProof))] + [e], h, m)
    ensures Linear(t + [EAncestor(m, h, Success(true))] + [EVerify(m, h, None)], h, m)
  {
    assert (t + [EAncestor(m, h, Success(false))])[..|t|] == t;
    assert (t + [EAncestor(m, h, Success(true))] + [EVerify(m, h, Some(SemanticProof))] + [e])[..|t|] == t;
    assert (t + [EAncestor(m, h, Success(true))] + [EVerify(m, h, None)])[..|t|] == t;
  }

  /** The eligible candidate builds on main and verified against it. */
  predicate Linear(t: seq<Event>, h: Sha, m: Sha) {
    var n := |t|;
    n >= 2 && t[n - 2] == EAncestor(m, h, Success(true)) && t[n - 1] == EVerify(m, h, None) && Eligible(t[..n - 2], h, m)
  }

  lemma AskedPolicy(t: seq<Event>, h: Sha, m: Sha)
    requires Eligible(t, h, m)
    ensures t != [] && t[|t| - 1] == EPolicy(m, h, Success("run"))
  {
  }

  /** Decides between verifying the candidate as it stands and rebasing it. */
  method Choose(op: Repository, ghost expected: Sha, head: Sha, main: Sha) returns (v: Option<Verdict>, rebase: bool)
    requires Safe(op.trace) && Settled(op.trace) && HeadOf(op.trace, expected) == head && Eligible(op.trace, head, main)
    modifies op
    ensures Safe(op.trace) && Settled(op.trace) && |op.tape| <= |old(op.tape)| && HeadOf(op.trace, expected) == head
    ensures SeenOf(op.trace) == SeenOf(old(op.trace))
    ensures v.None? && rebase ==> NeedsRebase(op.trace, head, main)
    ensures v.None? && !rebase ==> Linear(op.trace, head, main)
    ensures v.Some? ==> Bears(op.trace, head, main, v.value, head)
  {
    hide HeadOf, SeenOf, MayPublish, MayForward, Safe, Eligible, NeedsRebase, Linear;
    ghost var t := op.trace;
    AskedPolicy(t, head, main);
    Chosen(t, head, main, ERead(head, Failure(Conflict)));
    var linear := op.Ancestor(main, head);
    HeadStays(t, op.trace[|t|], expected);
    if linear.Failure? { return Some(Stop("blocked", FromEnvironment(linear.error))), false; }
    if !linear.value { return None, true; }
    ghost var t1 := op.trace;
    var failed := op.Verify(main, head);
    HeadStays(t1, op.trace[|t1|], expected);
    if failed.None? { return None, false; }
    ghost var t2 := op.trace;
    var moved := Refreshed(op, expected, head, main, Stop("blocked", FromEnvironment(failed.value)));
    if moved.Again? { return Some(Again), false; }
    if !failed.value.SemanticProof? { return Some(moved), false; }
    ghost var got :| op.trace == t2 + [ERead(head, got)];
    Chosen(t, head, main, ERead(head, got));
    return None, true;
  }

  /** Converges within the caller's deadline. Every effect is guarded (Safe), the
      candidate is the expected head or a confirmed publication, and the trace bears
      out the result: "integrated" only for a head the last read main contains, another
      status without an error is policy's own word, and each error is justified by what
      the trace ends with. */
  method AutoForward(expected: Sha, bounded: bool, op: Repository?) returns (result: ForwardResult,
          error: Option<Reason>)
    requires op != null ==> op.trace == []
    modifies op
    ensures error == Some(Required) <==> !bounded || !IsSha(expected) || op == null
    ensures error == Some(Required) ==> result == ForwardResult("blocked", expected, "", None) && (op != null ==> op.trace == [])
    ensures op != null ==> Safe(op.trace) && result.head == HeadOf(op.trace, expected)
    ensures op != null ==> result.checks == SeenOf(op.trace)
    ensures error.None? ==> op != null && ((result.status == "integrated" && Integrated(op.trace, result.head, result.main))
                                           || PolicyEnded(op.trace, result.status))
    ensures error.Some? && error != Some(Required) ==>
              && op != null && Justifies(op.trace, result.head, result.main, error.value)
              && result.status == StatusFor(op.trace, result.head, result.main)
  {
    hide MayPublish, MayForward, IsSha, Integrated, PolicyEnded, Eligible, NeedsRebase, Linear, GoesOn, Justifies, StatusFor;
    result := ForwardResult("blocked", expected, "", None);
    if !bounded || !IsSha(expected) || op == null { return result, Some(Required); }
    while true
      invariant Safe(op.trace) && Settled(op.trace) && result.head == HeadOf(op.trace, expected)
      invariant result.status == "blocked" && result.checks == SeenOf(op.trace)
      invariant op.trace == [] || exists h, m :: GoesOn(op.trace, h, m, result.head)
      decreases |op.tape|
    {
      hide HeadOf, SeenOf, Safe;
      ghost var t := op.trace;
      var passed := op.DeadlinePassed();
      HeadStays(t, op.trace[|t|], expected);
      if passed {
        Passed(op.trace, result.head, result.main);
        return result, Some(Expired);
      }
      var end, main := Examine(op, expected, result.head, result.main);
      if main.Some? { result := result.(main := main.value); }
      if end.Done? { return result.(status := end.word), None; }
      NothingJustifiesRequired(op.trace, result.head, result.main);
      if end.GiveUp? { return result, Some(end.why); }
      var v, rebase := Choose(op, expected, result.head, main.value);
      if v.Some? {
        NothingJustifiesRequired(op.trace, result.head, result.main);
        if v.value.Stop? { return result.(status := v.value.status), Some(v.value.reason); }
      } else if rebase {
        var w, newHead := Reconcile(op, expected, result.head, main.value);
        NothingJustifiesRequired(op.trace, result.head, result.main);
        if w.Stop? { return result.(status := w.status), Some(w.reason); }
        if newHead != result.head { result := result.(head := newHead, checks := None); }
      } else {
        var w, checks := Admit(op, expected, result.head, main.value);
        result := result.(checks := checks);
        if w.None? {
          var x := Land(op, expected, result.head, main.value);
          w := Some(x);
        }
        NothingJustifiesRequired(op.trace, result.head, result.main);
        if w.value.Stop? { return result.(status := w.value.status), Some(w.value.reason); }
      }
    }
  }

  lemma Passed(t: seq<Event>, h: Sha, m: Sha)
    requires t != [] && t[|t| - 1] == EDeadline(true)
    ensures Justifies(t, h, m, Expired) && StatusFor(t, h, m) == "blocked"
  {
  }

  lemma NothingJustifiesRequired(t: seq<Event>, h: Sha, m: Sha)
    ensures !Justifies(t, h, m, Required)
  {
  }

  // ---------------------------------------------------------- what safety means

  lemma {:induction false} SafeAt(t: seq<Event>, k: nat)
    requires Safe(t) && k < |t|
    ensures Safe(t[..k]) && MayFollow(t[..k], t[k])
    decreases |t|
  {
    if k == |t| - 1 {
    } else {
      SafeAt(t[..|t| - 1], k);
      assert t[..|t| - 1][..k] == t[..k];
    }
  }

  /** Between any two effects there is a read. */
  lemma ReadBetweenEffects(t: seq<Event>, j: nat, k: nat)
    requires Safe(t) && j < k < |t| && IsEffect(t[j]) && IsEffect(t[k])
    ensures j + 1 < k && t[j + 1].ERead?
  {
    SafeAt(t, j + 1);
    assert t[..j + 1][j] == t[j];
  }

  /** Every Forward is preceded, in its own iteration, by eligibility, ancestry,
      verification and the two green observations around review and read. */
  lemma ForwardIsAdmitted(t: seq<Event>, k: nat)
    requires Safe(t) && k < |t| && t[k].EForward?
    ensures MayForward(t[..k], t[k].head, t[k].main)
  {
    SafeAt(t, k);
  }

  /** main before each event and at the end. Forward is a compare-and-swap that may
      take effect even when its answer is lost; others may move main too. */
  ghost predicate CompareAndSwap(t: seq<Event>, world: seq<Sha>, others: set<nat>) {
    && |world| == |t| + 1
    && forall k :: 0 <= k < |t| && k !in others ==>
         || world[k + 1] == world[k]
         || (t[k].EForward? && world[k] == t[k].main && world[k + 1] == t[k].head)
  }

  /** Answers about ancestry are true. */
  ghost predicate Truthful(t: seq<Event>, ancestor: (Sha, Sha) -> bool) {
    forall k :: 0 <= k < |t| && t[k].EAncestor? && t[k].holds.Success? ==>
        t[k].holds.value == ancestor(t[k].lower, t[k].upper)
  }

  /** Whenever AutoForward moves main, it moves along ancestry, to a head that was
      verified against exactly the main it replaces. */
  lemma MainMovesToVerifiedDescendants(
    t: seq<Event>, world: seq<Sha>, others: set<nat>, ancestor: (Sha, Sha) -> bool, k: nat)
    requires Safe(t) && CompareAndSwap(t, world, others) && Truthful(t, ancestor)
    requires k < |t| && k !in others && world[k + 1] != world[k]
    ensures ancestor(world[k], world[k + 1])
    ensures exists j :: 0 <= j < k && t[j] == EVerify(world[k], world[k + 1], None)
  {
    hide Safe;
    ForwardIsAdmitted(t, k);
    assert k >= 9 && t[..k][k - 6] == t[k - 6] && t[..k][k - 5] == t[k - 5];
  }

  /** If the others fast-forward too, main as a whole only moves along ancestry. */
  lemma {:induction false} MainOnlyFastForwards(
    t: seq<Event>, world: seq<Sha>, others: set<nat>, ancestor: (Sha, Sha) -> bool, k: nat)
    requires Safe(t) && CompareAndSwap(t, world, others) && Truthful(t, ancestor) && k <= |t|
    requires forall a, b, c :: ancestor(a, b) && ancestor(b, c) ==> ancestor(a, c)
    requires forall a :: ancestor(a, a)
    requires forall i :: i in others && 0 <= i < |t| ==> ancestor(world[i], world[i + 1])
    ensures ancestor(world[0], world[k])
  {
    if k > 0 {
      MainOnlyFastForwards(t, world, others, ancestor, k - 1);
      if k - 1 !in others && world[k] != world[k - 1] {
        MainMovesToVerifiedDescendants(t, world, others, ancestor, k - 1);
      }
      assert ancestor(world[k - 1], world[k]);
    }
  }
}
