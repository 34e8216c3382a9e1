/** The retry chain of one structured-output step (llmkit/llmstep/step.go), with the
    heap: what is recorded shares no memory with the callbacks. */
module Step {
  import opened Wrappers

  // ------------------------------------------------------ slices and their values

  /** A finding or a repair; a finding has iteration 0. A null array is a nil slice. */
  datatype Item = Item(iteration: int, summary: string, codes: array?<string>, locations: array?<string>)

  datatype ItemValue = ItemValue(iteration: int, summary: string, codes: Option<seq<string>>,
      locations: Option<seq<string>>)

  type Items = Option<seq<ItemValue>>

  ghost function Strings(a: array?<string>): Option<seq<string>>
    reads a
  {
    if a == null then None else Some(a[..])
  }

  ghost function ValueOf(item: Item): ItemValue
    reads item.codes, item.locations
  {
    ItemValue(item.iteration, item.summary, Strings(item.codes), Strings(item.locations))
  }

  /** All arrays of a slice of items are among these. */
  ghost predicate Owns(mine: set<object>, a: array?<Item>)
    reads mine
  {
    a != null ==> a in mine && forall i :: 0 <= i < a.Length ==> OwnsItem(mine, a[i])
  }

  ghost predicate OwnsItem(mine: set<object>, item: Item) {
    (item.codes != null ==> item.codes in mine) && (item.locations != null ==> item.locations in mine)
  }

  /** The slice, all of whose arrays are `mine`, holds this value. */
  ghost predicate Holds(mine: set<object>, a: array?<Item>, v: Items)
    reads mine
  {
    && Owns(mine, a) && (a == null <==> v == None)
    && (a != null ==> a.Length == |v.value| && forall i :: 0 <= i < a.Length ==> ValueOf(a[i]) == v.value[i])
  }

  function Stamp(items: Items, iteration: int): Items {
    match items
    case None => None
    case Some(list) => Some(seq(|list|, i requires 0 <= i < |list| => list[i].(iteration := iteration)))
  }

  method CopyStrings(a: array?<string>) returns (c: array?<string>)
    ensures Strings(c) == Strings(a) && (c != null ==> fresh(c))
  {
    if a == null { return null; }
    var copied := new string[a.Length];
    var i := 0;
    while i < a.Length
      invariant 0 <= i <= a.Length && copied[..i] == a[..i]
    {
      copied[i] := a[i];
      i := i + 1;
    }
    assert copied[..] == copied[..i] && a[..] == a[..i];
    c := copied;
  }

  /** copyRepair and copyFindings: nil stays nil, nothing is shared. */
  method CopyItems(ghost theirs: set<object>, a: array?<Item>, ghost v: Items) returns (c: array?<Item>,
          ghost mine: set<object>)
    requires Holds(theirs, a, v)
    ensures Holds(mine, c, v) && fresh(mine)
  {
    mine := {};
    if a == null { return null, mine; }
    var copied := new Item[a.Length](_ => Item(0, "", null, null));
    mine := {copied};
    var i := 0;
    while i < a.Length
      invariant 0 <= i <= a.Length && fresh(mine) && copied in mine && Owns(mine, copied)
      invariant forall j :: 0 <= j < i ==> ValueOf(copied[j]) == v.value[j]
    {
      var item := a[i];
      var codes := CopyStrings(item.codes);
      var locations := CopyStrings(item.locations);
      if codes != null { mine := mine + {codes}; }
      if locations != null { mine := mine + {locations}; }
      copied[i] := Item(item.iteration, item.summary, codes, locations);
      i := i + 1;
    }
    c := copied;
  }

  /** stampIterations writes in place. */
  method StampIterations(ghost mine: set<object>, a: array?<Item>, ghost v: Items, iteration: int)
    requires Holds(mine, a, v)
    modifies if a == null then {} else {a}
    ensures Holds(mine, a, Stamp(v, iteration))
  {
    if a == null { return; }
    var i := 0;
    while i < a.Length
      invariant 0 <= i <= a.Length
      invariant forall j :: 0 <= j < i ==> a[j] == old(a[j]).(iteration := iteration)
      invariant forall j :: i <= j < a.Length ==> a[j] == old(a[j])
      modifies a
    {
      a[i] := a[i].(iteration := iteration);
      i := i + 1;
    }
  }

  // ------------------------------------------------------- attempts and outcomes

  datatype Stage = Render | Request | Call | Decode | Validate | ProjectRepair

  datatype Judgment = Judgment(accepted: bool, findings: array?<Item>)

  datatype Verdict = Verdict(accepted: bool, findings: Items)

  datatype Attempt<O> = Attempt(iteration: int, repair: array?<Item>, call: Option<O>, judgment: Option<Judgment>,
                                next: array?<Item>, err: Option<Stage>)

  datatype AttemptValue<O> = AttemptValue(iteration: int, repair: Items, call: Option<O>, judgment: Option<Verdict>,
                                          next: Items, err: Option<Stage>)

  datatype Defect = InvalidMaxIter | NilCaller | NilRender | NilValidate | BadSchema

  datatype Outcome<O> = Accepted(output: O) | Exhausted | Failed(stage: Stage) | Misconfigured(defect: Defect)

  datatype Config = Config(maxIter: int, caller: bool, render: bool, validate: bool, project: bool, compiles: bool)

  ghost predicate HoldsJudgment(mine: set<object>, j: Option<Judgment>, v: Option<Verdict>)
    reads mine
  {
    && (j.None? <==> v.None?)
    && (j.Some? ==> j.value.accepted == v.value.accepted && Holds(mine, j.value.findings, v.value.findings))
  }

  /** The attempt, all of whose arrays are `mine`, records this value. */
  ghost predicate Records<O>(mine: set<object>, t: Attempt<O>, v: AttemptValue<O>)
    reads mine
  {
    && t.iteration == v.iteration && t.call == v.call && t.err == v.err
    && Holds(mine, t.repair, v.repair) && HoldsJudgment(mine, t.judgment, v.judgment) && Holds(mine, t.next, v.next)
  }

  // ------------------------------------------------------------------- callbacks

  /** What happens in a run: each look at the context, and each callback with what it
      was given and what it returned, as values at that moment. */
  datatype Event<O> =
    | Checked(cancelled: bool)
    | Rendered(repair: Items, ok: bool)
    | Called(value: Option<O>, failure: Option<Stage>)
    | Judged(given: O, verdict: Verdict, ok: bool)
    | Projected(asked: Items, projected: Items, ok: bool)

  predicate OfCall(stage: Stage) { stage.Request? || stage.Call? || stage.Decode? }

  /** The callbacks. A contract is all the run knows of one: it may change every
      array it was ever given or has returned, which is what `reach` collects, and
      returns any value; the bodies are just one such callback. */
  class Callbacks<O(0)> {
    ghost var reach: set<object>
    ghost var trace: seq<Event<O>>

    method Render(given: array?<Item>, ghost cells: set<object>, ghost v: Items) returns (ok: bool)
      requires Holds(cells, given, v)
      modifies this, reach, cells
      ensures old(reach) + cells <= reach && fresh(reach - old(reach) - cells)
      ensures trace == old(trace) + [Rendered(v, ok)]
    {
      reach := reach + cells;
      ok := *;
      trace := trace + [Rendered(v, ok)];
    }

    /** The model call and decoding of its answer. */
    method Call() returns (value: Option<O>, failure: Option<Stage>)
      modifies this`trace
      ensures failure.None? ==> value.Some?
      ensures failure.Some? ==> OfCall(failure.value)
      ensures trace == old(trace) + [Called(value, failure)]
    {
      var answer: O := *;
      value, failure := Some(answer), None;
      trace := trace + [Called(value, failure)];
    }

    method Validate(value: O) returns (judgment: Judgment, ok: bool, ghost cells: set<object>, ghost v: Items)
      modifies this, reach
      ensures old(reach) <= reach && fresh(reach - old(reach)) && cells <= reach
      ensures Holds(cells, judgment.findings, v) && this !in cells
      ensures trace == old(trace) + [Judged(value, Verdict(judgment.accepted, v), ok)]
    {
      var accepted: bool := *;
      judgment, cells, v := Judgment(accepted, null), {}, None;
      ok := *;
      trace := trace + [Judged(value, Verdict(accepted, None), ok)];
    }

    method Project(given: array?<Item>, ghost mine: set<object>, ghost asked: Items)
      returns (repair: array?<Item>, ok: bool, ghost cells: set<object>, ghost v: Items)
      requires Holds(mine, given, asked)
      modifies this, reach, mine
      ensures old(reach) + mine <= reach && fresh(reach - old(reach) - mine) && cells <= reach
      ensures Holds(cells, repair, v)
      ensures trace == old(trace) + [Projected(asked, v, ok)]
    {
      reach := reach + mine;
      repair, cells, v := null, {}, None;
      ok := *;
      trace := trace + [Projected(asked, None, ok)];
    }
  }

  class Context {
    method Cancelled<O(0)>(cb: Callbacks<O>) returns (cancelled: bool)
      modifies cb`trace
      ensures cb.trace == old(cb.trace) + [Checked(cancelled)]
    {
      cancelled := *;
      cb.trace := cb.trace + [Checked(cancelled)];
    }
  }

  // -------------------------------------------------------------------- one attempt

  /** Asking with a repair: the context may be cancelled before or after rendering,
      rendering may fail, and the call reports how it went. */
  ghost predicate Asks<O>(p: seq<Event<O>>, repair: Items, call: Option<O>, failure: Option<Stage>) {
    || (p == [Checked(true)] && call.None? && failure == Some(Render))
    || (p == [Checked(false), Rendered(repair, false)] && call.None? && failure == Some(Render))
    || (p == [Checked(false), Rendered(repair, true), Checked(true)] && call.None? && failure == Some(Render))
    || (p == [Checked(false), Rendered(repair, true), Checked(false), Called(call, failure)]
        && (failure.None? ==> call.Some?) && (failure.Some? ==> OfCall(failure.value)))
  }

  /** The attempt ends the run in this stage. */
  ghost predicate Fails<O>(v: AttemptValue<O>, done: Option<Outcome<O>>, stage: Stage) {
    v.err == Some(stage) && v.next.None? && done == Some(Failed(stage))
  }

  ghost predicate Ends<O>(v: AttemptValue<O>, done: Option<Outcome<O>>, outcome: Outcome<O>) {
    v.err.None? && v.next.None? && done == Some(outcome)
  }

  /** Judging an answer. `done` is None when another attempt follows. */
  ghost predicate Decides<O>(config: Config, p: seq<Event<O>>, iter: int, v: AttemptValue<O>, done: Option<Outcome<O>>) {
    && v.call.Some? && |p| >= 1 && p[0].Judged? && p[0].given == v.call.value && v.judgment == Some(p[0].verdict)
    && var verdict := p[0].verdict;
       if !p[0].ok then |p| == 1 && Fails(v, done, Validate)
       else if |p| == 2 && p[1] == Checked(true) then Fails(v, done, Validate)
       else
         && |p| >= 2 && p[1] == Checked(false)
         && if verdict.accepted then |p| == 2 && Ends(v, done, Accepted(v.call.value))
            else if iter == config.maxIter then |p| == 2 && Ends(v, done, Exhausted)
            else if !config.project then |p| == 2 && Fails(v, done, ProjectRepair)
            else
              && |p| == 3 && p[2].Projected? && p[2].asked == verdict.findings
              && if p[2].ok then done.None? && v.err.None? && v.next == Stamp(p[2].projected, iter)
                 else Fails(v, done, ProjectRepair)
  }

  /** One attempt: what happened, what it records and how it ends. */
  ghost predicate Passes<O>(config: Config, p: seq<Event<O>>, iter: int, repair: Items, v: AttemptValue<O>,
                            done: Option<Outcome<O>>) {
    && v.iteration == iter && v.repair == repair
    && if |p| <= 4
       then v.judgment.None? && v.err.Some? && Asks(p, repair, v.call, v.err) && Fails(v, done, v.err.value)
       else Asks(p[..4], repair, v.call, None) && Decides(config, p[4..], iter, v, done)
  }

  lemma HoldsMore(mine: set<object>, more: set<object>, a: array?<Item>, v: Items)
    requires Holds(mine, a, v) && mine <= more
    ensures Holds(more, a, v)
  {
  }

  lemma Nil(mine: set<object>)
    ensures Holds(mine, null, None)
  {
  }

  /** Render and call with a copy of the attempt's repair. */
  method Ask<O(0)>(ctx: Context, cb: Callbacks<O>, owned: array?<Item>, ghost mine: set<object>, ghost v: Items)
    returns (answer: Option<O>, failure: Option<Stage>)
    requires Holds(mine, owned, v) && mine !! cb.reach && cb !in mine
    modifies cb, cb.reach
    ensures Holds(mine, owned, v) && mine !! cb.reach
    ensures old(cb.reach) <= cb.reach && fresh(cb.reach - old(cb.reach))
    ensures |old(cb.trace)| <= |cb.trace| && cb.trace[..|old(cb.trace)|] == old(cb.trace)
    ensures Asks(cb.trace[|old(cb.trace)|..], v, answer, failure)
  {
    hide Holds;
    answer, failure := None, Some(Render);
    var cancelled := ctx.Cancelled(cb);
    if cancelled { return; }
    var given, cells := CopyItems(mine, owned, v);
    var ok := cb.Render(given, cells, v);
    if !ok { return; }
    cancelled := ctx.Cancelled(cb);
    if cancelled { return; }
    answer, failure := cb.Call();
  }

  /** The judgment as returned, and an isolated copy of it. */
  method Judge<O(0)>(ctx: Context, cb: Callbacks<O>, answer: O)
    returns (judgment: Judgment, copied: array?<Item>, ok: bool, ghost cells: set<object>, ghost mine: set<object>,
        ghost v: Items)
    modifies cb, cb.reach
    ensures Holds(cells, judgment.findings, v) && Holds(mine, copied, v) && fresh(mine) && mine !! cb.reach
    ensures old(cb.reach) <= cb.reach && fresh(cb.reach - old(cb.reach))
    ensures var verdict := Verdict(judgment.accepted, v);
            || (cb.trace == old(cb.trace) + [Judged(answer, verdict, false)] && !ok)
            || cb.trace == old(cb.trace) + [Judged(answer, verdict, true), Checked(!ok)]
  {
    hide Holds;
    judgment, ok, cells, v := cb.Validate(answer);
    copied, mine := CopyItems(cells, judgment.findings, v);
    if ok {
      var cancelled := ctx.Cancelled(cb);
      ok := !cancelled;
    }
  }

  /** The projected repair, stamped: one copy to record and one to render next. */
  method PrepareRetry<O(0)>(cb: Callbacks<O>, iter: int, findings: array?<Item>, ghost cells: set<object>,
          ghost found: Items)
    returns (recorded: array?<Item>, next: array?<Item>, ok: bool, ghost mine: set<object>, ghost kept: set<object>,
        ghost v: Items)
    requires Holds(cells, findings, found)
    modifies cb, cb.reach
    ensures old(cb.reach) <= cb.reach && fresh(cb.reach - old(cb.reach))
    ensures cb.trace == old(cb.trace) + [Projected(found, v, ok)]
    ensures ok ==> fresh(mine) && fresh(kept) && mine + kept !! cb.reach
    ensures ok ==> Holds(mine, recorded, Stamp(v, iter)) && Holds(kept, next, Stamp(v, iter))
  {
    hide Holds;
    recorded, next, mine, kept := null, null, {}, {};
    var asked, askedCells := CopyItems(cells, findings, found);
    var projected;
    ghost var projectedCells;
    projected, ok, projectedCells, v := cb.Project(asked, askedCells, found);
    if !ok { return; }
    var stamped, stampedCells := CopyItems(projectedCells, projected, v);
    ItemsOwned(stampedCells, stamped, v);
    StampIterations(stampedCells, stamped, v, iter);
    recorded, mine := CopyItems(stampedCells, stamped, Stamp(v, iter));
    next, kept := CopyItems(stampedCells, stamped, Stamp(v, iter));
  }

  lemma ItemsOwned(mine: set<object>, a: array?<Item>, v: Items)
    requires Holds(mine, a, v)
    ensures a != null ==> a in mine
  {
  }

  /** A judged attempt: accepted, out of passes, failed, or to be repaired. */
  method Examine<O(0)>(config: Config, ctx: Context, cb: Callbacks<O>, asked: Attempt<O>, ghost own: set<object>,
          ghost v: AttemptValue<O>)
    returns (t: Attempt<O>, next: array?<Item>, done: Option<Outcome<O>>,
             ghost frame: set<object>, ghost value: AttemptValue<O>, ghost kept: set<object>)
    requires 1 <= asked.iteration <= config.maxIter && asked.call.Some? && v.judgment.None? && v.next.None?
    requires v.err.None?
    requires Records(own, asked, v) && own !! cb.reach && cb !in own
    modifies cb, cb.reach
    ensures Records(frame, t, value) && Holds(kept, next, value.next) && frame + kept !! cb.reach
    ensures fresh(frame - own) && fresh(kept) && old(cb.reach) <= cb.reach && fresh(cb.reach - old(cb.reach))
    ensures value.iteration == v.iteration && value.repair == v.repair && value.call == v.call
    ensures |old(cb.trace)| <= |cb.trace| && cb.trace[..|old(cb.trace)|] == old(cb.trace)
    ensures Decides(config, cb.trace[|old(cb.trace)|..], asked.iteration, value, done)
  {
    hide Holds, Stamp;
    var judgment, findings, valid, cells, mine, found := Judge(ctx, cb, asked.call.value);
    t := asked.(judgment := Some(Judgment(judgment.accepted, findings)));
    value := v.(judgment := Some(Verdict(judgment.accepted, found)));
    next, done, kept, frame := null, None, {}, own + mine;
    HoldsMore(own, frame, t.repair, v.repair);
    HoldsMore(mine, frame, findings, found);
    Nil({});
    HoldsMore({}, frame, null, None);
    NilOnly(own, t.next);
    if valid && judgment.accepted {
      done := Some(Accepted(asked.call.value));
    } else if valid && asked.iteration == config.maxIter {
      done := Some(Exhausted);
    } else if valid && config.project {
      t, next, done, frame, value, kept := Repair(cb, t, judgment.findings, cells, found, frame, value);
    } else {
      var stage := if valid then ProjectRepair else Validate;
      t, value, done := t.(err := Some(stage)), value.(err := Some(stage)), Some(Failed(stage));
    }
  }

  lemma NilOnly(mine: set<object>, a: array?<Item>)
    requires Holds(mine, a, None)
    ensures a == null
  {
  }

  /** A rejected attempt with a projector: its repair is recorded and kept. */
  method Repair<O(0)>(cb: Callbacks<O>, judged: Attempt<O>, findings: array?<Item>, ghost cells: set<object>,
          ghost found: Items,
                      ghost own: set<object>, ghost v: AttemptValue<O>)
    returns (t: Attempt<O>, next: array?<Item>, done: Option<Outcome<O>>,
             ghost frame: set<object>, ghost value: AttemptValue<O>, ghost kept: set<object>)
    requires Records(own, judged, v) && own !! cb.reach && cb !in own && v.next.None? && v.err.None?
    requires Holds(cells, findings, found)
    modifies cb, cb.reach
    ensures Records(frame, t, value) && Holds(kept, next, value.next) && frame + kept !! cb.reach
    ensures fresh(frame - own) && fresh(kept) && old(cb.reach) <= cb.reach && fresh(cb.reach - old(cb.reach))
    ensures value == v.(next := value.next, err := value.err)
    ensures |cb.trace| == |old(cb.trace)| + 1 && cb.trace[..|old(cb.trace)|] == old(cb.trace)
    ensures var e := cb.trace[|old(cb.trace)|];
            && e.Projected? && e.asked == found
            && if e.ok then done.None? && value.err.None? && value.next == Stamp(e.projected, judged.iteration)
               else Fails(value, done, ProjectRepair)
  {
    hide Holds, Stamp;
    var recorded, ok;
    ghost var mine, shown;
    recorded, next, ok, mine, kept, shown := PrepareRetry(cb, judged.iteration, findings, cells, found);
    if ok {
      t, value, done, frame := judged.(next := recorded), v.(next := Stamp(shown, judged.iteration)), None, own + mine;
      HoldsMore(own, frame, t.repair, v.repair);
      if t.judgment.Some? { HoldsMore(own, frame, t.judgment.value.findings, v.judgment.value.findings); }
      HoldsMore(mine, frame, recorded, value.next);
    } else {
      t, value, done := judged.(err := Some(ProjectRepair)), v.(err := Some(ProjectRepair)),
          Some(Failed(ProjectRepair));
      next, kept, frame := null, {}, own;
      Nil({});
    }
  }

  /** One pass of the loop. The attempt's own arrays are `frame`, those of the repair
      kept for the next pass `kept`: neither is ever within a callback's reach. */
  method Try<O(0)>(config: Config, ctx: Context, cb: Callbacks<O>, iter: int, repair: array?<Item>,
          ghost mine: set<object>, ghost v: Items)
    returns (t: Attempt<O>, next: array?<Item>, done: Option<Outcome<O>>,
             ghost frame: set<object>, ghost value: AttemptValue<O>, ghost kept: set<object>)
    requires 1 <= iter <= config.maxIter && Holds(mine, repair, v) && mine !! cb.reach && cb !in mine
    modifies cb, cb.reach
    ensures Records(frame, t, value) && Holds(kept, next, value.next) && frame + kept !! cb.reach
    ensures fresh(frame) && fresh(kept) && old(cb.reach) <= cb.reach && fresh(cb.reach - old(cb.reach))
    ensures |old(cb.trace)| <= |cb.trace| && cb.trace[..|old(cb.trace)|] == old(cb.trace)
    ensures Passes(config, cb.trace[|old(cb.trace)|..], iter, v, value, done)
  {
    hide Holds, Stamp;
    var owned, own := CopyItems(mine, repair, v);
    Nil({});
    Nil(own);
    var answer, failure := Ask(ctx, cb, owned, own, v);
    t, value := Attempt(iter, owned, answer, None, null, failure), AttemptValue(iter, v, answer, None, None, failure);
    if failure.Some? {
      next, done, frame, kept := null, Some(Failed(failure.value)), own, {};
    } else {
      t, next, done, frame, value, kept := Examine(config, ctx, cb, t, own, value);
    }
  }

  // ----------------------------------------------------------------- the whole run

  function DefectOf(config: Config): Option<Defect> {
    if config.maxIter < 1 then Some(InvalidMaxIter)
    else if !config.caller then Some(NilCaller)
    else if !config.render then Some(NilRender)
    else if !config.validate then Some(NilValidate)
    else if !config.compiles then Some(BadSchema)
    else None
  }

  /** The passes of a run, one after another. */
  function Flat<O>(passes: seq<seq<Event<O>>>): seq<Event<O>> {
    if passes == [] then [] else Flat(passes[..|passes| - 1]) + passes[|passes| - 1]
  }

  /** The repair an attempt renders with: none, then the one kept by the attempt before. */
  function RepairFor<O>(log: seq<AttemptValue<O>>, i: nat): Items
    requires i <= |log|
  {
    if i == 0 then None else log[i - 1].next
  }

  /** The first attempts of a run, each followed by another. */
  ghost predicate Prefix<O>(config: Config, passes: seq<seq<Event<O>>>, log: seq<AttemptValue<O>>) {
    |passes| == |log| && forall i: nat :: i < |log| ==> Passes(config, passes[i], i + 1, RepairFor(log, i), log[i], None)
  }

  /** The attempts of a finished run: all but the last followed by another, the last
      deciding the outcome. */
  ghost predicate Chain<O>(config: Config, passes: seq<seq<Event<O>>>, log: seq<AttemptValue<O>>, outcome: Outcome<O>) {
    var n := |log|;
    && 1 <= n <= config.maxIter && n == |passes| && Prefix(config, passes[..n - 1], log[..n - 1])
    && Passes(config, passes[n - 1], n, RepairFor(log, n - 1), log[n - 1], Some(outcome))
  }

  lemma PrefixGrows<O>(config: Config, passes: seq<seq<Event<O>>>, log: seq<AttemptValue<O>>, p: seq<Event<O>>,
                       v: AttemptValue<O>)
    requires Prefix(config, passes, log) && Passes(config, p, |log| + 1, RepairFor(log, |log|), v, None)
    ensures Prefix(config, passes + [p], log + [v]) && Flat(passes + [p]) == Flat(passes) + p
  {
    hide Passes;
    assert (passes + [p])[..|passes|] == passes;
    var all := log + [v];
    forall i: nat | i < |all| ensures Passes(config, (passes + [p])[i], i + 1, RepairFor(all, i), all[i], None) {
      assert RepairFor(all, i) == RepairFor(log, i);
    }
  }

  lemma PrefixEnds<O>(config: Config, passes: seq<seq<Event<O>>>, log: seq<AttemptValue<O>>, p: seq<Event<O>>,
                      v: AttemptValue<O>, outcome: Outcome<O>)
    requires Prefix(config, passes, log) && |log| < config.maxIter
    requires Passes(config, p, |log| + 1, RepairFor(log, |log|), v, Some(outcome))
    ensures Chain(config, passes + [p], log + [v], outcome) && Flat(passes + [p]) == Flat(passes) + p
  {
    hide Passes;
    assert (passes + [p])[..|passes|] == passes && (log + [v])[..|log|] == log;
    assert RepairFor(log + [v], |log|) == RepairFor(log, |log|);
  }

  // ------------------------------------------------- what the outcome depends on

  /** The pass ends with a judgment made without error under a live context. */
  ghost predicate JudgedLive<O>(p: seq<Event<O>>) {
    |p| >= 2 && p[|p| - 2].Judged? && p[|p| - 2].ok && p[|p| - 1] == Checked(false)
  }

  ghost predicate Ruled<O>(p: seq<Event<O>>, accepted: bool) {
    JudgedLive(p) && p[|p| - 2].verdict.accepted == accepted
  }

  /** The stage that failed, or whose end found the context done. */
  ghost predicate FailedIn<O>(config: Config, p: seq<Event<O>>, n: int, stage: Stage)
    requires p != []
  {
    var last := p[|p| - 1];
    match stage
    case Render => last.Rendered? || (last == Checked(true) && |p| < 5)
    case Validate => last.Judged? || (last == Checked(true) && |p| >= 2 && p[|p| - 2].Judged?)
    case ProjectRepair => last.Projected? || (Ruled(p, false) && n < config.maxIter && !config.project)
    case _ => last.Called? && last.failure == Some(stage)
  }

  /** Only failures are last. */
  ghost predicate EndsBadly<O>(e: Event<O>) {
    match e
    case Checked(_) => true
    case Rendered(_, ok) => !ok
    case Called(_, failure) => failure.Some?
    case Judged(_, _, ok) => !ok
    case Projected(_, _, ok) => !ok
  }

  /** How a run ends is decided by what happened last: accepted exactly when the last
      answer was accepted without error under a live context, exhausted exactly when
      such an answer was rejected by the last attempt allowed, and failed in exactly
      the stage that failed or whose end found the context done. */
  lemma LastPassDecides<O>(config: Config, passes: seq<seq<Event<O>>>, log: seq<AttemptValue<O>>, outcome: Outcome<O>)
    requires Chain(config, passes, log, outcome)
    ensures log != [] && |passes| == |log| && passes[|log| - 1] != []
    ensures var p := passes[|log| - 1];
            && (outcome.Accepted? <==> Ruled(p, true))
            && (outcome.Exhausted? <==> Ruled(p, false) && |log| == config.maxIter)
            && (forall stage :: outcome == Failed(stage) <==> FailedIn(config, p, |log|, stage))
            && EndsBadly(p[|p| - 1])
    ensures var p := passes[|log| - 1];
            outcome.Accepted? && Ruled(p, true) ==> outcome.output == p[|p| - 2].given
  {
    hide Stamp, Passes, Prefix, Ruled, FailedIn, EndsBadly;
    var p, n := passes[|log| - 1], |log|;
    PassDecides(config, p, n, RepairFor(log, n - 1), log[n - 1], outcome);
  }

  lemma PassDecides<O>(config: Config, p: seq<Event<O>>, n: int, repair: Items, v: AttemptValue<O>, outcome: Outcome<O>)
    requires Passes(config, p, n, repair, v, Some(outcome)) && n <= config.maxIter
    ensures p != []
    ensures outcome.Accepted? <==> Ruled(p, true)
    ensures outcome.Exhausted? <==> Ruled(p, false) && n == config.maxIter
    ensures forall stage :: outcome == Failed(stage) <==> FailedIn(config, p, n, stage)
    ensures EndsBadly(p[|p| - 1])
    ensures outcome.Accepted? && Ruled(p, true) ==> outcome.output == p[|p| - 2].given
  {
    hide Stamp;
    if |p| > 4 {
      var q := p[4..];
      assert p[..4][3] == p[3];
      assert q[0] == p[4] && (|q| > 1 ==> q[1] == p[5]) && (|q| > 2 ==> q[2] == p[6]);
    }
  }

  /** An attempt that another follows was rejected without error under a live context,
      its findings went to the projector, and the next attempt renders with what came
      back, stamped. */
  lemma EarlierPassesRetry<O>(config: Config, passes: seq<seq<Event<O>>>, log: seq<AttemptValue<O>>, outcome: Outcome<O>,
                              i: nat)
    requires Chain(config, passes, log, outcome) && i + 1 < |log|
    ensures |passes[i]| == 7 && config.project && i + 1 < config.maxIter
    ensures var p := passes[i];
            && p[4].Judged? && p[4].ok && !p[4].verdict.accepted && p[5] == Checked(false)
            && p[6].Projected? && p[6].asked == p[4].verdict.findings && p[6].ok
            && log[i].judgment == Some(p[4].verdict) && log[i].next == Stamp(p[6].projected, i + 1)
            && log[i].err.None? && log[i].call == Some(p[4].given)
    ensures log[i].iteration == i + 1 && log[i + 1].repair == log[i].next && log[0].repair.None?
    ensures |passes[i + 1]| >= 2 ==> passes[i + 1][1].Rendered? && passes[i + 1][1].repair == log[i].next
  {
    hide Passes, Stamp;
    var n := |log|;
    assert Passes(config, passes[..n - 1][i], i + 1, RepairFor(log[..n - 1], i), log[..n - 1][i], None);
    RetriedPass(config, passes[i], i + 1, RepairFor(log, i), log[i]);
    if i + 1 < n - 1 {
      assert Passes(config, passes[..n - 1][i + 1], i + 2, RepairFor(log[..n - 1], i + 1), log[..n - 1][i + 1], None);
    }
    NextRenders(config, passes[i + 1], i + 2, log[i].next, log[i + 1], if i + 1 < n - 1 then None else Some(outcome));
    assert Passes(config, passes[..n - 1][0], 1, RepairFor(log[..n - 1], 0), log[..n - 1][0], None);
    NextRenders(config, passes[0], 1, None, log[0], None);
  }

  lemma RetriedPass<O>(config: Config, p: seq<Event<O>>, iter: int, repair: Items, v: AttemptValue<O>)
    requires Passes(config, p, iter, repair, v, None) && iter <= config.maxIter
    ensures |p| == 7 && config.project && iter < config.maxIter
    ensures p[4].Judged? && p[4].ok && !p[4].verdict.accepted && p[5] == Checked(false)
    ensures p[6].Projected? && p[6].asked == p[4].verdict.findings && p[6].ok
    ensures v.iteration == iter && v.err.None? && v.call == Some(p[4].given)
    ensures v.judgment == Some(p[4].verdict) && v.next == Stamp(p[6].projected, iter)
  {
    hide Stamp;
    assert p[4..][0] == p[4] && p[4..][1] == p[5] && p[4..][2] == p[6];
  }

  lemma NextRenders<O>(config: Config, p: seq<Event<O>>, iter: int, repair: Items, v: AttemptValue<O>,
                       done: Option<Outcome<O>>)
    requires Passes(config, p, iter, repair, v, done)
    ensures v.repair == repair && (|p| >= 2 ==> p[1].Rendered? && p[1].repair == repair)
  {
    hide Stamp, Decides;
    if |p| > 4 { assert p[..4][1] == p[1]; }
  }

  /** snapshotResult's copy of one attempt. */
  method CopyAttempt<O>(ghost own: set<object>, t: Attempt<O>, ghost v: AttemptValue<O>) returns (c: Attempt<O>,
          ghost mine: set<object>)
    requires Records(own, t, v)
    ensures Records(mine, c, v) && fresh(mine)
  {
    hide Holds;
    var repair, first := CopyItems(own, t.repair, v.repair);
    var next, second := CopyItems(own, t.next, v.next);
    mine := first + second;
    c := t.(repair := repair, next := next);
    if t.judgment.Some? {
      var findings, third := CopyItems(own, t.judgment.value.findings, v.judgment.value.findings);
      c := c.(judgment := Some(Judgment(t.judgment.value.accepted, findings)));
      mine := mine + third;
      HoldsMore(third, mine, findings, v.judgment.value.findings);
    }
    HoldsMore(first, mine, repair, v.repair);
    HoldsMore(second, mine, next, v.next);
  }

  /** snapshotResult: the attempts handed out share nothing with those recorded. */
  method Snapshot<O>(ghost frames: seq<set<object>>, attempts: seq<Attempt<O>>, ghost log: seq<AttemptValue<O>>)
    returns (copies: seq<Attempt<O>>, ghost owned: seq<set<object>>)
    requires |frames| == |attempts| == |log| && forall i :: 0 <= i < |log| ==> Records(frames[i], attempts[i], log[i])
    ensures |owned| == |copies| == |log|
    ensures forall i :: 0 <= i < |log| ==> Records(owned[i], copies[i], log[i]) && fresh(owned[i])
  {
    hide Records;
    copies, owned := [], [];
    var i := 0;
    while i < |attempts|
      invariant 0 <= i <= |attempts| && |owned| == |copies| == i
      invariant forall j :: 0 <= j < i ==> Records(owned[j], copies[j], log[j]) && fresh(owned[j])
    {
      var c, mine := CopyAttempt(frames[i], attempts[i], log[i]);
      copies, owned := copies + [c], owned + [mine];
      i := i + 1;
    }
  }

  /** Run. The attempts are a chain, and `passes` is what happened in each; `log` is
      what each recorded when it was made and the attempts returned still hold it, in
      arrays (`owned`) that no callback was ever given or ever returned. */
  method Run<O(0)>(config: Config, ctx: Context, cb: Callbacks<O>)
    returns (attempts: seq<Attempt<O>>, outcome: Outcome<O>, ghost log: seq<AttemptValue<O>>,
        ghost owned: seq<set<object>>, ghost passes: seq<seq<Event<O>>>)
    requires cb.trace == []
    modifies cb, cb.reach
    ensures match DefectOf(config)
            case Some(defect) => outcome == Misconfigured(defect) && attempts == []
            case None => Chain(config, passes, log, outcome)
    ensures cb.trace == Flat(passes)
    ensures |owned| == |attempts| == |log|
    ensures forall i :: 0 <= i < |log| ==>
              Records(owned[i], attempts[i], log[i]) && fresh(owned[i]) && owned[i] !! cb.reach
  {
    hide Holds, Records, Passes, Prefix, Chain, Flat;
    log, owned, passes := [], [], [];
    NoAttempts<O>(config);
    if config.maxIter < 1 { return [], Misconfigured(InvalidMaxIter), log, owned, passes; }
    if !config.caller { return [], Misconfigured(NilCaller), log, owned, passes; }
    if !config.render { return [], Misconfigured(NilRender), log, owned, passes; }
    if !config.validate { return [], Misconfigured(NilValidate), log, owned, passes; }
    if !config.compiles { return [], Misconfigured(BadSchema), log, owned, passes; }
    var recorded: seq<Attempt<O>> := [];
    ghost var frames: seq<set<object>> := [];
    var repair: array?<Item> := null;
    ghost var kept: set<object>, v: Items := {}, None;
    Nil({});
    for iter := 1 to config.maxIter + 1
      invariant |frames| == |recorded| == |log| == iter - 1
      invariant forall i :: 0 <= i < |log| ==>
                 Records(frames[i], recorded[i], log[i]) && fresh(frames[i]) && frames[i] !! cb.reach
      invariant Holds(kept, repair, v) && fresh(kept) && kept !! cb.reach && fresh(cb.reach - old(cb.reach))
      invariant Prefix(config, passes, log) && cb.trace == Flat(passes) && v == RepairFor(log, |log|)
      invariant iter <= config.maxIter
    {
      ghost var before := cb.trace;
      var t, next, done, frame, value, more := Try(config, ctx, cb, iter, repair, kept, v);
      recorded, frames := recorded + [t], frames + [frame];
      ghost var p := cb.trace[|before|..];
      assert cb.trace == before + p;
      if done.Some? {
        PrefixEnds(config, passes, log, p, value, done.value);
        log, passes := log + [value], passes + [p];
        attempts, owned := Snapshot(frames, recorded, log);
        outcome := done.value;
        return;
      }
      PrefixGrows(config, passes, log, p, value);
      LastPass(config, p, iter, v, value);
      log, passes := log + [value], passes + [p];
      repair, kept, v := next, more, value.next;
    }
    assert false;
  }

  lemma NoAttempts<O>(config: Config)
    ensures Prefix<O>(config, [], []) && Flat<O>([]) == []
  {
  }

  /** Another attempt follows only below the bound. */
  lemma LastPass<O>(config: Config, p: seq<Event<O>>, iter: int, repair: Items, v: AttemptValue<O>)
    requires Passes(config, p, iter, repair, v, None) && iter <= config.maxIter
    ensures iter < config.maxIter
  {
  }
}
