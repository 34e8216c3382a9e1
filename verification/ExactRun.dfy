/** One exact run: its accepted evidence and its terminal state
    (codexsdk/exact_runner.go). */
module ExactRun {
  import opened Wrappers
  import opened Attribution
  import opened Retention

  datatype Err =
    | ErrClientClosed | ErrStreamClosed | ErrRetention | ErrBackpressure | ErrConcurrentTurnStart
    | ErrTurn(status: TurnStatus)
    | ErrOther(tag: nat)

  /** An ingested frame; `no` is its position in the order of ingestion. */
  datatype Frame = Frame(no: nat, note: Note)

  datatype Run = Run(
    threadId: Id, turnId: Id,
    history: seq<Frame>, usage: Option<nat>, turnRecord: Id, final: Option<string>,
    terminal: bool, terminalAdmitted: bool, err: Option<Err>, owners: seq<LeaseId>)

  function NewRun(threadId: Id): Run {
    Run(threadId, "", [], None, "", None, false, false, None, [])
  }

  /** unicode.IsSpace */
  predicate IsSpace(c: char) {
    || '\t' <= c <= '\r' || c == ' ' || c == '\U{85}' || c == '\U{A0}' || c == '\U{1680}'
    || '\U{2000}' <= c <= '\U{200A}' || c == '\U{2028}' || c == '\U{2029}' || c == '\U{202F}'
    || c == '\U{205F}' || c == '\U{3000}'
  }

  /** strings.TrimSpace(text) != "" */
  predicate NonBlank(text: string) { exists i :: 0 <= i < |text| && !IsSpace(text[i]) }

  predicate IsFinalAnswer(item: Item) { item.AgentMessage? && item.phase == Some(FinalAnswer) }

  predicate IsFallback(item: Item) { item.AgentMessage? && item.phase == None && NonBlank(item.text) }

  /** The text of the last item satisfying `p`. */
  function LastText(items: seq<Item>, p: Item -> bool): (r: Option<string>)
    requires forall i <- items :: p(i) ==> i.AgentMessage?
  {
    if items == [] then None
    else if p(items[|items| - 1]) then Some(items[|items| - 1].text)
    else LastText(items[..|items| - 1], p)
  }

  /** The last final answer wins wherever it stands; otherwise the last phaseless
      nonblank message. */
  function FinalResponse(items: seq<Item>): Option<string> {
    var answer := LastText(items, IsFinalAnswer);
    if answer.Some? then answer else LastText(items, IsFallback)
  }

  datatype Acceptance = Ignored | Recorded | Ended(err: Option<Err>)

  predicate Admissible(run: Run, note: Note) {
    && !run.terminal && !run.terminalAdmitted
    && ClassOf(note) != Unsupported
    && MatchesRun(note, run.threadId, run.turnId)
  }

  function TerminalError(status: TurnStatus): Option<Err> {
    if status.Completed? then None else Some(ErrTurn(status))
  }

  /** Records an admissible frame under a lease that the run becomes an owner of.
      A completed turn freezes the evidence and yields the run's outcome. */
  function Accept(run: Run, frame: Frame, lease: LeaseId): (Run, Acceptance) {
    if !Admissible(run, frame.note) then (run, Ignored)
    else
      var r1 := run.(history := run.history + [frame], owners := run.owners + [lease]);
      match frame.note.payload
      case TokenUsage(tokens) => (r1.(usage := Some(tokens)), Recorded)
      case Other => (r1, Recorded)
      case TurnCompleted(status, items) =>
        (r1.(turnRecord := frame.note.turnId, final := FinalResponse(items), terminalAdmitted := true),
         Ended(TerminalError(status)))
  }

  /** The run's outcome is the close cause if there is one. */
  function Finish(run: Run, cause: Option<Err>, err: Option<Err>): Run {
    if run.terminal then run
    else run.(terminal := true, err := if cause.Some? then cause else err)
  }

  function SetTurn(run: Run, turnId: Id): Run {
    run.(turnId := turnId, turnRecord := if run.turnRecord == "" then turnId else run.turnRecord)
  }

  /** The positions of the turn-attributed frames of a history. */
  function TurnNos(history: seq<Frame>): seq<nat> {
    if history == [] then []
    else
      var last := history[|history| - 1];
      TurnNos(history[..|history| - 1]) + (if ClassOf(last.note) == Turn then [last.no] else [])
  }

  lemma TurnNosAppend(history: seq<Frame>, f: Frame)
    ensures TurnNos(history + [f]) == TurnNos(history) + (if ClassOf(f.note) == Turn then [f.no] else [])
  {
    assert (history + [f])[..|history|] == history;
  }

  /** A frame may be evidence for a run of thread `threadId`: its kind is known, it
      names a thread or a turn, and if a thread then this one. */
  predicate InScope(note: Note, threadId: Id) {
    note.known && (note.threadId != "" || note.turnId != "") && (note.threadId == "" || note.threadId == threadId)
  }

  /** The recorded usage is that of the last frame that reports one. */
  ghost predicate UsageIsLast(run: Run) {
    var h := run.history;
    match run.usage
    case None => forall k :: 0 <= k < |h| ==> !h[k].note.payload.TokenUsage?
    case Some(n) =>
      exists k :: 0 <= k < |h| && h[k].note.payload == TokenUsage(n)
                  && forall j :: k < j < |h| ==> !h[j].note.payload.TokenUsage?
  }

  /** The terminal frame is admitted exactly when the history ends with a completed
      turn, whose items and turn id are then the run's. */
  predicate EndIsRecorded(run: Run) {
    var h := run.history;
    && (run.terminalAdmitted <==> h != [] && h[|h| - 1].note.payload.TurnCompleted?)
    && (!run.terminalAdmitted ==> run.final.None?)
    && (run.terminalAdmitted ==>
          var end := h[|h| - 1].note;
          run.final == FinalResponse(end.payload.items) && (end.turnId != "" ==> run.turnRecord == end.turnId))
  }

  /** What a run has recorded is what its history says. */
  ghost predicate Truthful(run: Run) {
    (forall f <- run.history :: InScope(f.note, run.threadId)) && UsageIsLast(run) && EndIsRecorded(run)
  }

  lemma NewIsTruthful(threadId: Id)
    ensures Truthful(NewRun(threadId))
  {
  }

  /** Accepting keeps a run truthful. */
  lemma AcceptTruthful(run: Run, frame: Frame, lease: LeaseId)
    requires Truthful(run)
    ensures Truthful(Accept(run, frame, lease).0)
  {
    var after := Accept(run, frame, lease).0;
    hide FinalResponse;
    if Admissible(run, frame.note) {
      var n := |run.history|;
      assert after.history[n] == frame && forall k :: 0 <= k < n ==> after.history[k] == run.history[k];
      UsageGrows(run, after, frame);
    }
  }

  lemma SameTruthful(a: Run, b: Run)
    requires Truthful(a) && b.threadId == a.threadId && b.history == a.history && b.usage == a.usage
    requires b.final == a.final && b.terminalAdmitted == a.terminalAdmitted
    requires b.turnRecord == a.turnRecord || a.turnRecord == ""
    ensures Truthful(b)
  {
    hide FinalResponse, InScope;
  }

  /** Finishing, publishing the turn and letting go of leases change nothing that was
      recorded. */
  lemma OthersTruthful(run: Run, cause: Option<Err>, err: Option<Err>, turnId: Id, owners: seq<LeaseId>)
    requires Truthful(run)
    ensures Truthful(Finish(run, cause, err)) && Truthful(SetTurn(run, turnId)) && Truthful(run.(owners := owners))
  {
    hide Truthful;
    SameTruthful(run, Finish(run, cause, err));
    SameTruthful(run, SetTurn(run, turnId));
    SameTruthful(run, run.(owners := owners));
  }

  lemma UsageGrows(run: Run, after: Run, frame: Frame)
    requires UsageIsLast(run) && after.history == run.history + [frame]
    requires match frame.note.payload
             case TokenUsage(n) => after.usage == Some(n)
             case _ => after.usage == run.usage
    ensures UsageIsLast(after)
  {
    var h, n := after.history, |run.history|;
    assert h[n] == frame && forall k :: 0 <= k < n ==> h[k] == run.history[k];
    if !frame.note.payload.TokenUsage? && run.usage.Some? {
      var k :| 0 <= k < n && run.history[k].note.payload == TokenUsage(run.usage.value)
               && forall j :: k < j < n ==> !run.history[j].note.payload.TokenUsage?;
      assert h[k].note.payload == TokenUsage(after.usage.value);
    }
  }

  /** How a run may change: history only grows; admission of the terminal frame
      freezes the evidence; finishing freezes the error too. */
  ghost predicate Evolves(a: Run, b: Run) {
    && a.threadId == b.threadId
    && a.history <= b.history
    && (a.terminalAdmitted ==> b.terminalAdmitted)
    && (a.terminal ==> b.terminal && b.err == a.err)
    && (a.terminal || a.terminalAdmitted ==> SameEvidence(a, b))
  }

  predicate SameEvidence(a: Run, b: Run) {
    a.history == b.history && a.usage == b.usage && a.final == b.final
  }
}
