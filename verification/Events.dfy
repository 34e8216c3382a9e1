/** Reading the event lines of one run
    (codexsdk/internal/codexexec/executor.go, parseEvents). */
module Events {
  import opened Wrappers

  datatype Item =
    | Command(failed: bool, succeeded: bool, sandbox: bool)   // a command's outcome, and whether its output names the sandbox
    | Warning(sandbox: bool)                                  // an error item
    | OtherItem

  /** A decoded line. `wellFormed` says that the id looks like a session id. */
  datatype Event =
    | Undecodable
    | ThreadStarted(id: string, wellFormed: bool)
    | TurnStarted
    | ItemCompleted(item: Item)
    | TurnCompleted
    | Error(message: Option<string>)
    | TurnFailed(reason: string)
    | OtherEvent

  datatype ScanError = TooLong | ReadFailed

  datatype Diagnostic =
    | ExecutionFailed | EndpointNotFound | AuthenticationFailed | ProviderFailed
    | DecodeFailed | SequenceInvalid | SessionMismatch | MissingSession | EventTooLarge | EventReadFailed | Done

  datatype Tool = NoTool | CommandFailed | CommandSucceeded | SandboxUnavailable | RuntimeWarning

  datatype Result = Result(completed: bool, diagnostic: Diagnostic, session: string, tool: Tool,
      error: Option<Diagnostic>)

  // --------------------------------------------------------- what happened before

  predicate GoodStart(e: Event, expected: string) {
    e.ThreadStarted? && e.wellFormed && (expected == "" || expected == e.id)
  }

  predicate Started(events: seq<Event>, k: nat, expected: string)
    requires k <= |events|
  {
    exists j :: 0 <= j < k && GoodStart(events[j], expected)
  }

  predicate TurnSeen(events: seq<Event>, k: nat)
    requires k <= |events|
  {
    exists j :: 0 <= j < k && events[j].TurnStarted?
  }

  predicate Completed(events: seq<Event>, k: nat)
    requires k <= |events|
  {
    exists j :: 0 <= j < k && events[j].TurnCompleted?
  }

  /** An event that always sets the diagnostic. */
  predicate Overrides(events: seq<Event>, i: nat, expected: string)
    requires i < |events|
  {
    match events[i]
    case Undecodable => true
    case ThreadStarted(_, _) => Started(events, i, expected) || !GoodStart(events[i], expected)
    case Error(message) => message.None?
    case _ => false
  }

  /** An event out of order, which counts only as the first failure. */
  predicate OutOfOrder(events: seq<Event>, i: nat, expected: string)
    requires i < |events|
  {
    match events[i]
    case TurnStarted => !Started(events, i, expected) || TurnSeen(events, i) || Completed(events, i)
    case TurnCompleted => !Started(events, i, expected) || Completed(events, i)
    case Error(message) => message.Some? && (!Started(events, i, expected) || Completed(events, i))
    case _ => false
  }

  predicate Fails(events: seq<Event>, i: nat, expected: string)
    requires i < |events|
  {
    Overrides(events, i, expected) || OutOfOrder(events, i, expected) || events[i].TurnFailed?
  }

  predicate AnyFails(events: seq<Event>, k: nat, expected: string)
    requires k <= |events|
  {
    exists i :: 0 <= i < k && Fails(events, i, expected)
  }

  function Reason(events: seq<Event>, i: nat, expected: string, classify: string -> Diagnostic): Diagnostic
    requires i < |events|
  {
    if events[i].ThreadStarted? then SessionMismatch
    else if events[i].TurnFailed? then classify(events[i].reason)
    else if Overrides(events, i, expected) then DecodeFailed
    else SequenceInvalid
  }

  // -------------------------------------------------------------- the trace itself

  /** One well-formed matching thread start, then possibly one turn start, then one
      turn completion; error notices only in between; nothing failed or unreadable. */
  ghost predicate Conversation(events: seq<Event>, expected: string, s: nat, c: nat) {
    && s < c < |events| && GoodStart(events[s], expected) && events[c].TurnCompleted?
    && (forall i :: 0 <= i < |events| ==> Placed(events[i], i, s, c))
    && (forall i, j :: 0 <= i < j < |events| ==> !(events[i].TurnStarted? && events[j].TurnStarted?))
  }

  predicate Placed(e: Event, i: nat, s: nat, c: nat) {
    match e
    case Undecodable => false
    case TurnFailed(_) => false
    case ThreadStarted(_, _) => i == s
    case TurnCompleted => i == c
    case TurnStarted => s < i < c
    case Error(message) => message.Some? && s < i < c
    case _ => true
  }

  /** The scan finds no fault exactly in such a conversation. */
  lemma CompletedIffConversation(events: seq<Event>, expected: string)
    ensures !AnyFails(events, |events|, expected) && Started(events, |events|, expected) && Completed(events, |events|)
       <==> exists s, c :: Conversation(events, expected, s, c)
  {
    if !AnyFails(events, |events|, expected) && Started(events, |events|, expected) && Completed(events, |events|) {
      var s :| 0 <= s < |events| && GoodStart(events[s], expected);
      var c :| 0 <= c < |events| && events[c].TurnCompleted?;
      FaultlessIsConversation(events, expected, s, c);
    }
    if exists s, c :: Conversation(events, expected, s, c) {
      var s, c :| Conversation(events, expected, s, c);
      ConversationIsFaultless(events, expected, s, c);
    }
  }

  lemma SeenBefore(events: seq<Event>, i: nat, k: nat, expected: string)
    requires i < k <= |events|
    ensures GoodStart(events[i], expected) ==> Started(events, k, expected)
    ensures events[i].TurnStarted? ==> TurnSeen(events, k)
    ensures events[i].TurnCompleted? ==> Completed(events, k)
  {
  }

  lemma FaultlessIsConversation(events: seq<Event>, expected: string, s: nat, c: nat)
    requires !AnyFails(events, |events|, expected)
    requires s < |events| && GoodStart(events[s], expected) && c < |events| && events[c].TurnCompleted?
    ensures Conversation(events, expected, s, c)
  {
    assert !Fails(events, s, expected) && !Fails(events, c, expected);
    forall i | 0 <= i < |events| ensures Placed(events[i], i, s, c) {
      assert !Fails(events, i, expected);
      if i < s { SeenBefore(events, i, s, expected); }
      if s < i { SeenBefore(events, s, i, expected); }
      if i < c { SeenBefore(events, i, c, expected); }
      if c < i { SeenBefore(events, c, i, expected); }
      OnlyStart(events, expected, s, i);
    }
    forall i, j | 0 <= i < j < |events| ensures !(events[i].TurnStarted? && events[j].TurnStarted?) {
      assert !Fails(events, j, expected);
      SeenBefore(events, i, j, expected);
    }
  }

  /** In a faultless scan nothing can have started before the thread start. */
  lemma OnlyStart(events: seq<Event>, expected: string, s: nat, i: nat)
    requires s < |events| && i < |events| && !Fails(events, s, expected) && GoodStart(events[s], expected)
    ensures Started(events, i, expected) ==> s < i
  {
    assert !Started(events, s, expected);
    assert forall j :: 0 <= j < s ==> !GoodStart(events[j], expected);
  }

  lemma ConversationIsFaultless(events: seq<Event>, expected: string, s: nat, c: nat)
    requires Conversation(events, expected, s, c)
    ensures !AnyFails(events, |events|, expected) && Started(events, |events|, expected) && Completed(events, |events|)
  {
    forall i | 0 <= i < |events| ensures !Fails(events, i, expected) {
      assert Placed(events[i], i, s, c);
      assert s < i ==> Started(events, i, expected);
      forall j | 0 <= j < i && j < |events| ensures Placed(events[j], j, s, c) {}
    }
  }

  // ------------------------------------------------------------- the tool diagnosis

  predicate Decisive(e: Event) { e.ItemCompleted? && ((e.item.Command? && e.item.failed) || e.item.Warning?) }

  predicate Succeeded(e: Event) { e.ItemCompleted? && e.item.Command? && !e.item.failed && e.item.succeeded }

  function ToolReason(e: Event): Tool
    requires Decisive(e)
  {
    if e.item.sandbox then SandboxUnavailable else if e.item.Command? then CommandFailed else RuntimeWarning
  }

  /** The last failed command or warning decides; a success shows only without one. */
  ghost predicate ToolDiagnosis(events: seq<Event>, k: nat, tool: Tool)
    requires k <= |events|
  {
    || (exists i :: 0 <= i < k && Decisive(events[i]) && tool == ToolReason(events[i]) && forall j :: i < j < k ==>
        !Decisive(events[j]))
    || ((forall j :: 0 <= j < k ==> !Decisive(events[j]))
        && tool == if exists i :: 0 <= i < k && Succeeded(events[i]) then CommandSucceeded else NoTool)
  }

  /** The last unconditional failure names the diagnostic; without one the first
      failure; without any, the last error notice. */
  ghost predicate Diagnosis(events: seq<Event>, k: nat, expected: string, classify: string -> Diagnostic,
          diagnostic: Diagnostic)
    requires k <= |events|
  {
    || LastOverride(events, k, expected, classify, diagnostic)
    || (NoOverride(events, k, expected) && FirstFailure(events, k, expected, classify, diagnostic))
    || (!AnyFails(events, k, expected)
        && (LastError(events, k, classify, Some(diagnostic))
            || (diagnostic == ExecutionFailed && LastError(events, k, classify, None))))
  }

  predicate NoOverride(events: seq<Event>, k: nat, expected: string)
    requires k <= |events|
  {
    forall j :: 0 <= j < k ==> !Overrides(events, j, expected)
  }

  ghost predicate LastOverride(events: seq<Event>, k: nat, expected: string, classify: string -> Diagnostic,
          diagnostic: Diagnostic)
    requires k <= |events|
  {
    exists i :: 0 <= i < k && Overrides(events, i, expected) && diagnostic == Reason(events, i, expected, classify)
                && forall j :: i < j < k ==> !Overrides(events, j, expected)
  }

  ghost predicate FirstFailure(events: seq<Event>, k: nat, expected: string, classify: string -> Diagnostic,
          diagnostic: Diagnostic)
    requires k <= |events|
  {
    exists i :: 0 <= i < k && Fails(events, i, expected) && diagnostic == Reason(events, i, expected, classify)
                && !AnyFails(events, i, expected)
  }

  ghost predicate LastError(events: seq<Event>, k: nat, classify: string -> Diagnostic, last: Option<Diagnostic>)
    requires k <= |events|
  {
    || (exists i :: 0 <= i < k && events[i].Error? && events[i].message.Some? && last == Some(classify(events[i].message.value))
                    && forall j :: i < j < k ==> !(events[j].Error? && events[j].message.Some?))
    || ((forall j :: 0 <= j < k ==> !(events[j].Error? && events[j].message.Some?)) && last == None)
  }

  ghost predicate Session(events: seq<Event>, k: nat, expected: string, session: string)
    requires k <= |events|
  {
    || (exists i :: 0 <= i < k && GoodStart(events[i], expected) && session == events[i].id && !Started(events, i, expected))
    || (!Started(events, k, expected) && session == "")
  }

  lemma NothingRead(events: seq<Event>, expected: string, classify: string -> Diagnostic)
    ensures !Started(events, 0, expected) && !TurnSeen(events, 0) && !Completed(events, 0)
    ensures !AnyFails(events, 0, expected)
    ensures Session(events, 0, expected, "") && ToolDiagnosis(events, 0, NoTool)
    ensures LastError(events, 0, classify, None) && Diagnosis(events, 0, expected, classify, ExecutionFailed)
  {
  }

  lemma OneRead(events: seq<Event>, i: nat, expected: string)
    requires i < |events|
    ensures Started(events, i + 1, expected) <==> Started(events, i, expected) || GoodStart(events[i], expected)
    ensures TurnSeen(events, i + 1) <==> TurnSeen(events, i) || events[i].TurnStarted?
    ensures Completed(events, i + 1) <==> Completed(events, i) || events[i].TurnCompleted?
    ensures AnyFails(events, i + 1, expected) <==> AnyFails(events, i, expected) || Fails(events, i, expected)
  {
    hide GoodStart, Fails;
    if AnyFails(events, i, expected) {
      var j :| 0 <= j < i && Fails(events, j, expected);
    }
  }

  lemma SessionNext(events: seq<Event>, i: nat, expected: string, session: string)
    requires i < |events| && Session(events, i, expected, session)
    ensures Session(events, i + 1, expected, if GoodStart(events[i], expected) && !Started(events, i, expected)
              then events[i].id else session)
  {
  }

  lemma ToolNext(events: seq<Event>, i: nat, tool: Tool)
    requires i < |events| && ToolDiagnosis(events, i, tool)
    ensures ToolDiagnosis(events, i + 1, if events[i].ItemCompleted? then ItemTool(events[i].item, tool) else tool)
  {
    hide Decisive, Succeeded, ToolReason, ItemTool;
    var e := events[i];
    var tool' := if e.ItemCompleted? then ItemTool(e.item, tool) else tool;
    ToolStep(e, tool);
    if Decisive(e) {
      assert tool' == ToolReason(e);
    } else if exists j :: 0 <= j < i && Decisive(events[j]) {
      var j :| 0 <= j < i && Decisive(events[j]) && tool == ToolReason(events[j]) && forall m :: j < m < i ==>
          !Decisive(events[m]);
      ReasonNotEmpty(events[j]);
      assert tool' == ToolReason(events[j]);
    }
  }

  lemma ReasonNotEmpty(e: Event)
    requires Decisive(e)
    ensures !ToolReason(e).NoTool?
  {
  }

  lemma ToolStep(e: Event, tool: Tool)
    ensures (if e.ItemCompleted? then ItemTool(e.item, tool) else tool)
         == if Decisive(e) then ToolReason(e)
            else if Succeeded(e) && tool.NoTool? then CommandSucceeded else tool
  {
  }

  lemma ErrorNext(events: seq<Event>, i: nat, classify: string -> Diagnostic, last: Option<Diagnostic>)
    requires i < |events| && LastError(events, i, classify, last)
    ensures LastError(events, i + 1, classify,
                      if events[i].Error? && events[i].message.Some? then Some(classify(events[i].message.value))
                          else last)
  {
  }

  lemma OverrideNext(events: seq<Event>, i: nat, expected: string, classify: string -> Diagnostic, d: Diagnostic)
    requires i < |events|
    ensures Overrides(events, i, expected) ==>
              LastOverride(events, i + 1, expected, classify, Reason(events, i, expected, classify))
    ensures !Overrides(events, i, expected) && LastOverride(events, i, expected, classify, d) ==>
              LastOverride(events, i + 1, expected, classify, d)
    ensures NoOverride(events, i + 1, expected) <==> NoOverride(events, i, expected) && !Overrides(events, i, expected)
  {
    hide Overrides, Reason;
  }

  lemma FailureNext(events: seq<Event>, i: nat, expected: string, classify: string -> Diagnostic, d: Diagnostic)
    requires i < |events|
    ensures FirstFailure(events, i, expected, classify, d) ==> FirstFailure(events, i + 1, expected, classify, d)
    ensures Fails(events, i, expected) && !AnyFails(events, i, expected) ==>
              FirstFailure(events, i + 1, expected, classify, Reason(events, i, expected, classify))
    ensures FirstFailure(events, i, expected, classify, d) || LastOverride(events, i, expected, classify, d) ==>
              AnyFails(events, i, expected)
  {
    hide Reason, Overrides, OutOfOrder;
    if LastOverride(events, i, expected, classify, d) {
      var j :| 0 <= j < i && Overrides(events, j, expected);
      assert Fails(events, j, expected);
    }
  }

  lemma DiagnosisNext(events: seq<Event>, i: nat, expected: string, classify: string -> Diagnostic, d: Diagnostic)
    requires i < |events| && Diagnosis(events, i, expected, classify, d)
    ensures Diagnosis(events, i + 1, expected, classify,
                      if Overrides(events, i, expected)
                          || (Fails(events, i, expected) && !AnyFails(events, i, expected))
                      then Reason(events, i, expected, classify)
                      else if !AnyFails(events, i, expected) && events[i].Error? && events[i].message.Some?
                      then classify(events[i].message.value) else d)
  {
    hide Reason, OutOfOrder, LastError, Overrides, LastOverride, NoOverride, FirstFailure, AnyFails, Started;
    OneRead(events, i, expected);
    OverrideNext(events, i, expected, classify, d);
    FailureNext(events, i, expected, classify, d);
    NoFailureNoOverride(events, i, expected);
    if LastError(events, i, classify, Some(d)) { ErrorNext(events, i, classify, Some(d)); }
    if LastError(events, i, classify, None) { ErrorNext(events, i, classify, None); }
  }

  lemma NoFailureNoOverride(events: seq<Event>, k: nat, expected: string)
    requires k <= |events|
    ensures !AnyFails(events, k, expected) ==> NoOverride(events, k, expected)
  {
    hide Overrides, OutOfOrder;
    if !AnyFails(events, k, expected) {
      forall j | 0 <= j < k ensures !Overrides(events, j, expected) { assert !Fails(events, j, expected); }
    }
  }

  method ParseEvents(events: seq<Event>, scan: Option<ScanError>, expected: string,
          classify: string -> Diagnostic) returns (r: Result)
    ensures r.completed <==> scan.None? && exists s, c :: Conversation(events, expected, s, c)
    ensures Session(events, |events|, expected, r.session) && ToolDiagnosis(events, |events|, r.tool)
    ensures LastError(events, |events|, classify, r.error)
    ensures r.completed ==> r.diagnostic == Done
    ensures !r.completed ==>
              match scan
              case Some(TooLong) => r.diagnostic == EventTooLarge
              case Some(ReadFailed) => r.diagnostic == EventReadFailed
              case None =>
                if !Started(events, |events|, expected) && !AnyFails(events, |events|, expected)
                    then r.diagnostic == MissingSession
                else Diagnosis(events, |events|, expected, classify, r.diagnostic)
  {
    hide Started, TurnSeen, Completed, AnyFails, Session, ToolDiagnosis, LastError, Diagnosis, Conversation;
    r := Result(false, ExecutionFailed, "", NoTool, None);
    var started, turnStarted, completed, failed := false, false, false, false;
    NothingRead(events, expected, classify);
    for i := 0 to |events|
      invariant started == Started(events, i, expected) && turnStarted == TurnSeen(events, i)
      invariant completed == Completed(events, i)
      invariant failed == AnyFails(events, i, expected) && !r.completed
      invariant Session(events, i, expected, r.session) && ToolDiagnosis(events, i, r.tool)
      invariant LastError(events, i, classify, r.error) && Diagnosis(events, i, expected, classify, r.diagnostic)
    {
      OneRead(events, i, expected);
      SessionNext(events, i, expected, r.session);
      ToolNext(events, i, r.tool);
      ErrorNext(events, i, classify, r.error);
      DiagnosisNext(events, i, expected, classify, r.diagnostic);
      match events[i] {
        case Undecodable =>
          failed := true;
          r := r.(diagnostic := DecodeFailed);
        case ThreadStarted(id, wellFormed) =>
          if started || !wellFormed || (expected != "" && expected != id) {
            failed := true;
            r := r.(diagnostic := SessionMismatch);
          } else {
            started := true;
            r := r.(session := id);
          }
        case TurnStarted =>
          if (!started || turnStarted || completed) && !failed {
            failed := true;
            r := r.(diagnostic := SequenceInvalid);
          }
          turnStarted := true;
        case ItemCompleted(item) =>
          r := r.(tool := ItemTool(item, r.tool));
        case TurnCompleted =>
          if (!started || completed) && !failed {
            failed := true;
            r := r.(diagnostic := SequenceInvalid);
          }
          completed := true;
        case Error(message) =>
          if message.None? {
            failed := true;
            r := r.(diagnostic := DecodeFailed);
          } else {
            r := r.(error := Some(classify(message.value)));
            if !failed {
              r := r.(diagnostic := r.error.value);
              if !started || completed {
                failed := true;
                r := r.(diagnostic := SequenceInvalid);
              }
            }
          }
        case TurnFailed(reason) =>
          if !failed { r := r.(diagnostic := classify(reason)); }
          failed := true;
        case OtherEvent =>
      }
    }
    CompletedIffConversation(events, expected);
    if scan.Some? {
      failed := true;
      r := r.(diagnostic := if scan.value.TooLong? then EventTooLarge else EventReadFailed);
    }
    if !started && !failed { r := r.(diagnostic := MissingSession); }
    if started && completed && !failed { r := r.(completed := true, diagnostic := Done); }
  }

  function ItemTool(item: Item, tool: Tool): Tool {
    match item
    case Command(failed, succeeded, sandbox) =>
      if failed then if sandbox then SandboxUnavailable else CommandFailed
      else if succeeded && tool.NoTool? then CommandSucceeded
      else tool
    case Warning(sandbox) => if sandbox then SandboxUnavailable else RuntimeWarning
    case OtherItem => tool
  }
}
