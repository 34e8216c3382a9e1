/** Which runs a server notification is evidence for
    (codexsdk/notification_attribution.go). */
module Attribution {
  import opened Wrappers

  /** Thread and turn ids; the empty id means "absent". */
  type Id = string

  datatype TurnStatus = Completed | Failed | Interrupted | Unexpected(name: string)

  datatype Phase = FinalAnswer | OtherPhase

  datatype Item = AgentMessage(text: string, phase: Option<Phase>) | OtherItem

  datatype Payload =
    | TurnCompleted(status: TurnStatus, items: seq<Item>)
    | TokenUsage(tokens: nat)
    | Other

  /** A decoded server notification: its two identities, whether its kind is a
      generated server notification, and the part the run result depends on. */
  datatype Note = Note(threadId: Id, turnId: Id, known: bool, payload: Payload)

  datatype Class = Unsupported | Turn | Thread | Global

  predicate MatchesRun(note: Note, threadId: Id, turnId: Id) {
    if note.threadId != "" && note.threadId != threadId then false
    else if note.turnId != "" && turnId != "" && note.turnId != turnId then false
    else note.threadId != "" || note.turnId != ""
  }

  function ClassOf(note: Note): Class {
    if !note.known then Unsupported
    else if note.turnId != "" then Turn
    else if note.threadId != "" then Thread
    else Global
  }

  /** A frame that belongs to turn `turnId` of thread `threadId`. */
  predicate BelongsTo(note: Note, threadId: Id, turnId: Id) {
    note.known && note.turnId == turnId && (note.threadId == "" || note.threadId == threadId)
  }

  /** Turn-attributed frames match a run with a published turn exactly when they
      belong to it; an unpublished turn never contradicts. */
  lemma TurnFramesBelong(note: Note, threadId: Id, turnId: Id)
    requires ClassOf(note) == Turn && turnId != ""
    ensures MatchesRun(note, threadId, turnId) <==> BelongsTo(note, threadId, turnId)
    ensures BelongsTo(note, threadId, turnId) ==> MatchesRun(note, threadId, "")
  {
  }

  /** What each class of known frame needs of a run, over every thread and turn id: a
      thread frame its own thread and nothing else, a turn frame no other thread and,
      once the run has a turn, that turn; a global frame matches no run. */
  lemma FramesMatch(note: Note, threadId: Id, turnId: Id)
    requires note.known
    ensures note.turnId == "" && note.threadId != "" ==> (MatchesRun(note, threadId, turnId) <==> note.threadId == threadId)
    ensures note.turnId == "" && note.threadId == "" ==> !MatchesRun(note, threadId, turnId)
    ensures note.turnId != "" ==>
              (MatchesRun(note, threadId, turnId) <==>
               (note.threadId == "" || note.threadId == threadId) && (turnId == "" || note.turnId == turnId))
    ensures ClassOf(note) == if note.turnId != "" then Turn else if note.threadId != "" then Thread else Global
  {
  }
}
