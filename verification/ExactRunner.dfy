/** The run object and its cursors, updated in place (codexsdk/exact_runner.go).
    Module ExactRun specifies the critical sections; the protocol machine and the
    claims of module Frozen are stated about those. */
module ExactRunner {
  import opened Wrappers
  import opened Attribution
  import opened Retention
  import opened ExactRun
  import Frozen

  class ExactRunState {
    const threadId: Id
    var turnId: Id
    var history: seq<Frame>
    var usage: Option<nat>
    var turnRecord: Id
    var final: Option<string>
    var terminal: bool
    var terminalAdmitted: bool
    var err: Option<Err>
    var owners: seq<LeaseId>

    ghost function Value(): Run
      reads this
    {
      Run(threadId, turnId, history, usage, turnRecord, final, terminal, terminalAdmitted, err, owners)
    }

    constructor (threadId: Id)
      ensures Value() == NewRun(threadId)
    {
      this.threadId := threadId;
      turnId, history, usage, turnRecord, final := "", [], None, "", None;
      terminal, terminalAdmitted, err, owners := false, false, None, [];
    }

    method SetTurn(id: Id)
      modifies this
      ensures Value() == ExactRun.SetTurn(old(Value()), id)
    {
      turnId := id;
      if turnRecord == "" { turnRecord := id; }
    }

    /** acceptRetainedBeforeTerminalCompletion: a completed turn freezes the
        evidence and hands its completion to the caller. */
    method AcceptRetained(frame: Frame, lease: LeaseId) returns (outcome: Acceptance)
      modifies this
      ensures Value() == Accept(old(Value()), frame, lease).0
      ensures outcome == Accept(old(Value()), frame, lease).1
    {
      var note := frame.note;
      if terminal || terminalAdmitted || ClassOf(note).Unsupported? || !MatchesRun(note, threadId, turnId) {
        return Ignored;
      }
      owners := owners + [lease];
      history := history + [frame];
      match note.payload
      case TokenUsage(tokens) =>
        usage := Some(tokens);
        outcome := Recorded;
      case Other =>
        outcome := Recorded;
      case TurnCompleted(status, items) =>
        turnRecord := note.turnId;
        final := FinalText(items);
        terminalAdmitted := true;
        outcome := Ended(if status.Completed? then None else Some(ErrTurn(status)));
    }

    /** finishState: only the first finish counts, and a close cause wins. */
    method FinishState(cause: Option<Err>, fallback: Option<Err>) returns (first: bool)
      modifies this
      ensures Value() == Finish(old(Value()), cause, fallback)
      ensures first == !old(terminal)
    {
      if terminal { return false; }
      err := if cause.Some? then cause else fallback;
      terminal := true;
      return true;
    }
  }

  /** The backward scan for the final response. */
  method FinalText(items: seq<Item>) returns (text: Option<string>)
    ensures text == FinalResponse(items)
  {
    var fallback: Option<string> := None;
    var i := |items|;
    assert items[..i] == items;
    while i > 0
      invariant 0 <= i <= |items|
      invariant LastText(items, IsFinalAnswer) == LastText(items[..i], IsFinalAnswer)
      invariant LastText(items, IsFallback) == if fallback.Some? then fallback else LastText(items[..i], IsFallback)
    {
      i := i - 1;
      var item := items[i];
      assert items[..i + 1][..i] == items[..i];
      if IsFinalAnswer(item) {
        return Some(item.text);
      }
      if fallback.None? && IsFallback(item) {
        fallback := Some(item.text);
      }
    }
    return fallback;
  }

  /** What the final response is, without the scan: the text of a final answer that
      no later one follows, else of a phaseless nonblank message likewise. */
  lemma {:induction false} LastTextIsLast(items: seq<Item>, p: Item -> bool)
    requires forall i <- items :: p(i) ==> i.AgentMessage?
    ensures var t := LastText(items, p);
            && (t.None? <==> forall k :: 0 <= k < |items| ==> !p(items[k]))
            && (t.Some? ==> exists k :: 0 <= k < |items| && p(items[k]) && items[k].text == t.value
                                        && forall j :: k < j < |items| ==> !p(items[j]))
    decreases |items|
  {
    if items == [] {
    } else {
      var last := |items| - 1;
      if p(items[last]) {
        assert items[last] in items;
      } else {
        LastTextIsLast(items[..last], p);
        var t := LastText(items[..last], p);
        if t.Some? {
          var k :| 0 <= k < last && p(items[..last][k]) && items[..last][k].text == t.value
                   && forall j :: k < j < last ==> !p(items[..last][j]);
          assert p(items[k]) && items[k].text == t.value;
          forall j | k < j < |items| ensures !p(items[j]) {
            if j < last { assert items[..last][j] == items[j]; }
          }
        } else {
          forall k | 0 <= k < |items| ensures !p(items[k]) {
            if k < last { assert items[..last][k] == items[k]; }
          }
        }
      }
    }
  }

  /** An Exact Run History Cursor. */
  class Stream {
    const state: ExactRunState
    var cursor: nat
    ghost var seen: seq<Frame>

    constructor (state: ExactRunState)
      ensures this.state == state && cursor == 0 && seen == []
    {
      this.state, cursor, seen := state, 0, [];
    }

    /** One locked look of Next: it advances only over a frame it yields. */
    method Look() returns (poll: Frozen.Poll)
      requires |seen| == cursor
      modifies this
      ensures poll == Frozen.Look(state.Value(), old(cursor))
      ensures seen == old(seen) + (if poll.Yield? then [poll.frame] else [])
      ensures |seen| == cursor
      ensures old(seen) <= state.history ==> seen <= state.history
      ensures poll.EndOfRun? && seen <= state.history ==> seen == state.history && state.terminal
    {
      if cursor < |state.history| {
        poll := Frozen.Yield(state.history[cursor]);
        seen := seen + [state.history[cursor]];
        cursor := cursor + 1;
      } else if state.terminal {
        poll := Frozen.EndOfRun;
      } else {
        poll := Frozen.Blocked;
      }
    }
  }
}
