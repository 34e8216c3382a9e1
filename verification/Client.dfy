/** The notification, exact-run and close protocol of one client: every
    interleaving of the reader's, the run starters', the closers' and the
    dispatcher's critical sections. */
module Client {
  import opened ClientState
  import Reader
  import Starter
  import Closing
  import Dispatch

  datatype Action =
    | ByReader(reader: Reader.Action)
    | ByStarter(r: RunId, starter: Starter.Action)
    | ByCloser(closer: Closing.Action)
    | ByDispatcher(dispatcher: Dispatch.Action)

  ghost predicate Enabled(s: State, a: Action) {
    match a
    case ByReader(b) => Reader.Enabled(s, b)
    case ByStarter(r, b) => Starter.Enabled(s, r, b)
    case ByCloser(b) => Closing.Enabled(s, b)
    case ByDispatcher(b) => Dispatch.Enabled(s, b)
  }

  ghost function Step(s: State, a: Action): State
    requires Enabled(s, a)
  {
    match a
    case ByReader(b) => Reader.Step(s, b)
    case ByStarter(r, b) => Starter.Step(s, r, b)
    case ByCloser(b) => Closing.Step(s, b)
    case ByDispatcher(b) => Dispatch.Step(s, b)
  }

  ghost predicate IsInit(s: State) { exists h, c, n, b :: s == Init(h, c, n, b) }

  /** A run of the machine: it starts in an initial state and every further state
      results from an enabled action. */
  ghost predicate IsRun(states: seq<State>, actions: seq<Action>) {
    && |states| == |actions| + 1
    && IsInit(states[0])
    && forall i :: 0 <= i < |actions| ==>
         Enabled(states[i], actions[i]) && states[i + 1] == Step(states[i], actions[i])
  }
}
