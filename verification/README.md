# Verified models of llm-go

This project models parts of the repository in Dafny and proves what its code and
documentation promise of them. `dafny verify dfyconfig.toml` checks everything.

## The codexsdk notification, exact-run and close protocol

One transport reader, one serial dispatcher, any number of goroutines that start, attach,
finish and cancel runs, and one close publisher share the maps of `codexsdk.Client`, a
bounded queue, the history of every run and a budget of reference-counted leases. The model
is a state machine (`ClientState`, `Reader`, `Starter`, `Closing`, `Dispatch`, `Client`)
whose actions are the critical sections of the source: what one goroutine does under `turnMu`,
under `closeMu`, under a run's `mu`, or inside the `once` of one piece of parked evidence. A
run's `notificationOrderMu` is held across several actions. A run of the machine is any
interleaving of enabled actions from an initial state, and the main results hold in every
state, or between any two states, of every run:

| module | result |
|---|---|
| `Leases` | reference counts, budget totals and owners agree; neither retention panic is reachable |
| `Phases`, `Provenance`, `Binding` | supporting invariants: where each goroutine stands, which frames are genuine, which runs a turn id is bound to |
| `Registration` | the registries agree with each other and with every run's phase |
| `Scope`, `Parking` | a run's history holds frames in its scope only; a frame goes to exactly the registered runs it names and is accepted by each; one that nobody receives yet waits and is replayed |
| `Settling` | no completion and no frame is lost while the client is open |
| `Finishing` | a run ends with the outcome of its completed turn |
| `Publication` | once the close is published every registered run is finished |
| `Frozen` | closed exactly when a cause is set; evidence, error and cause freeze; cursors |
| `Fifo` | queue, callback work and dispatch channels are conserved; outcomes are final |
| `Fence`, `Replay` | the terminal fence, and the one replay that escapes it |
| `Once` | no frame is accepted twice |
| `Focus`, `Order`, `Gapless` | seen from one run: its turn frames are accepted in ingestion order and without gaps |
| `Exactness` | which failure snapshots and which stops break that, exactly |
| `Witness` | runs of the client on which a promise fails without its condition |
| `Rpc` | one outcome for every RPC |

`LiveClient`, `ExactRunner`, `RetentionBudget` and `Rpc.PendingCalls` are classes with the
source's fields. Their methods update them in place, with the source's loops, and are proved
to perform exactly the actions above, whatever the order in which a Go map is ranged over.

Two promises hold only under a condition, which is part of the theorem.

- A run accepts the turn frames of its turn in order and without gaps. The condition is about
  that run alone. (a) No other run was bound to its turn id; the application server hands the
  ids out, and `Witness.SharingInverts` shows an inverted history when it repeats one. (b) The
  failure snapshot did not overtake a live frame of the run: it took frames parked for a run
  whose turn was published but not attached while a live frame was on its way to it. After
  such a snapshot some continuation commits the parked frames after the live one, and after
  any other none does, for every reachable snapshot with room for one more frame
  (`Exactness.SnapshotInvertsExactly`, `Exactness.SnapshotLosesExactly`;
  `Witness.OvertakingInverts` is a concrete run). (c) Stopping the dispatcher did not open a
  frame of the run, still finishing, that a later one can follow; this too is exact
  (`Exactness.StopLosesExactly`, `Witness.SkippingLeavesGap`).
- A `turn/completed` without a turn id that is parked for an armed thread completes its run
  while the run is being registered, before the callback for that frame
  (`Witness.ThreadScopedCompletionIsUnfenced`). Every other completion is fenced.

## Self-contained parts

- `AutoForward`: the converge loop against an arbitrary repository. `Safe` says which trace of
  observations and effects is allowed, `GoesOn` and `Justifies` what a pass ends with that goes
  on or gives up for a reason; every run of the loop bears this out, and a trace justifies at
  most one reason.
- `Pointer`, `Schema`: JSON Pointer references (RFC 6901, sections 3 and 4) and the admission
  of strict output schemas, which is exact: accepted means the unfolding of local references
  is finite and every node in it is locally fine, stated keyword by keyword, and a refusal
  names a defect that the walk reaches.
- `JsonValue`, `StringOrder`: parsing and canonical printing of explicit JSON values at the
  level of tokens.
- `Naming`, `Resolver`, `Reachability`: Go names for generated definitions, and the marking of
  the definitions that generated types depend on.
- `Step`: the retry chain of one structured-output step, with the heap.
- `Events`, `Goal`: the event-line reader and the goal observer against declarative
  descriptions of their traces.
- `Digest`: the byte stream hashed for a candidate directory.

## Model

| member | source | states |
|---|---|---|
| Retention.ReserveConserves | codexsdk/notification_retention.go:36-48 | reserving keeps every lease's count equal to its owners and the totals equal to the live leases within the limits; refused exactly when a limit would be passed |
| Retention.ReleaseConserves | codexsdk/notification_retention.go:63-78 | letting go of one owner keeps conservation and never panics |
| Retention.ReleaseAllConserves | codexsdk/notification_retention.go:98-106 | a run's cleanup lets go of each of its shares exactly once |
| RetentionBudget.NotificationRetention.Reserve | codexsdk/notification_retention.go:36-48 | the in-place budget reserves as specified |
| RetentionBudget.NotificationRetention.Retain | codexsdk/notification_retention.go:50-61 | the in-place budget retains as specified, or panics on a released lease |
| RetentionBudget.NotificationRetention.Release | codexsdk/notification_retention.go:63-78 | the in-place budget releases as specified; the last owner gives the charge back |
| RetentionBudget.RetentionOwners.Release | codexsdk/notification_retention.go:98-106 | every owned share is released once and none is kept |
| Leases.AlwaysConserved | codexsdk/notification_retention.go:36-106 | in every reachable state each lease's references are the slots that hold it, diagnostics included, and the budget's totals are those of the live leases; no retention panic is reachable |
| Leases.NothingLeaks | codexsdk/notification_retention.go:63-106 | once no slot holds a lease the whole budget is free |
| Leases.SnapshotConserves | codexsdk/client.go:1287-1365 | the failure snapshot moves leases between owners without losing or inventing one |
| Leases.FinishCollectConserves | codexsdk/client.go:1212-1242 | leaving without attachment keeps conservation |
| Registration.AlwaysAgrees | codexsdk/client.go:687-734 | in every reachable state registered runs, armed ids, attachment leases and parked evidence agree with each other and with the phase of every run |
| Registration.NeverInBoth | codexsdk/client.go:999-1018 | a run is never both attaching and streaming and is registered under its own turn id |
| Registration.UnregisteredStaysOut | codexsdk/client.go:1273-1285 | a run whose unregister step ran is registered nowhere |
| Registration.FinishScansEverything | codexsdk/client.go:1219-1241 | only the run's own turn can be armed for it or hold its evidence |
| Registration.NothingArmedAfterSnapshot | codexsdk/client.go:1316-1333 | after the failure snapshot nothing is armed or parked again |
| Frozen.CauseIffClosed | codexsdk/notification_dispatch.go:280-288 | the client is closed exactly when a close cause is set |
| Frozen.NothingThaws | codexsdk/exact_runner.go:485-528 | along every run the first cause stays, histories only grow, evidence is frozen after terminal admission, a final error never changes and equals the cause if one was set |
| Frozen.OneSnapshot | codexsdk/client.go:1287-1347 | the failure snapshot happens at most once |
| Publication.PublicationSettles | codexsdk/client.go:1348-1368 | once publication is done every run that was registered at the snapshot is terminal, with the close cause unless it was terminal already, and the evidence that was parked or being replayed then is resolved |
| Publication.ClosedRegistersNobody | codexsdk/client.go:1169-1174 | once the client is closed no run becomes registered |
| Publication.PublishedFinishesAll | codexsdk/client.go:1287-1372 | once the close is published every run that is registered is terminal |
| Frozen.CursorYieldsHistory | codexsdk/exact_runner.go:233-265 | a cursor yields the history in order without gaps however its looks interleave, and reports the end only after the whole frozen history |
| Scope.AlwaysTruthful | codexsdk/exact_runner.go:485-568 | in every reachable state a run's usage is that of the last frame of its history that reports one, it has admitted a terminal frame exactly when a completed turn ends its history, and its final response and turn are those of that turn |
| Scope.HistoryInScope | codexsdk/notification_attribution.go:31-67 | every accepted frame of every reachable state is of a known kind, names a thread or a turn, and names no thread but the run's and no turn but the one its turn/start response named |
| Scope.TargetsReceive | codexsdk/client.go:839-872 | the scans of the registries find exactly the registered runs of the thread and the turn a frame names |
| Scope.AlwaysServed | codexsdk/client.go:921-940 | from its routing on, every run a frame was for is still to be offered it, has accepted it or was over, unless the budget refused a frame or the client closed |
| Scope.EveryReceiverAccepts | codexsdk/client.go:921-940 | a frame that passed the reader with nothing refused is in the history of every run it was for that could still accept it |
| Parking.UnreceivedWaits | codexsdk/client.go:873-919 | a frame that no run receives is appended to what waits for its armed thread, or becomes evidence of the run its turn is armed for, and nothing else is parked |
| Parking.ParkedIsReplayed | codexsdk/client.go:1181-1209 | a run that registers and replays what waited for its thread has accepted each of those frames unless its evidence had ended |
| Parking.ArmedUntilTaken | codexsdk/client.go:687-698 | a thread that a thread/start response armed stays armed until a run of it registers or the failure snapshot is taken |
| Finishing.FinishTellsOutcome | codexsdk/exact_runner.go:543-632 | while no close cause is set a run that finishes other than by refusal, giving up, Close or the publisher has accepted its completed turn and ends without error exactly when that turn completed, else with an error naming its status |
| Finishing.OutsideFinishes | codexsdk/exact_runner.go:612-632 | a refused registration, giving up before attachment, and Close or a failed request of the run's owner finish the run at once, with the close cause if one is set and else with their own error |
| Finishing.OverMeansFinished | codexsdk/client.go:1212-1271 | in every reachable state a run whose starter was refused or gave up, and has ended, is finished |
| Settling.AlwaysSettles | codexsdk/notification_dispatch.go:165-193 | in every reachable state, unless the client is closed or failing, every ingested frame is admitted or with the reader, and every run whose completed turn was accepted is terminal or has its completion on the way |
| Settling.RestMeansSettled | codexsdk/client.go:792-820 | in an open client at rest every ingested frame has had its callbacks return, and every run that accepted its completed turn and is not replaying is terminal |
| Settling.RefusedExactly | codexsdk/notification_dispatch.go:15-67 | a frame is refused admission exactly when the client is closed, the budget has no room or the queue is full; otherwise it is queued last with its completions |
| Fifo.AlwaysAccounted | codexsdk/notification_dispatch.go:15-80 | in every reachable state admitted entries are queued, held, delivered or discarded, each once; callback work equals the entries that still owe a callback and is never negative; no dispatch channel is closed twice |
| Fifo.OutcomesAreFinal | codexsdk/notification_dispatch.go:88-239 | a delivered entry is never discarded nor the reverse, and after the dispatcher exits the queue stays empty |
| Fence.TerminalFence | codexsdk/notification_dispatch.go:165-193 | a run terminal without error ended on an accepted completed turn, and every entry admitted up to that frame had its callback return successfully, unless the frame named no turn and had been parked for the run's armed thread |
| Replay.AlwaysTraced | codexsdk/client.go:1169-1210 | what registration replays, and the last frame of a run it completed, had been parked for that run's thread |
| Fence.EveryCompletionFenced | codexsdk/client.go:792-812 | when every turn/completed names its turn the fence has no exception |
| Fence.NoCauseBeforeSuccess | codexsdk/exact_runner.go:612-632 | no close cause was set while a run that ends without error was still to finish |
| Once.NeverAcceptedTwice | codexsdk/client.go:1107-1142 | no run accepts a frame twice or anything after its terminal frame, whichever of replay, live delivery, finishing and failure snapshot comes first |
| Order.TurnFramesInOrder | codexsdk/client.go:829-939 | a run whose turn id is its own, and which no failure snapshot overtook with frames that can still be accepted, accepted its turn frames in ingestion order |
| Gapless.TurnFramesWithoutGaps | codexsdk/client.go:999-1095 | the turn frames of a run whose turn id is its own, and which no snapshot or stop made lose frames, are a prefix, without gaps, of the frames of its turn ingested since it was bound |
| Binding.AlwaysBound | codexsdk/client.go:699-730 | in every reachable state the turn frames parked for, offered to and accepted by a run belong to the turn its turn/start response named |
| Binding.UnboundAcceptsNoTurnFrame | codexsdk/exact_runner.go:457-465 | a run whose turn was never bound accepts no turn frame |
| Exactness.SnapshotInvertsExactly | codexsdk/client.go:1287-1361 | after a failure snapshot with room for one frame, some continuation lets an unshared run accept its turn frames out of order exactly when the snapshot overtakes a live frame of it that does not complete the turn |
| Exactness.SnapshotLosesExactly | codexsdk/client.go:1287-1361 | it can leave the run with a gap, later steps losing nothing, exactly when it overtakes a live frame of it |
| Exactness.StopLosesExactly | codexsdk/notification_dispatch.go:133-157 | a stop can leave an unshared run that lost nothing with a gap, later steps losing nothing, exactly when it opens a frame of it that a later one can still follow |
| Witness.OvertakingInverts | codexsdk/client.go:1354-1361 | a reachable state in which a run, its turn id its own, accepted frame 1 before frame 0 of its turn |
| Witness.SharingInverts | codexsdk/client.go:699-730 | a reachable state in which a run that no snapshot or stop made lose frames accepted frame 1 before frame 0, because another run was bound to its turn id |
| Witness.SkippingLeavesGap | codexsdk/notification_dispatch.go:133-157 | a run that lost nothing and then accepts frame 1 without frame 0 because the dispatcher stopped |
| Witness.ThreadScopedCompletionIsUnfenced | codexsdk/client.go:1190-1208 | a reachable state in which a run completed without error before the callback for its terminal frame |
| Rpc.OneOutcome | codexsdk/client.go:457-513 | a call is pending exactly until its caller, the reader or the snapshot takes it; at most one response is sent; a caller left waiting has one or is owed one |
| Rpc.OutcomesStay | codexsdk/client.go:1287-1295 | takers, responses and outcomes never change, and once drained nothing is pending again |
| Rpc.AnswersComeFrom | codexsdk/client.go:457-513 | what a call receives was sent for this very call: a response that came in under its id, or the failure of the snapshot that took it |
| Rpc.PendingCalls.Admit | codexsdk/client.go:492-503 | a call is admitted unless the client is closed |
| Rpc.PendingCalls.Take | codexsdk/client.go:505-513 | taking removes a pending call and gives it to one taker |
| Rpc.PendingCalls.Drain | codexsdk/client.go:1289-1295 | the snapshot takes every pending call once and leaves none |
| Attribution.TurnFramesBelong | codexsdk/notification_attribution.go:30-52 | a turn frame matches a run with a published turn exactly when it carries that turn and no other thread |
| Attribution.FramesMatch | codexsdk/notification_attribution.go:30-52 | a thread frame matches exactly the runs of its thread, a turn frame the runs it does not contradict, a global frame none |
| ExactRunner.ExactRunState.AcceptRetained | codexsdk/exact_runner.go:485-568 | an admissible frame is appended with its lease and a terminal frame freezes the evidence; anything else changes nothing |
| ExactRunner.ExactRunState.FinishState | codexsdk/exact_runner.go:612-632 | the first finish sets the error, which is the close cause if there is one; later ones change nothing |
| ExactRunner.FinalText | codexsdk/exact_runner.go:659-682 | the final response is the last final answer, else the last message without a phase that is not blank |
| ExactRunner.LastTextIsLast | codexsdk/exact_runner.go:659-682 | the text found is that of the last item wanted and there is none exactly when no item is wanted |
| ExactRunner.Stream.Look | codexsdk/exact_runner.go:233-265 | one look yields the next frame of the history, blocks, or ends after the whole frozen history |
| LiveClient.LiveClient.FinishState | codexsdk/exact_runner.go:612-641 | finishing a run once, owing its unregister step |
| LiveClient.LiveClient.ResolveEvidence | codexsdk/client.go:1107-1120 | parked evidence is accepted at most once |
| LiveClient.LiveClient.UnregisterExactRun | codexsdk/client.go:1273-1285 | the run leaves both registries and no key keeps an empty set |
| LiveClient.LiveClient.RegisterAttachingExactStream | codexsdk/client.go:1169-1189 | registration is refused when closed or when another run of the thread is attaching, and otherwise takes the parked thread frames and disarms the thread |
| LiveClient.LiveClient.AttachExactStreamLocked | codexsdk/client.go:999-1042 | attachment disarms the turn, moves the run to the streams and takes its parked frames; a terminal run is not published |
| LiveClient.LiveClient.FinishAttachingExactStream | codexsdk/client.go:1212-1242 | scanning every armed turn and every parked list disarms and collects exactly what the run's own turn holds |
| LiveClient.LiveClient.TakeSnapshot | codexsdk/client.go:1297-1347 | the failure snapshot takes everything parked and replaying, retains what is replayed and empties the registries |
| LiveClient.NeverEmptyLists | codexsdk/client.go:1226-1241 | no parked list is ever left empty |
| LiveClient.LiveClient.Targets | codexsdk/client.go:839-872 | the runs a notification is delivered to are exactly the registered ones of the thread and turn it names, each once |
| LiveClient.LiveClient.Route | codexsdk/client.go:829-919 | a frame is delivered to exactly the registered runs of the thread and turn it names; without any it is parked for its armed thread or turn with a lease, or only queued |
| LiveClient.LiveClient.AcceptOrdered | codexsdk/exact_runner.go:530-541 | delivery to one target accepts under a lease of its own and remembers the first refusal of the budget |
| LiveClient.LiveClient.ArmThreadAttach | codexsdk/client.go:687-698 | a thread id is armed under one lease, or the client fails |
| LiveClient.LiveClient.ReleaseDispatchWaiter | codexsdk/notification_dispatch.go:75-80 | the dispatch channel is closed and the entry's lease let go |
| LiveClient.LiveClient.DiscardAcceptedNotifications | codexsdk/notification_dispatch.go:227-239 | discarding empties the queue, releasing each entry's waiter, lease and callback work |
| AutoForward.AutoForward | codexsdk/internal/protocolsync/auto_forward.go:47-232 | every run of the loop has a safe trace and reports the candidate it confirmed and the last checks it saw of it; it ends integrated only when a read main contains that candidate and cleanup is confirmed, with policy's word only when policy said it, and with an error and status only when the trace ends as that reason needs; repair is required exactly after a rebase conflict that no new main explains |
| AutoForward.Choose | codexsdk/internal/protocolsync/auto_forward.go:89-107 | a candidate is linear and verified, to be rebased, tried again because main moved on, or the run stops for the reason the trace shows |
| AutoForward.Rebuild | codexsdk/internal/protocolsync/auto_forward.go:107-132 | a rebuilt candidate is published only after ancestry and verification of the new head; otherwise the pass goes on or stops as the trace shows |
| AutoForward.Confirm | codexsdk/internal/protocolsync/auto_forward.go:133-157 | the published head is taken over exactly when read back; a lost lease, an unconfirmed write and an unknown outcome are told apart by what was read |
| AutoForward.Admit | codexsdk/internal/protocolsync/auto_forward.go:159-205 | forwarding needs two successful observations of the exact head around a review and a read of the same head, main and readiness; each other observation has its own outcome |
| AutoForward.Land | codexsdk/internal/protocolsync/auto_forward.go:206-230 | after a forward the loop goes on when the main read back contains the candidate or has moved under it, and otherwise stops for the reason the readback shows |
| AutoForward.OneOutcome | codexsdk/internal/protocolsync/auto_forward.go:47-232 | a trace justifies at most one reason to stop, and then neither going on nor a good end |
| AutoForward.ReadBetweenEffects | codexsdk/internal/protocolsync/auto_forward.go:47-232 | between any two effects of a safe trace there is a read |
| AutoForward.ForwardIsAdmitted | codexsdk/internal/protocolsync/auto_forward.go:47-232 | every forward of a safe trace is admitted by what stands before it |
| AutoForward.MainMovesToVerifiedDescendants | codexsdk/internal/protocolsync/auto_forward.go:47-232 | under compare-and-swap each forward moves main to a descendant verified against the main it replaces |
| AutoForward.MainOnlyFastForwards | codexsdk/internal/protocolsync/auto_forward.go:47-232 | along a whole run main only moves along ancestry, if others move it so |
| Pointer.ResolveLocalRef | llmcaller/codex/schema.go:231-251 | resolution descends the unescaped tokens or fails |
| Pointer.UnescapeEscape | llmcaller/codex/schema.go:289-291 | the two replacement passes undo each other on every token |
| Pointer.EscapeHasNoSlash | llmcaller/codex/schema.go:289-291 | an escaped token contains no slash |
| Pointer.PointerRoundTrip | llmcaller/codex/schema.go:231-251 | the reference joined from any keys descends exactly those keys |
| Schema.AdmissionIsExact | llmcaller/codex/schema.go:96-210 | a schema is admitted exactly when its unfolding is finite and every node in it meets the local conditions |
| Schema.AdmittedUnfolds | llmcaller/codex/schema.go:96-210 | an admitted schema has a finite, locally fine unfolding |
| Schema.UnfoldingAdmitted | llmcaller/codex/schema.go:96-210 | a schema with such an unfolding is admitted, shared definitions included |
| Schema.FewerRefs | llmcaller/codex/schema.go:281-287 | following a reference leaves fewer reference strings off the path, which is why the walk ends |
| Schema.RequiredSet | llmcaller/codex/schema.go:212-229 | the required names, or an error for a list that is not of strings |
| Schema.Walk | llmcaller/codex/schema.go:96-210 | the walk reports no error exactly when the node is admitted under its path of references, and an error only for a defect of that kind at the node or at one the walk reaches |
| Schema.ObjectAdmitted | llmcaller/codex/schema.go:96-210 | an object is admitted exactly when it has no dynamic reference and no vocabulary, every declared property is among its required names, the keywords that must be lists or objects are, its reference leads to an admitted value not being unfolded already, and the value under every keyword that holds a schema is admitted |
| Schema.OthersAdmitted | llmcaller/codex/schema.go:97-103 | of all other values exactly the booleans are admitted |
| Schema.DefectsRefuse | llmcaller/codex/schema.go:96-229 | whatever has a defect of any kind, or reaches one, is not admitted |
| JsonValue.ParsingIsExact | codexsdk/protocolv2/json_value.go:223-302 | tokens parse to a value exactly when they are a proper text of it, so a repeated key is refused at every depth |
| JsonValue.PrintThenParse | codexsdk/protocolv2/json_value.go:304-363 | parsing what was printed returns the value, number tokens unchanged |
| JsonValue.ParsedIsPrintable | codexsdk/protocolv2/json_value.go:81-98 | every parsed value can be printed and parses back to itself |
| JsonValue.CanonicalUnique | codexsdk/protocolv2/json_value.go:336-358 | a text with sorted keys is the canonical text of its value |
| JsonValue.PrintsCanonically | codexsdk/protocolv2/json_value.go:304-363 | all texts of one value print identically |
| JsonValue.TreeOfSorted | codexsdk/protocolv2/json_value.go:336-358 | printed objects have ascending keys at every depth |
| JsonValue.ParseJSONValue | codexsdk/protocolv2/json_value.go:223-250 | the decoder loop accepts and consumes as specified |
| JsonValue.ParseJSONObject | codexsdk/protocolv2/json_value.go:252-283 | the member loop accepts and consumes as specified |
| JsonValue.ParseJSONArray | codexsdk/protocolv2/json_value.go:285-302 | the item loop accepts and consumes as specified |
| JsonValue.WriteJSON | codexsdk/protocolv2/json_value.go:304-363 | the writer appends the canonical text, and fails exactly on values that have none |
| StringOrder.SortStrings | codexsdk/protocolv2/json_value.go:337-341 | keys collected in any order are sorted into one list |
| StringOrder.AscendingUnique | codexsdk/protocolv2/json_value.go:337-341 | ascending lists of the same keys are equal |
| StringOrder.BelowIsLexicographic | codexsdk/protocolv2/json_value.go:337-341 | a string sorts below another exactly when it is a proper prefix of it or has the smaller character where they first differ |
| Naming.StrippedIffAlike | codexsdk/internal/protocolgen/type_plan.go:649-686 | schemas stripped of documentation are equal exactly when the schemas agree on everything else at every depth |
| Naming.DecimalInjective | codexsdk/internal/protocolgen/type_plan.go:765-781 | different numbers have different decimal suffixes |
| Naming.SuffixesDiffer | codexsdk/internal/protocolgen/type_plan.go:765-781 | a set of used names cannot hold more suffixes than its size |
| Naming.UsedNames.Claim | codexsdk/internal/protocolgen/type_plan.go:765-781 | the unbounded search ends with the preferred name or its least free suffix, and marks it used |
| Resolver.NamesAreFaithful | codexsdk/internal/protocolgen/type_plan.go:504-638 | every source is named; two share a name only with one kind and like schemas; a top-level name is reused exactly for its own kind and shape; no other name is a top-level name |
| Resolver.OnlySourcesNamed | codexsdk/internal/protocolgen/type_plan.go:504-638 | nothing but the sources is named |
| Resolver.PathsDistinct | codexsdk/internal/protocolgen/type_plan.go:754-756 | definition paths of file paths without a fragment mark are distinct |
| Resolver.DefinitionNames.SettleBase | codexsdk/internal/protocolgen/type_plan.go:551-620 | one base name is settled as specified |
| Resolver.Collect | codexsdk/internal/protocolgen/type_plan.go:520-541 | the sources collected do not depend on the order of a map |
| Resolver.NewResolver | codexsdk/internal/protocolgen/type_plan.go:504-638 | the resolver built is the specified one, and it fails exactly when a name is not a Go identifier |
| Reachability.Marker.WalkType | codexsdk/internal/protocolgen/type_plan.go:189-209 | the walk of a type ends on every graph, closes what it newly visits, and fails only for a reachable fault |
| Reachability.Marker.WalkRef | codexsdk/internal/protocolgen/type_plan.go:211-260 | a followed reference is settled: marked and walked, redirected to a root of the same shape, or not the generator's |
| Reachability.Meets | codexsdk/internal/protocolgen/type_plan.go:262-341 | a node's reference, properties in name order, items, additional properties and variants are met in this order, optional null-only properties skipped |
| Reachability.NodeMeets | codexsdk/internal/protocolgen/type_plan.go:262-341 | a node meets exactly its reference, the references and the one nested schema of its properties, its items, its additional properties where it has no properties, and each of its variants |
| Reachability.ReferencesResolve | codexsdk/internal/protocolgen/type_plan.go:211-235 | a reference to a document leads to its last type, and one to an escaped definition name to that definition unless both are envelopes, or is missing if the type does not define it |
| Reachability.IndexOfLast | codexsdk/internal/protocolgen/type_plan.go:160-188 | a document stands for the last type that has it, and for none exactly when no type has it |
| Reachability.NamedExactly | codexsdk/internal/protocolgen/type_plan.go:160-188 | the types considered for a name are all those that have it, in order |
| Reachability.Marker.WalkSchema | codexsdk/internal/protocolgen/type_plan.go:262-341 | the walk of a schema node ends, closes what it newly visits, and fails only for a reachable fault |
| Reachability.MarkReachable | codexsdk/internal/protocolgen/type_plan.go:160-354 | on success the roots are visited, everything visited is closed and reachable from a root, and every marked definition was walked; an error means a reachable fault or no roots |
| Reachability.VisitedExactly | codexsdk/internal/protocolgen/type_plan.go:160-354 | where no definition is shaped like a top-level type, exactly what the roots reach is visited |
| Step.CopyItems | llmkit/llmstep/step.go:273-302 | a copy holds the same values, nil stays nil, and it shares no array |
| Step.StampIterations | llmkit/llmstep/step.go:258-262 | every item is stamped in place and nothing else changes |
| Step.Try | llmkit/llmstep/step.go:155-206 | one pass looks at the context, renders with its own repair, calls, is judged as the callback returned it and projects a repair, in this order, each only after the one before went well; what happened decides what it records and how it ends, and it keeps only arrays out of the callbacks' reach |
| Step.Snapshot | llmkit/llmstep/step.go:248-256 | the attempts handed out hold the same values in new arrays |
| Step.Run | llmkit/llmstep/step.go:132-210 | attempts form a chain, numbered from one, and what the context and the callbacks did is the chain's passes one after another; what the attempts record is what was recorded at the time, in arrays no callback ever held; the code after the loop is unreachable |
| Step.LastPassDecides | llmkit/llmstep/step.go:155-201 | a run is accepted exactly when its last answer was accepted without error under a live context, exhausted exactly when such an answer was rejected by the last attempt allowed, and failed exactly in the stage that failed or whose end found the context done |
| Step.EarlierPassesRetry | llmkit/llmstep/step.go:184-206 | every attempt before the last was rejected without error under a live context with attempts left, its findings went to the projector, and the next one renders with what came back, stamped |
| Step.PrefixEnds | llmkit/llmstep/step.go:184-206 | a deciding attempt after rejected ones completes the chain |
| Events.ParseEvents | codexsdk/internal/codexexec/executor.go:332-442 | completed exactly for a conversation read to its end; otherwise the diagnostic is that of the last unconditional failure, else of the first failure, else of the last error notice |
| Events.CompletedIffConversation | codexsdk/internal/codexexec/executor.go:358-441 | the scan finds no fault exactly when there is one matching thread start, at most one turn start and one turn completion after it in that order, error notices only in between, and nothing failed or unreadable |
| Goal.ReadyExactly | codexsdk/internal/codexexec/goal.go:144-155 | the runner reports completion exactly when the trace gives no offence, turns alternate and all completed, the own goal was last complete, and no verification runs |
| Goal.FailureFree | codexsdk/internal/codexexec/goal.go:219-284 | the observer has no failure exactly when every input is proper where it stands and turns alternate with matching ids |
| Goal.FirstFailureStays | codexsdk/internal/codexexec/goal.go:223-225 | the first failure is never overwritten |
| Goal.OneVerification | codexsdk/internal/codexexec/goal.go:334-354 | at most one admitted verification is running |
| Goal.AdmittedForActiveTurn | codexsdk/internal/codexexec/goal.go:334-354 | a verification is admitted only alone, without failure, for the turn that is running |
| Goal.AdmittedExactly | codexsdk/internal/codexexec/goal.go:334-354 | a request is admitted exactly when nothing has failed, it is for the bound thread and the running turn, its caller still waits and no verification runs |
| Goal.FirstOffenceTells | codexsdk/internal/codexexec/goal.go:219-284 | the first input that gives offence decides which failure is reported, whatever follows |
| Goal.GoalObservation.Observe | codexsdk/internal/codexexec/goal.go:219-284 | one notification changes the observation as specified |
| Goal.GoalObservation.Admit | codexsdk/internal/codexexec/goal.go:334-347 | one pass of the admission loop admits, rejects or waits |
| Digest.SameStreamIffSameTree | codexsdk/internal/protocolsync/candidate.go:40-85 | two walks hash one byte stream exactly when the trees have the same directories and the same files with the same sums |
| Digest.FrameInjective | codexsdk/internal/protocolsync/candidate.go:80-84 | the length-prefixed stream tells the entries and their order |
| Digest.BigEndianIsNumber | codexsdk/internal/protocolsync/candidate.go:80-84 | the eight bytes before an entry stand for its length |
| Digest.RequiredByName | codexsdk/internal/protocolsync/candidate.go:27-39 | a candidate needs the directories schema, stable-schema and reports and the regular files common.rs and common.rs.source_sha |
| Digest.EncodeInjective | codexsdk/internal/protocolsync/candidate.go:53-73 | an entry tells kind, path and file sum apart when paths hold no NUL |
| Digest.CandidateStream | codexsdk/internal/protocolsync/candidate.go:27-84 | the stream written is that of the tree, and there is none exactly when a required entry is missing or a node is neither directory nor regular file |

## Left out

- Order.TurnFramesInOrder: without its condition the claim is false of the code. A turn id bound
  to two runs is excluded outright: what then happens depends on which of them attaches first.
- Gapless.TurnFramesWithoutGaps: the same, and a stop that skips a frame of the run.
- Exactness.SnapshotInvertsExactly: assumes room for the offered frame's lease when the snapshot
  is taken, as does `Exactness.SnapshotLosesExactly`; a full budget refuses the live frame.
- Fence.TerminalFence: the completion replayed for an armed thread at registration is excepted,
  because the code completes it before its callback.
- LiveClient.LiveClient.FinishAttachingExactStream: relies on the registry invariant, which
  `Registration.AlwaysAgrees` proves of every reachable state, as do `TakeSnapshot`, `Targets`
  and `Route`.
- Each release of a lease after its owner let go is an action of its own and may come at any
  later time, so the model allows more interleavings than the code has.
- Leases.AlwaysConserved: the leases of decode-failure diagnostics are one collection, taken,
  shared and let go of one by one; which turn they wait for and which run records them, and
  `Leases.SnapshotConserves` handing them over, are not told apart.
- The content of decode-failure diagnostics, raw-only frames, and `pendingGlobal`, which the
  code never sets.
- Frames read after the client is closed, which the code ignores.
- Cloning and decoding of notifications, taken as total; the byte charge of a value is any
  nonnegative number; panics inside callbacks count as callback errors.
- Liveness: that the dispatcher, a waiting caller or the close publisher makes progress;
  `Settling.RestMeansSettled` and `Publication.PublishedFinishesAll` say what holds once they have.
- Terminal admission and publication in attachment read the run's state in one action.
- Process launch, signals, reaping, stdio, deadlines and grace timers of the client.
- AutoForward.AutoForward: the policy hook may return any word, including "integrated"; the
  result then carries that word, so the claim distinguishes it.
- Git, the forge and the checks behind the repository operations; error texts and paths.
- Schema.Walk: visits subschemas in no particular order, so which of several defects it
  reaches is reported is not fixed; compilation of the schema by the library is left out.
- JSON tokenising and string quoting; strings are sequences of Unicode scalar values.
- Resolver.NewResolver: every document is planned once and file paths contain no fragment
  mark; encoding a schema is taken as injective and never fails; classification of a schema and
  the normalisation of explicit plans are inputs.
- Reachability.MarkReachable: schema nodes are told apart by their paths, as the code does; how a
  property is planned, the comparison of shapes and the manifest's roots are inputs;
  independence of the order of roots is not claimed, because redirection reads what is being
  marked.
- Step.Run: slices are whole arrays, without capacity or shared backing; generic outputs keep
  ordinary value semantics; the prompt text is not modelled.
- Events.ParseEvents: recognising session ids and classifying messages are inputs.
- Goal.ReadyExactly: the checks after closing the client and the read-only probe.
- Digest.SameStreamIffSameTree: the two hash functions are inputs; file names are byte strings.
- Digest.CandidateStream: the check of the root directory and failing reads.
