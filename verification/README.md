# A verified model of the BPMN engine

This project models the token engine of bpmn-ai, the graph passes that prepare the processes it
runs, and the services around it (job queue, response cache, vector index), and proves what they
guarantee and where they do not. Everything is checked by `dafny verify dfyconfig.toml`.

## What is modelled

**Process graph and routing** (`Bpmn`, `Routing`, `Strings`, `Prefixing`, `ErrorCatching`): elements,
sequence flows, `FlowRouter.Route` with its filters, and the search for an error boundary.

**The run loop** (`Engine`, `EngineSafety`, `EngineTheorems`, `EngineErrors`, `EngineProgress`,
`EngineLimits`, `EngineFeeding`, `EngineShutdown`, `EngineReachable`, `EngineTwoTokens`,
`EngineCompletion`, `EngineCauses`, `EngineKinds`, `EngineTermination`, `EngineConfluence`,
`EngineConvergence`, `EngineHistory`, `EngineTokens`, `EngineArrivals`, `EngineJoin`, `EngineWaits`): one
coordinator, any positive number of workers, two channels of 1024 places, the `pending` counter, the loop guard, the instance
state, `errCh`, the record store and the deadline. Every atomic step of the goroutines is an event;
`Engine.Enabled` says when it can happen and `Engine.Apply` what it does, so that a path of events is
one schedule and the theorems range over all of them. What an element returns is an arbitrary choice
within `Engine.Plausible`; start, end, error-end, terminate, sequence-flow, sub-process, call-activity
and parallel gateway elements return what their executors return. When the clock or a caller cancels the context,
and whether the loop guard finds the time used up, are events too.

**The parallel gateway** (`ParallelJoin`): its decision on stored records, and the abstract machine of
one join under any interleaving of arrivals and executions. `EngineJoin` proves that every run of the
engine projects to a legal run of that machine.

**Graph passes** (`Wiring`, `Reification`, `SubProcesses`, `Documents`, `CallActivities`): building the
outgoing and incoming lists, making sequence flows elements with `_synth` flows, flattening
sub-processes under a prefix with exit routing, and inlining called processes at run time. The passes
are methods over the maps with arbitrary iteration order; `Embedding`, `Duplication`,
`DocumentTheorems`, `ParsedFiles`, `ParsedElements` and `ClosingEnds` prove what they preserve, `InnerTokens` and `InnerRuns` what that
means for the tokens of a run inside a sub-process, and `NestedCalls` what becomes of a sub-process in a
called process. A file is a list of decoded flow
elements; `Documents.WellFormed` asks for ids that are unique in the file, hold no dot and do not end
in `_synth` or `_sp_entry`.

**Instance state and variables** (`Lifecycle`, `Sanitize`, `FailSafe`), **job queue** (`Backoff`,
`JobQueue`, `JobTheorems`, with one queue worker), **response cache** (`CacheKey`, `ResponseCache`) and
**vector index** (`Similarity`, `VectorStore`, over real numbers).

## What the proofs show about the code

- `pending` is exact and the loop finalizes exactly when every issued item has been handled once. But a
  run can get stuck for good while it sends its initial items, because that send does not look at the
  context: if and only if these are more than `1024 + WorkerCount` (after a timeout or a cancel, every
  worker leaves with one item), and before the deadline if and only if they are more than
  `2048 + WorkerCount`. `Continue` can begin such runs.
- A shutdown can return if and only if no more than 1024 results are waiting or still to be delivered.
  After the loop guard trips, it can return before the deadline if and only if no more than 1024 items
  are in flight. Both failures can be reached from `Continue`, for every loop limit.
- An uncaught error puts the instance in `ERROR`, but the run reports it only on the schedules that
  read `errCh` before the last result. When its own result is the last one pending, none does; when
  others are pending, some schedules do and some do not. A run that finalizes has lost an error if and
  only if it leaves the instance in `ERROR`.
- A join never routes before as many records exist as it has incoming flows, and stays open from then
  on. Firing exactly once, as section 13.3.1 of BPMN 2.0 asks of a join, holds under every
  interleaving only when a single arrival is needed and made. A run survives at most one result that asks to
  wait or to show a form, of all its elements together, so one that finalizes routes for all arrivals at
  all its joins but at most one, and for all when it completes.
- The instance is `COMPLETED` when the first end event is handled, not when all threads have finished
  as `wiki/Architecture.md:52` says; the model follows the code. Nothing is then left in flight if and
  only if that result was the last thing in flight.
- The exit string of a sub-process inside a called process is not rewritten when the call is inlined.
  In every well-formed file the token stops there, unless the call chose that very end to return from,
  so nothing is lost if and only if no sequence flow leaves the sub-process.
- Flattening keeps where elements lead but not how often: a flow element inside a sub-process hands on
  every token twice, again at every flow on the way in. A converging join inside waits for three
  arrivals per incoming flow, so it opens if and only if twice the tokens handled by its incoming flows
  reach that number. Fed directly by the start event, it makes the run fail by its second wait; behind a
  further fork enough tokens come. A join without a direction never waits if it has outgoing flows.
- A retry is scheduled before now, whatever the jitter, if and only if `BaseDelay * 2^n` modulo `2^64`
  is `2^63` or more: for the default delays, first at the 34th retry.
- The cache answers like the gateway behind it if and only if that gateway ignores every setting of
  the request; with NULs in the texts two prompts can share a key.
- Two jobs of one instance enqueued without ids overwrite each other.

## Model

| member | source | states |
|---|---|---|
| Routing.RouteResult | internal/engine/router.go:26-70 | Routing returns exactly the steps of the selected outgoing flows, nothing for other actions or unknown elements |
| Routing.SuccessorsAre | internal/engine/router.go:39-67 | An element is a successor if and only if some selected flow leads to it |
| ErrorCatching.FindErrorCatch | internal/engine/engine.go:1019-1051 | The catcher found matches code and scope, and no earlier scope (enclosing sub-process, thrower, global) has one; none is found only if there is none |
| ErrorCatching.ParentOfInner | internal/engine/engine.go:1055-1065 | The parent lookup undoes the prefix that flattening gives inner ids |
| ErrorCatching.ParentExactly | internal/engine/engine.go:1055-1065 | An id belongs to a sub-process if and only if it begins with the id of one, without dots, and a dot |
| ErrorCatching.CatcherExactly | internal/engine/engine.go:1019-1051 | By kind, attachment and error code: the catcher is attached to the sub-process around the thrower, or if that has none to the thrower, or if that has none either to nothing; there is none only if all three have none |
| Lifecycle.Instance.Transition | internal/process/state.go:107-121 | A transition succeeds exactly when the table allows it, and otherwise changes nothing |
| Lifecycle.Instance.TryComplete | internal/process/state.go:124-132 | Only the first call can complete the instance, and only where the table allows it |
| Lifecycle.Instance.NextThreadID | internal/process/state.go:135-137 | Thread ids count up from one |
| Lifecycle.Instance.SetVariable | internal/process/state.go:146-149 | One variable set, the others kept |
| Lifecycle.TerminalAbsorbs | internal/process/state.go:31-53 | No sequence of calls leaves a terminal state |
| Lifecycle.CompletesAtMostOnce | internal/process/state.go:124-132 | Over any calls at most one TryComplete reports success |
| Lifecycle.FirstCallDecides | internal/process/state.go:124-132 | Whatever is called after the first TryComplete, what that one achieved remains; it achieves completion only from IN_PROGRESS |
| Lifecycle.WhoCanEnter | internal/process/state.go:31-53 | The transition table read by targets |
| Sanitize.SanitizeVariables | internal/process/state.go:201-233 | For every map order the result is clean and an image of the input; a clean input comes back unchanged, also when the size or depth limit cut the first pass |
| Sanitize.SanitizeList | internal/process/state.go:235-253 | The same for lists |
| Sanitize.EntriesFit | internal/process/state.go:201-233 | Any two entries of a sanitised map together stay within 1 MiB of names and texts |
| Sanitize.NamesAre | internal/process/state.go:201-233 | Which names are kept: letters, digits and underscores, not beginning with a digit |
| Lifecycle.Reload | internal/engine/engine.go:162-180 | Variables that were sanitised once survive being stored and reloaded unchanged |
| FailSafe.FailSafeManager.Check | internal/engine/failsafe.go:28-69 | The verdict and the counts after a check, with the empty id and the timeout left uncounted |
| FailSafe.CountsAreMultiplicities | internal/engine/failsafe.go:51-58 | After any sequence of checks each count is how often the element was checked |
| FailSafe.TotalIsSum | internal/engine/failsafe.go:56-58 | totalExecutions is always the sum of the element counts |
| FailSafe.TripsExactlyAboveLimit | internal/engine/failsafe.go:60-66 | The guard trips on a sequence of elements if and only if some element occurs more often than the limit |
| FailSafe.VerdictCounts | internal/engine/failsafe.go:51-69 | A check reports the limit exactly when the element has now been seen more often than it allows, and how often |
| ParallelJoin.AreAllIncomingComplete | internal/element/gateways/parallel.go:104-123 | The loop over the store decides whether as many records arrived as there are incoming flows |
| ParallelJoin.Execute | internal/element/gateways/parallel.go:35-90 | The gateway waits if and only if it is converging, or without direction has at most one outgoing and several incoming flows, and fewer records than incoming flows have arrived; otherwise it routes; an unknown gateway is an error |
| ParallelJoin.SoundAlways | internal/element/gateways/parallel.go:104-123 | After any interleaving nothing has routed before the needed number of records existed, and every executed arrival from that number on has routed |
| ParallelJoin.StaysOpen | internal/element/gateways/parallel.go:104-123 | Once open the gate never closes: everything executed from then on routes |
| ParallelJoin.Firings | internal/element/gateways/parallel.go:35-123 | With A arrivals and N needed: no firing if A < N, otherwise between A-N+1 and A |
| ParallelJoin.EveryCountOccurs | internal/element/gateways/parallel.go:35-123 | In the abstract machine of one join, every number of firings within those bounds happens under some interleaving (a run of the engine that finalizes shows only the two largest) |
| ParallelJoin.FiresExactlyOnce | internal/element/gateways/parallel.go:35-123 | "Fires exactly once" holds under all interleavings if and only if one arrival is made and at most one needed |
| EngineJoin.RunRefinesJoin | internal/engine/engine.go:531-554 | Every run of the engine projects to a legal run of the join machine, ends in its state and routes as often as it fires |
| EngineJoin.JoinsInRuns | internal/element/gateways/parallel.go:35-123 | In any schedule of any run, with records of earlier runs in the store: no firing before enough records, at most one per arrival; a finalized run fires for all its arrivals but at most one, a completed one for all |
| EngineJoin.JoinsTogether | internal/element/gateways/parallel.go:35-123 | Of any two joins of a finalized run, together, at most one arrival did not route |
| EngineWaits.AtMostOneWait | internal/engine/engine.go:604-607 | A finalized run has executed, over all elements, at most one to a wait or a form, a completed run none |
| EngineSafety.StepInv | internal/engine/engine.go:337-441 | Every step of coordinator, workers and clock keeps the accounting of items, the order of shutdown and the state discipline |
| EngineTheorems.PendingIsExact | internal/engine/engine.go:347-418 | pending counts exactly the items queued, held, delivered or still to be sent, and those workers dropped after the deadline; the loop goes on while there is one; a finalized run handled everything it issued |
| EngineTheorems.HandledAtMostOnce | internal/engine/engine.go:376-402 | No flow record is handled twice |
| EngineTheorems.ClosedChannelsAreQuiet | internal/engine/engine.go:362-418 | No enabled send meets a closed channel: the result channel is closed only when every worker has left. The coordinator's half, its own sends and receives, holds by how closing is modelled |
| EngineTheorems.StateDiscipline | internal/engine/engine.go:557-758 | At most two transitions succeed; the run ends COMPLETED if and only if the first was an end event completing it |
| EngineTheorems.StateStays | internal/process/state.go:31-39 | In a run, terminal states stay and a run that has waited cannot complete |
| EngineCauses.ReceivedStatus | internal/engine/engine.go:557-758 | The state after any result: exactly which results fail, terminate, suspend or complete the instance |
| EngineCauses.OtherStatus | internal/engine/engine.go:362-375 | No other step changes the state, but the end of a shutdown at the timeout |
| EngineCauses.ReceivedEnds | internal/engine/engine.go:384-412 | Exactly which results end the loop, and how: the guard, an error, an abort |
| EngineCauses.ReceivedProcess | internal/engine/engine.go:760-828 | Only a call with a process that can be loaded and has a start changes the process definition |
| EngineCauses.ReceivedCounts | internal/engine/failsafe.go:28-69 | A result received counts once for its element, and not at all when the time is up |
| EngineCauses.ExpiryDecides | internal/engine/engine.go:362-375 | A loop that sees its context done returns saying why; it has failed a live instance after the timeout and left it as it was after a cancel |
| EngineKinds.UnknownFails | internal/engine/engine.go:657-675 | A record of something that is no element of the process fails a live run, which reports it |
| EngineKinds.TerminateEnds | internal/engine/engine.go:737-758 | A terminate event ends a live run, terminated |
| EngineKinds.EndCompletes | internal/engine/engine.go:677-691 | An end event without exits completes a run in progress and enqueues nothing |
| EngineKinds.ErrorEndThrows | internal/engine/engine.go:693-735 | An error end fails a live run that does not catch it, and otherwise brings one token to the catcher |
| EngineKinds.GatewayWaits | internal/engine/engine.go:604-607 | A parallel gateway with too few records makes the run wait; otherwise it brings a token to each of its successors |
| EngineKinds.CallEnters | internal/engine/engine.go:769-849 | A call activity puts the called process in and brings one token to its start |
| EngineKinds.CallPasses | internal/element/activities/call_activity.go:38-43 | Without a called process it routes along its flows |
| EngineKinds.SubProcessResult | internal/element/activities/subprocess.go:34-43 | In a parsed file, what a sub-process executes to leads to its start event alone |
| EngineKinds.ClosingEndResult | internal/element/events/start_end.go:88-105 | What its closing end event executes to leads on to the sequence flows that leave it, or completes if there are none |
| EngineCompletion.ReceiveCompletes | internal/engine/engine.go:557-692 | Handling a result completes the instance if and only if it comes from an end event with nowhere to go on to, in a run in progress and within its limits |
| EngineCompletion.CompletedWithTheRest | internal/process/state.go:124-132 | In any run the step that completes the instance leaves nothing in flight or to be enqueued if and only if its result was the last thing in flight, and ends the loop if and only if nothing else was pending |
| EngineCompletion.CompletedTooEarly | internal/engine/engine.go:221-243 | A run that Continue begins and that is COMPLETED while another token is still to be executed |
| EngineTheorems.ErrorChannelNeverBlocks | internal/engine/engine.go:345-407 | At most one error is ever in errCh, so neither its send nor the receive at line 404 blocks |
| EngineErrors.FailedExactlyWhenUnread | internal/engine/engine.go:361-421 | At every point of every run that has not been cut short, and so when it finalizes: an error is unread if and only if the instance is in ERROR |
| EngineErrors.WaitingErrorFate | internal/engine/engine.go:419-421 | A waiting error is read on exactly the schedules that take the errCh branch, which end by reporting it; none does once the loop is closing |
| EngineErrors.UncaughtErrorFate | internal/engine/engine.go:693-720 | An uncaught error with nothing else pending is lost on every schedule; otherwise the errCh branch is enabled at once, and the error is lost on exactly the schedules that never take it |
| EngineErrors.LostWithWorkPending | internal/engine/engine.go:361-421 | A run that Continue begins and that loses the error although another item was pending when it was raised |
| EngineProgress.StuckExactlyWhenBlocked | internal/engine/engine.go:343-358 | No step but the passing of time is possible if and only if the coordinator and all workers are blocked on full channels |
| EngineFeeding.NoDeadlockWithinBound | internal/engine/engine.go:343-358 | A running loop can always step before the deadline with at most 2048 + WorkerCount items pending, and after it with at most 1024 + WorkerCount |
| EngineFeeding.FeedingDeadlockExactly | internal/engine/engine.go:356-358 | A run can get stuck for good while sending its initial items if and only if these are more than 1024 + WorkerCount, and before the deadline if and only if more than 2048 + WorkerCount |
| EngineFeeding.StuckFeedingBound | internal/engine/engine.go:429-441 | Wherever a run is stuck while sending, that many items were issued and all are still pending |
| EngineFeeding.ExpiredDeadlock | internal/engine/engine.go:432-436 | The run that gets stuck after the deadline: every worker leaves with one item and the work channel stays full |
| EngineLimits.DeadlockIsReachable | internal/engine/engine.go:356-358 | Any run that begins with 2049 + WorkerCount items or more can reach a state with no further step, not even after the deadline |
| EngineReachable.ContinueCanDeadlock | internal/engine/engine.go:221-243 | Continue can begin such a run |
| EngineReachable.ContinueCanStrand | internal/engine/engine.go:221-243 | Continue can begin a run of 1025 + WorkerCount items that gets stuck for good after the deadline |
| EngineLimits.ShutdownHangs | internal/engine/engine.go:386-392 | After the loop guard trips, with more than 1024 items in flight, waiting for the workers never ends before the deadline |
| EngineLimits.ShutdownReturns | internal/engine/engine.go:386-392 | With at most 1024 it ends, whatever is done first |
| EngineLimits.ShutdownExactly | internal/engine/engine.go:386-392 | Shutting down before the deadline is possible if and only if at most 1024 items are in flight |
| EngineShutdown.ReturnsExactly | internal/engine/engine.go:362-375 | Any shutdown, the one at the deadline included and whether the deadline has passed or not, can return if and only if at most 1024 results are waiting or still to be delivered |
| EngineShutdown.HeavyHangs | internal/engine/engine.go:429-441 | With more of them, no schedule ever returns |
| EngineShutdown.DeadlineDecides | internal/engine/engine.go:429-441 | After the deadline every schedule of a shutdown is bounded and never stuck before it returns, or none returns, by the same number |
| EngineReachable.ContinueCanHang | internal/engine/engine.go:386-392 | For every loop limit a run that Continue begins with 1026 items can trip the guard with more than 1024 items in flight |
| EngineReachable.ContinueCanHangForever | internal/engine/engine.go:362-375 | For every loop limit a run that Continue begins can reach a shutdown at the deadline that never returns |
| EngineTermination.EveryRunEnds | internal/engine/failsafe.go:51-69 | In any schedule at most Elements * MaxLoops + 1 results are handled, and the number of steps is bounded |
| EngineConfluence.Confluence | internal/engine/engine.go:337-441 | If results depend on the element alone and one schedule finalizes within the limit, every schedule stays within it, and all that finalize handle the same multiset of elements and end in the same state |
| EngineConvergence.Convergence | internal/engine/engine.go:337-441 | Then every such schedule is finite, with a bound from the process and the start, and one that cannot go on has returned finalized with the same elements handled, unless it is blocked on full channels |
| EngineHistory.HistoryIsLegal | internal/engine/engine.go:119-128 | Across runs, every record starts a process or continues an earlier one along a routed edge, an error catch, a call or a boundary attachment |
| EngineHistory.EnqueuedAtMostOnce | internal/engine/engine.go:221-243 | No record is enqueued twice, within a run or by a later one |
| EngineTokens.RecordsAccounted | internal/engine/engine.go:531-849 | In every run and under every schedule, the records of any element are those at the start, plus one for every routed flow to it, every error caught at it, every call that starts at it, and every wait it is attached to, among the results handled |
| EngineTokens.HandledAccounted | internal/engine/engine.go:531-849 | In a finalized run the handled results of any element follow the same law, attachments aside |
| EngineTokens.CaughtOnce | internal/engine/engine.go:722-735 | A thrown error brings one token to a right catcher and none elsewhere |
| EngineTokens.CaughtErrorGoesOn | internal/engine/engine.go:693-735 | Receiving a throw that something catches, within the limits, leaves exactly one hop, to a right catcher, and the state as it was |
| EngineTokens.AttachedOnce | internal/engine/engine.go:960-1015 | A wait records each attached message catch once, each attached timer at most once, and nothing else |
| EngineArrivals.ArrivalsPerFeeder | internal/engine/engine.go:531-554 | In every run without calls, for an element that `times` tokens go to for each result of its feeders: its records are those at the start and `times` for every handled result of a feeder |
| EngineArrivals.TokensConserved | internal/engine/engine.go:531-554 | In a finalized run the handled results of the element obey the same law |
| EngineHistory.WalksAreReal | internal/engine/engine.go:541-553 | In any legal history following PreviousID goes to ever earlier records and ends at a start record, and every hop on the way is one the process offered |
| CallActivities.Inline | internal/engine/engine.go:771-828 | The copied elements and flows, the routed end event and the entry flow, for every map order |
| CallActivities.CopyKeeps | internal/engine/engine.go:780-797 | Each copied element has its flow lists under the prefix, entry by entry, and all other fields as they were; only the chosen end has more flows |
| CallActivities.GatesInside | internal/element/gateways/parallel.go:35-123 | A parallel gateway inside the call decides as it does in the called process on as many records |
| CallActivities.CallersKeepSuccessors | internal/engine/engine.go:785-828 | A call leaves the successors of all elements the process had before unchanged |
| CallActivities.CalleeIsEmbedded | internal/engine/engine.go:780-803 | Inside the call every element but the chosen end leads exactly to the copies of where it led |
| CallActivities.EndReturnsAlongExits | internal/engine/engine.go:804-822 | The chosen end event leads exactly where the call activity leads along its flows, entries of sub-processes aside |
| CallActivities.EndReturnsToCaller | internal/engine/engine.go:804-822 | The chosen end event leads exactly where the call activity leads, if it has no such entries |
| CallActivities.NestedExitIsLost | internal/engine/engine.go:785-796 | An end event with an exit string of its own leads nowhere after inlining if and only if none of its flows is in that string under its new name |
| NestedCalls.NestedExitStops | internal/engine/engine.go:785-796 | For every parse of every well-formed called file: a closing end event that the call did not choose led on to the sequence flows leaving its sub-process, and its copy leads nowhere; nothing is lost if and only if there are none |
| NestedCalls.SmallCallStops | internal/element/events/start_end.go:88-99 | A file and a caller, such that every parse of the file loses the token |
| Wiring.WireFlows | pkg/bpmn/parser.go:664-696 | For every map order each element's lists grow by exactly the flows with that source and target, once each; the second pass adds nothing |
| Wiring.ListsArePermutations | pkg/bpmn/parser.go:664-674 | From empty lists, the lists are permutations of the flows with that source and target |
| Wiring.UnlinkedMeansNone | pkg/bpmn/parser.go:676-694 | An element without lists after the first pass has no flow in the table, so its child elements confirm none |
| Reification.SynthesizeFlows | pkg/bpmn/parser.go:219-233 | The `_synth` pass, for every map order |
| Reification.FlowElementRoutes | pkg/bpmn/parser.go:219-233 | A sequence-flow element has exactly one successor, the target of its flow |
| Reification.TwoHopSimulation | pkg/bpmn/parser.go:192-233 | Routing from a node through its flow elements reaches exactly the multiset of targets of its selected flows |
| SubProcesses.Flatten | pkg/bpmn/parser.go:376-427 | The flattened process, and which end event can be chosen, for every map order |
| SubProcesses.RouteExits | pkg/bpmn/parser.go:235-257 | Each inner end event gets the exits of its sub-process and the string of them; nothing else changes |
| Documents.ParseSubProcess | pkg/bpmn/parser.go:278-372 | The inner elements loaded, wired and reified |
| Documents.Parse | pkg/bpmn/parser.go:132-257 | All passes in order; a process of more than 500 elements is refused |
| Embedding.FlowGraphEmbeds | internal/engine/router.go:39-67 | A graph copied under a prefix leads exactly to the copies |
| Embedding.AdjacentAfterSynth | pkg/bpmn/parser.go:217-233 | After wiring and reification an element's list names exactly the flows that start at it |
| Embedding.EndLeadsOut | internal/element/events/start_end.go:88-99 | Joining the exits into a string and splitting it again leads the end event exactly out of the sub-process |
| ParsedFiles.SubProcessInside | pkg/bpmn/parser.go:376-427 | For every well-formed file, inside a flattened sub-process every element but the closing end leads exactly to the copies of where it led |
| ParsedFiles.SubProcessWalks | pkg/bpmn/parser.go:376-427 | Reachability inside is the same before and after flattening |
| ParsedFiles.SubProcessEntry | internal/element/activities/subprocess.go:34-43 | A token at a sub-process goes to its start event alone |
| ParsedFiles.SubProcessExit | pkg/bpmn/parser.go:235-257 | A token at the closing end event goes on to exactly the sequence flows that leave the sub-process in the file |
| ParsedFiles.NodesReachTargets | pkg/bpmn/parser.go:192-233 | For every well-formed file whose sequence flows connect nodes, with or without sub-processes, a node reaches exactly the targets of its selected sequence flows, each flow once |
| ParsedElements.ElementsAreDeclared | pkg/bpmn/parser.go:158-212 | For every well-formed file the process has exactly the elements of the file and of its readable sub-processes, nested sub-processes aside |
| ParsedElements.OuterNode | pkg/bpmn/parser.go:158-178 | A node keeps the kind, direction, attachment, error code and called process the file gives it |
| ParsedElements.InnerNode | pkg/bpmn/parser.go:303-332 | So does a node of a sub-process, under its prefix |
| ParsedElements.OuterFlow | pkg/bpmn/parser.go:188-212 | A sequence flow is in the table with its ends and is an element to visit |
| ParsedElements.InnerFlowKept | pkg/bpmn/parser.go:333-350 | So is one of a sub-process, all under its prefix |
| ParsedElements.OuterSub | pkg/bpmn/parser.go:378-388 | A sub-process is an element of its kind, readable or not |
| ParsedElements.StartsAreFirst | pkg/bpmn/parser.go:164-166 | The process starts at the first start event of the file, and a sub-process is entered at its own first |
| ParsedElements.OuterListSizes | pkg/bpmn/parser.go:664-674 | A top-level node lists each sequence flow of the file that starts or ends at it once |
| ParsedElements.OuterGateDecision | internal/element/gateways/parallel.go:35-123 | In every well-formed file a top-level parallel gateway with m flows aimed at it and n starting at it waits if and only if it is converging, or without direction has n <= 1 and m > 1, and fewer than m records have arrived |
| ParsedElements.InnerGateByFile | internal/element/gateways/parallel.go:35-123 | One inside a sub-process, by the flows of the file: if and only if it is converging, or without direction has n = 0, and fewer than 3 * m records have arrived |
| ClosingEnds.ClosingEndLeadsOn | pkg/bpmn/parser.go:235-257 | A closing end event that has flows of its own leads to the copies of where it led inside and to the sequence flows leaving the sub-process |
| ParsedFiles.InnerListSizes | pkg/bpmn/parser.go:353-369 | In every well-formed file flattening triples the incoming list of an inner node, with one more at the start event, and doubles its outgoing list |
| ParsedFiles.InnerGateDecision | internal/element/gateways/parallel.go:35-123 | In every well-formed file a parallel gateway inside a sub-process waits if and only if it is converging, or has no direction and no outgoing flow, and fewer than three records per incoming flow have arrived |
| InnerTokens.FlowHandsOnTwice | pkg/bpmn/parser.go:353-369 | In every well-formed file, for a sub-process whose sequence flows connect nodes, a flow element inside routes to its target exactly twice |
| InnerTokens.NodeFed | pkg/bpmn/parser.go:219-233 | There an inner node other than the start event is enqueued twice by each result of a flow that aims at it, and by nothing else |
| InnerTokens.FlowFed | pkg/bpmn/parser.go:664-674 | There an inner flow out of a start event or diverging gateway is enqueued once by each result there, and by nothing else |
| InnerRuns.NodesDouble | internal/engine/engine.go:531-554 | In a finalized run an inner node handles two tokens for each one its incoming flows handled |
| InnerRuns.FlowsFollow | internal/engine/engine.go:531-554 | And a flow out of an inner start event or diverging gateway one for each one handled there |
| InnerRuns.GateByTokens | internal/element/gateways/parallel.go:104-123 | At any point of any run an inner gateway decides to wait if and only if it synchronises and twice the tokens its incoming flows have handled, with what was there before, is below three per incoming flow |
| InnerRuns.FirstLevelJoinsFail | internal/engine/engine.go:604-607 | A converging join fed directly by forks that handle one token each lets no run finalize that has used one of them |
| InnerRuns.DeeperJoinsOpen | internal/element/gateways/parallel.go:104-123 | One fed by forks behind further flows is open at the end of a finalized run that reached them |
| Duplication.TokensDouble | pkg/bpmn/parser.go:353-369 | A flow element inside a sub-process routes to its target exactly twice |
| Duplication.ListSizes | pkg/bpmn/parser.go:664-674 | Flattening triples the incoming list of an inner node, with one more at the start event, and doubles its outgoing list |
| Backoff.NextRetryAt | internal/queue/retry.go:32-47 | The retry time in wrapping 64-bit arithmetic |
| Backoff.DelayBounds | internal/queue/retry.go:32-47 | While base * 2^n fits, every jitter keeps the delay between the nominal one and 5/4 of it if and only if the largest jitter fits as well |
| Backoff.DelaysExactly | internal/queue/retry.go:32-47 | Which delays a retry can draw: the nominal one, and with jitter every value up to a quarter more |
| Backoff.DelaysGrow | internal/queue/retry.go:32-47 | Uncapped delays grow strictly, even from the largest jitter to the smallest |
| Backoff.TotalWaitBound | internal/queue/retry.go:58-64 | While base * 2^M and every jitter fit, M retries wait at most 5/4 * base * (2^(M+1) - 2) in total |
| Backoff.NegativeExactly | internal/queue/retry.go:32-47 | For every policy and retry count: all draws give a time before now if and only if the product modulo 2^64 is 2^63 or more; some draw does if and only if that holds or the largest jitter overflows |
| Backoff.DefaultsFailFirstAt34 | internal/queue/retry.go:19-35 | With the default delays, up to the 34th retry, exactly the 34th is scheduled before now |
| JobQueue.WorkerPool.Enqueue | internal/queue/worker.go:205-219 | The defaults filled in, and the job stored under its id |
| JobQueue.WorkerPool.FailJob | internal/queue/worker.go:157-190 | A failed job is retried exactly below its limit, and otherwise dead with one letter |
| JobQueue.WorkerPool.AddLetter | internal/queue/deadletter.go:30-46 | One letter more, carrying the job's retry count, and the job dead |
| JobQueue.WorkerPool.ProcessJob | internal/queue/worker.go:107-155 | The whole pool after one attempt |
| JobQueue.WorkerPool.PendingJobs | pkg/store/memory/store.go:233-247 | A batch of distinct due jobs, all of them unless the limit is reached |
| JobQueue.WorkerPool.ProcessBatch | internal/queue/worker.go:89-105 | A poll is a run of attempts on due jobs: as many as there are within its limit, or until the pool stops, each on another job |
| JobTheorems.WorkIsBounded | internal/queue/worker.go:89-190 | All attempts together are bounded by the sum of limit + 1 - RetryCount |
| JobTheorems.CallsPerJob | internal/queue/worker.go:107-190 | A job's handler runs at most limit + 1 - RetryCount times |
| JobTheorems.RunConsistent | internal/queue/deadletter.go:30-46 | Between polls a dead job has exactly one letter, with its limit as retry count, and no other job has any |
| JobTheorems.EnqueueConsistent | internal/queue/worker.go:205-219 | Enqueueing a job under a new id, within its limit, keeps all of that |
| JobTheorems.EnqueuedJob | internal/queue/worker.go:205-219 | A job handed in is due at the time it names, or at once, with its own limit or the policy's, under its id or one made of its instance's |
| JobTheorems.OutOfWork | pkg/store/memory/store.go:233-247 | Nothing can be processed at any time if and only if no job is pending |
| JobTheorems.EveryJobEnds | internal/queue/worker.go:89-190 | When the queue has drained every job is completed or dead, with letters, calls and retry count as promised |
| JobTheorems.AttemptExactly | internal/queue/worker.go:107-190 | One attempt completes the job, puts it off for another below the limit, or buries it with a letter that says what and why |
| JobTheorems.RetryWaits | internal/queue/retry.go:58-64 | After a failed attempt below the limit the job is not due before the nominal delay of its next retry and due after 5/4 of it |
| JobTheorems.AttemptsApart | internal/queue/retry.go:58-64 | In any run two successive attempts of one job are at least that delay apart |
| JobTheorems.LastAttemptDecides | internal/queue/worker.go:107-190 | A job is completed if and only if its last attempt succeeded, and otherwise carries its error |
| JobTheorems.CallsAreAttempts | internal/queue/worker.go:107-155 | With a handler every attempt is one call of it, without one none |
| CacheKey.HashedBytes | pkg/ai/cache.go:96-108 | What the loop feeds to the hash |
| CacheKey.KeyIdentifies | pkg/ai/cache.go:96-108 | Without NULs the bytes are equal if and only if model, system text, roles and contents are |
| CacheKey.KeyIsItsOwn | pkg/ai/cache.go:96-108 | Against arbitrary strings a prompt shares its bytes with no other if and only if it has no messages and no NUL |
| ResponseCache.MemoryCache.Get | pkg/ai/cache.go:65-75 | A live entry or none; an expired one is removed, no other touched |
| ResponseCache.MemoryCache.Set | pkg/ai/cache.go:77-84 | The entry stored with its time and the cache's lifetime as default |
| ResponseCache.CachedGateway.Generate | pkg/ai/cache.go:124-152 | The answer, the cache afterwards, and whether the gateway behind was asked |
| ResponseCache.TransparentExactly | pkg/ai/cache.go:124-152 | Over all histories of NUL-free requests the cache answers like the gateway behind it if and only if that gateway looks at nothing outside the key |
| ResponseCache.LivesExactly | pkg/ai/cache.go:65-84 | Over any history that does not delete it, an answer is reused for exactly its lifetime from being stored, hits not prolonging it |
| ResponseCache.ErrorsAreNotStored | pkg/ai/cache.go:136-140 | An error is handed on and leaves nothing new in the cache |
| Similarity.CosineSimilarity | pkg/ai/vectorstore.go:118-132 | The loop computes the cosine of its definition |
| Similarity.CauchySchwarz | pkg/ai/vectorstore.go:122-127 | The squared dot product is at most the product of the squared norms |
| Similarity.CosineLaw | pkg/ai/vectorstore.go:118-132 | The score times both lengths is the product of the vectors; it is zero for a zero vector or unequal lengths |
| Similarity.DotAdds | pkg/ai/vectorstore.go:122-127 | The product is additive |
| Similarity.DotPicks | pkg/ai/vectorstore.go:122-127 | Against a vector with one place it is that place times the other's, which with additivity determines it |
| Similarity.ScoreRange | pkg/ai/vectorstore.go:118-132 | Every score lies between -1 and 1 |
| Similarity.SelfScore | pkg/ai/vectorstore.go:118-132 | A vector that is not zero scores 1 against itself |
| VectorStore.InMemoryVectorStore.Insert | pkg/ai/vectorstore.go:43-59 | Documents and vectors keep equal key sets; lists of unequal length change nothing |
| VectorStore.SameKeys | pkg/ai/vectorstore.go:51-57 | Inserting keeps the key sets of documents and vectors equal |
| VectorStore.InsertedExactly | pkg/ai/vectorstore.go:51-57 | Every document is stored with the embedding at its own place in the list, of several with one id the last; all else stays |
| VectorStore.SortByScore | pkg/ai/vectorstore.go:77-79 | A permutation in descending order |
| VectorStore.Scores | pkg/ai/vectorstore.go:71-75 | Every vector once, with its score, for every map order |
| VectorStore.InMemoryVectorStore.Search | pkg/ai/vectorstore.go:61-98 | The best min(topK, n) documents in descending order, all for topK <= 0, and nothing omitted scores higher |
| VectorStore.InMemoryVectorStore.Delete | pkg/ai/vectorstore.go:100-108 | Exactly the ids not named remain, in both maps |

## Left out

- HTTP API, CLI, configuration, PostgreSQL store, metrics, audit files, dispatcher events, execution log: plumbing without logic of its own.
- Element executors other than those named above, conditions and their evaluation, XML decoding, LLM providers, guardrails, RAG: calls into other libraries; in the run loop their results are arbitrary.
- The run loop is modelled on values, one event at a time, because several goroutines interleave; in-place update of the shared process maps by concurrent calls is not captured.
- The worker's registry and record lookups are assumed to succeed, and results to carry their flow record; only AI tasks mark their own record as failed, so the status test in the join's count is left out.
- Thread records and thread ids across Continue (the counter restarts), timer jobs, SendMessage and SendSignal, persistence of the instance at the end.
- Engine.Plausible: timers attached to an element are recorded only if they have a schedule; which do is left open.
- EngineTermination.EveryRunEnds: needs a process that calls no other and has no element with the empty id, because a call adds elements and the guard does not count the empty id.
- EngineReachable.ContinueCanDeadlock: the processes in this and the other witnesses of `EngineReachable` have one flow for each item, more than the 500 elements `Parse` admits in one file; the engine takes processes of any size.
- EngineConvergence.Convergence: results that depend on the element alone, as for confluence; a schedule may be blocked on full channels instead, which more than 2048 + WorkerCount pending items allow.
- EngineArrivals.TokensConserved: runs without calls, and elements that no error or boundary event leads to.
- ParsedFiles.NodesReachTargets: sequence flows connect nodes and never start at other sequence flows.
- NestedCalls.NestedExitStops: assumes, as ParsedFiles.SubProcessExit does, that nothing leaves the closing end event inside the sub-process and that flow ids hold no comma; which end event a call chooses is left open.
- EngineReachable.ContinueCanHang: the witness is a fork that leads back to itself.
- ClosingEnds.ClosingEndLeadsOn: ids in the file are not empty and hold no comma.
- CallActivities.GatesInside: the called process is a fresh copy, as for the other theorems about calls.
- InnerRuns.GateByTokens: the flows of the sub-process have ids and connect nodes; the inner start event is left out because the entry flow feeds it.
- InnerRuns.DeeperJoinsOpen: for joins fed by start events and diverging gateways; exclusive and inclusive gateways choose their flows by conditions, which are not modelled.
- EngineJoin.JoinsInRuns: needs a gateway whose definition the run leaves alone, which every call with fresh ids does.
- CallActivities.EndReturnsAlongExits: the called process is a fresh copy with ids of its own, and the caller has a flow to leave along and its flow ids are not empty and hold no comma; conditions, default flows and boundary references are not rewritten by inlining and not modelled; a second call of one called process through the in-memory store, which shares slices with the first, is left out.
- Reification.SynthesizeFlows: says nothing when a flow has the id another flow's `_synth` flow gets, because the result then depends on map order.
- SubProcesses.RouteExits: says nothing when two sub-processes close at the same end event, which unique ids exclude.
- ParsedFiles.SubProcessExit: assumes that nothing leaves the end event inside the sub-process.
- Documents.Parse: starts from decoded elements; the copying of flow conditions to gateways is left out, and a sub-process inside a sub-process is skipped as the code does.
- Backoff.NextRetryAt: from 2^63 on the conversion of the power to an integer is left to the Go implementation and is a parameter here; the clock is a parameter.
- JobQueue.WorkerPool.ProcessBatch: one queue worker; several have no claim step, so a job can run twice.
- CacheKey.KeyIdentifies: the four roles the package defines; other role strings are possible in Go.
- ResponseCache.TransparentExactly: SHA-256 is taken to be injective, and the gateway behind the cache to be a function of the request when it answers; the Redis cache is left out.
- Similarity.ScoreRange: real numbers instead of floating point, with the square root as a parameter.
- Strings are sequences of characters; the 1 MiB limit on variables counts characters where the code counts bytes.
- Exact minimality of `nextCron` and the cron parser: calendar arithmetic.
