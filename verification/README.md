# Verified model of the voice-agent runtime

A Dafny model of the parts of the runtime whose correctness is hard to see by reading them, with proofs.
`dafny verify dfyconfig.toml` checks everything.

- **Dialogue and controller** (`DialogueTypes`, `DialogueReducer`, `TurnTriggers`, `ToolCycle`, `TimerBook`,
  `Policy`, `ControllerModel`, `TimerLiveness`, `ControllerLaws`, `RunLog`, `Controller`). The reducer is a pure function. The
  controller is a class: its loop feeds observations and expired timers to the reducer and runs the resulting
  effects, some of which call the LLM and reduce again. The LLM's replies, an interrupt arriving during a call, the
  clock and a holding aggregator are arbitrary. Every run's contract (`Controller.Controller.RunLoop`) says which
  messages it accepts, in which order, and when one can be lost; `Controller.Serve` is the same from construction on,
  in terms of the arrivals, the rules and what happened. `Conserved`, `WithinBudget`, `StopsSpent`, `Permitted` and, for clean runs,
  `Settled` are invariants of every run.
- **Audio ring** (`AudioBuffer`, `AudioInterleaving`). The array class refines a queue of frames; the same
  algorithm split at every atomic load, store and slot access is safe under every schedule.
- **Streaming text** (`Text`, `ResponseFilter`, `TtsScan`, `TtsStream`, `StreamParser`, `StreamLaws`, `Sse`). Each
  incremental machine is proved against a description of the whole input.
- **Audio and encoding helpers** (`Pcm`, `Base64`, `Vad`, `VadLaws`, `Numbers`).
- **Prompt construction** (`MemoryStore`, `ContextStrategy`, `PairingLaws`, `PairingLimits`).

A run is *clean* while no tool call was denied, no system event has started a turn and the aggregator passes
messages straight through.

## Where the code does not do what one would expect

Each of these is proved, with the exact condition where there is one.

- `CheckBudget` stops a turn without telling the reducer, so the deliberation phase may stay Thinking, and then every
  later user message is dropped. In clean runs an event that cannot ask the LLM leaves the controller so if and only
  if it is an LLM failure or the reducer is thinking outside the debounce window after it
  (`ControllerLaws.WedgesIff`). The events are a completing tool result, a tool timeout, a continuation that spends
  the budget, a verdict, a system event outside the debounce window, and a message that finds it so
  (`ControllerLaws.StuckEvents`); a system event inside the window wedges when it ends
  (`ControllerLaws.SystemEventInDebounce`).
  `Controller.Controller.RunLoop` shows that no run leaves such a state, and `ControllerLaws.DroppedOutcome` says
  exactly when a message is dropped.
- The reducer starts the LLM again for every tool result after the completing one, since no call is pending then. It
  starts it exactly once if and only if the completing result is the last one it is given (`ToolCycle.StartsCounted`,
  `ToolCycle.DuplicateStartsTwice`). The controller protects it: a result is handed on only in the FSM state Acting,
  in clean runs only while the reducer awaits results, and is dropped without any change elsewhere
  (`Controller.Controller.OnToolResult`, `Controller.Controller.Dispatch`).
- A stop into Idle empties the observation queue, and the messages in it are gone; every stop meets a used-up budget.
  Without a stop and without a failure of the LLM no user message of a clean run is lost (`Controller.Serve`,
  `Controller.Controller.RunLoop`, `RunLog.LostMeansWedged`).
- A denied batch thinks again before its own timeout is scheduled, and the timeout is scheduled all the same
  (`Controller.Controller.FinishThinking`). It is stale if and only if the last reply that came meanwhile did not ask
  for tools. If the LLM answers, say, the timeout outlives the turn, and since the
  reducer does not look at the phase it starts the LLM once more and records the refused calls as timed out
  (`ControllerLaws.DeniedThenAnswered`, `ControllerLaws.TimeoutIgnoresPhase`). In clean runs this cannot happen
  (`ControllerLaws.SettledIsNotStale`).
- After the last failed retry the FSM is in Error and nothing in the loop fires the recovery event
  (`Controller.Controller.FailThinking`, `Controller.Controller.RunLoop`).
- A policy denial thinks again at once; the budget ends the chain if and only if the completions use up the tokens
  that were left, so never if they report none (`ControllerLaws.DenialsStopIff`,
  `ControllerLaws.SteadyDenialsEndIff`). The controller assumes at least one token per completion.
- A merged user entry is the space-join of its fragments if and only if there is at most one fragment or the first
  is not empty (`ControllerModel.MergedIsJoinIff`).
- A verdict with id 0 takes effect when nothing is pending (`TurnTriggers.ZeroVerdictStartsLlm`).
- An opening think tag cut by a token boundary is spoken in part; closing tags may be cut anywhere
  (`TtsStreams.TtsStream.Speak`).
- What follows the end marker of a stream is taken in or not depending on the chunking (`Sse.TailDecides`).
- Tool calls are dropped unless index 0 carries something (`StreamLaws.CallsNeedIndexZero`).
- The comment at core/context/context_strategy.cpp:137-139 promises that an included call keeps its result as well;
  with a reused id it may not (`PairingLaws.ReusedIdLosesResult`). Whatever the sizes and the limit, a call and a
  later result with its id stay together if and only if the result is the one that resolves to this call: no other
  call with the id stands between them and no other result resolves to the call (`PairingLimits.PairsTogetherIff`).
- Reasoning that contains a closing think tag leaks exactly the stripped text after the tag
  (`StreamLaws.ClosingTagLeaks`, with a concrete input in `StreamLaws.TagsInDeltasLeak`), and content that contains an
  opening one is cut (`StreamLaws.OpeningTagLosesContent`); without either, also across fields, wrapping is undone
  (`StreamLaws.StripUndoesWrap`).

## Model

| member | source | states |
|---|---|---|
| TurnTriggers.IssueCharacterised | core/dialogue/default_reducer.cpp:156-262 | A decision starts a classification if and only if a user message meets an idle or awaiting turn outside the debounce window, and its id is then the next one |
| TurnTriggers.IdFields | core/dialogue/default_reducer.cpp:175-293 | What every one of the fifteen events does to the issued and the pending id |
| TurnTriggers.IssuedIdsIncrease | core/dialogue/default_reducer.cpp:565-568 | Over any event sequence from any state, ids are issued in strictly increasing order |
| TurnTriggers.PendingWasIssued | core/dialogue/default_reducer.cpp:175-293 | In any run a nonzero pending id was issued earlier, with no other issue, interrupt or verdict since |
| TurnTriggers.EffectiveVerdictIsFresh | core/dialogue/default_reducer.cpp:268-293 | A verdict with a nonzero id that takes effect carries the latest issued id, not interrupted or consumed since |
| TurnTriggers.VerdictTakesEffectOnce | core/dialogue/default_reducer.cpp:268-293 | No nonzero id takes effect twice in a run |
| TurnTriggers.ZeroVerdictStartsLlm | core/dialogue/default_reducer.cpp:271-288 | Id 0 is outside that guarantee: with nothing pending, a verdict carrying 0 starts the LLM |
| TurnTriggers.ReachableCoherent | core/dialogue/default_reducer.cpp:21-75 | In every run awaiting a trigger implies a pending id, awaiting results implies pending calls, and no assistant partial is ever set |
| ToolCycle.Collecting | core/dialogue/default_reducer.cpp:380-425 | Until every wanted id is covered, results are only collected: wanted ids stay, keys are the ids received, the LLM is not started |
| ToolCycle.ResumesOnCompletion | core/dialogue/default_reducer.cpp:380-425 | Up to and including the first result that completes the wanted ids, whatever came before it, the LLM is started on exactly that result, and the timeout is cancelled then |
| ToolCycle.StartsCounted | core/dialogue/default_reducer.cpp:380-425 | For every sequence of results: no start if and only if they never cover the wanted ids, otherwise one for the first completing result and one for every result after it; exactly one if and only if the completing result is the last |
| ToolCycle.DuplicateStartsTwice | core/dialogue/default_reducer.cpp:395-421 | A batch of one call whose result is delivered twice starts the LLM twice |
| ToolCycle.TimeoutPartitions | core/dialogue/default_reducer.cpp:431-449 | If the timeout fires first, one LLM start follows and the ids reported missing are the wanted ids minus the received ones |
| ToolCycle.MissingIds | core/dialogue/default_reducer.cpp:455-484 | The missing list holds exactly the wanted ids without a result, without repetition when the wanted ids have none |
| ToolCycle.MissingKeepsOrder | core/dialogue/default_reducer.cpp:455-484 | Missing ids are reported in call order |
| TimerBooks.TimerBook.Schedule | core/dialogue/timer_book.cpp:7-11 | The new timer replaces whatever its id held; every other timer stays |
| TimerBooks.TimerBook.Cancel | core/dialogue/timer_book.cpp:13-15 | Exactly this id is removed from the map |
| TimerBooks.TimerBook.NextDeadline | core/dialogue/timer_book.cpp:17-24 | The smallest pending deadline, or none when nothing is pending; the map does not change |
| TimerBooks.TimerBook.PopExpired | core/dialogue/timer_book.cpp:26-45 | Returns exactly the due timers, once each, in non-decreasing deadline order, and leaves exactly the others |
| TimerBooks.TimerBook.Empty | core/dialogue/timer_book.cpp:47-50 | True if and only if no timer is pending |
| TimerBooks.TimerBook.DiscardStale | core/dialogue/timer_book.cpp:52-61 | Never changes the map, and leaves a live earliest entry on top |
| TimerBooks.TimerBook.Replay | core/dialogue/timer_book.cpp:7-61 | Any sequence of operations leaves what the same operations leave in a plain map |
| TimerBooks.RescheduledFiresOnce | core/dialogue/timer_book.cpp:7-45 | A timer scheduled, cancelled and scheduled again fires at its second deadline only |
| Policy.SortByPriority | core/policy/policy_layer.cpp:73-78 | Some priority-sorted permutation of the rules |
| Policy.FirstApplicableDecides | core/policy/policy_layer.cpp:80-118 | In any sorted order the first rule that applies has minimal priority among those that apply |
| Policy.PossibleIsEvaluation | core/policy/policy_layer.cpp:73-123 | The possible outcomes are exactly those that evaluating some priority-sorted permutation of the rules gives |
| Policy.OutcomeDetermined | core/policy/policy_layer.cpp:73-123 | Every priority-sorted permutation evaluates to the same outcome if and only if the decisive rules agree on it |
| Policy.DistinctPrioritiesDetermine | core/policy/policy_layer.cpp:73-123 | When applicable rules have distinct priorities, any sorting of any reordering of the rule list evaluates to the same outcome |
| Policy.PolicyLayer.CheckPermission | core/policy/policy_layer.cpp:66-123 | The outcome is that of a decisive rule, or Deny when none applies; an approval gets a fresh id and is recorded as pending |
| Policy.PolicyLayer.GrantCapability | core/policy/policy_layer.cpp:41-45 | Adds one capability to one session |
| Policy.PolicyLayer.RevokeCapability | core/policy/policy_layer.cpp:47-54 | Removes one capability from one session |
| Policy.PolicyLayer.ResolveApproval | core/policy/policy_layer.cpp:166-181 | A pending request is resolved once; unknown ids change nothing |
| ControllerModel.MergedIsJoinIff | core/controller/controller.cpp:1293-1303 | A merged entry is the space-join of its fragments if and only if there is at most one or the first is not empty |
| ControllerModel.GroupingFlattens | core/controller/controller.cpp:1291-1341 | Committing groups the fragments without losing, repeating or reordering any |
| ControllerModel.WorkspaceLaw | core/dialogue/default_reducer.cpp:77-262 | Every event appends to the workspace exactly the message it accepts, and none sets an assistant partial |
| ControllerModel.EffectLaw | core/dialogue/default_reducer.cpp:21-75 | At most one effect of any decision can reach the LLM or the reducer again; the workspace is discarded only if an assistant partial exists |
| TimerLiveness.AtMostOneTimer | core/controller/controller.cpp:371-395 | In a settled state at most one timer is pending |
| TimerLiveness.HarvestIsRipe | core/controller/controller.cpp:371-395 | A due timer of a settled state belongs to the phase it was set for, so no stale timeout starts the LLM |
| TimerLiveness.RipeEventsSettle | core/dialogue/default_reducer.cpp:77-449 | Every event of a clean run leads, through its effects, back to a settled state or to the LLM |
| TimerLiveness.InterruptSettles | core/dialogue/default_reducer.cpp:77-124 | An interrupt ends with exactly the debounce timer pending |
| TimerLiveness.LlmCompletedSettles | core/dialogue/default_reducer.cpp:299-357 | A completion ends with the tool timer pending exactly if the FSM is Acting |
| Controller.Controller.constructor | core/controller/controller.cpp:147-185 | A controller starts in Idle with the initial dialogue state, no timer, an empty queue and history, and nothing accepted, requested, emitted, judged, stopped or denied |
| Controller.Controller.TryTransition | core/controller/controller.cpp:288-318 | The 24-entry table; an event without an entry changes nothing, and stopping into Idle, which needs a used-up budget, empties the queue and is logged |
| Controller.Controller.CommitWorkspace | core/controller/controller.cpp:1291-1341 | Fragments go to history merged or one by one, the workspace is emptied, and conservation is kept |
| Controller.Controller.MergeFragments | core/controller/controller.cpp:1293-1303 | The merged content, the last source and the latest timestamp |
| Controller.Controller.HandleResponding | core/controller/controller.cpp:922-968 | Suppressed, delivered, or delivered and stopped, by the filtered text and the budget |
| Controller.Controller.RunPlain | core/controller/controller.cpp:1015-1346 | Each effect that cannot re-enter the reducer does exactly what the value model says |
| Controller.Controller.CheckBatch | core/controller/controller.cpp:1098-1117 | True only if the rules may allow every call of the batch under the granted capabilities, false only if they may refuse some call |
| Controller.Controller.HandleActing | core/controller/controller.cpp:797-854 | One frame per call in order and one action counted per call; the frames of a run stay those of the wholly allowed batches, and the actions exceed their limit by less than the last of them |
| Controller.Controller.CheckBudget | core/controller/controller.cpp:971-989 | True if and only if a counter has reached its limit |
| Controller.Controller.HandleThinking | core/controller/controller.cpp:579-790 | Terminates for every reply of the LLM; unless the budget is used up or an interrupt came first the LLM is asked, every request goes out with all counters below their limits, and an exhausted budget only stops the turn |
| Controller.Controller.Attempt | core/controller/controller.cpp:605-766 | One request with the counters of that moment; a failed one that is not the last changes nothing else |
| Controller.Controller.FinishThinking | core/controller/controller.cpp:780-790 | A response is delivered and nothing else happens; a batch is the next one judged, acted on or refused, its timeout is pending afterwards either way, and it is stale if and only if the last reply handled by then did not ask for tools; a continuation with room left asks again, and one that spends the tokens wedges a clean controller |
| Controller.Controller.FailThinking | core/controller/controller.cpp:754-766 | After the last retry fails a thinking controller is in Error, which no later input leaves; with no timer pending it is wedged |
| Controller.Controller.EmitToolCallFrames | core/controller/controller.cpp:1094-1147 | The batch is judged under the capabilities held: all its frames are emitted, or it is refused as a whole, a denial is recorded, and the LLM is asked again while the budget lasts |
| Controller.Controller.StartThinking | core/controller/controller.cpp:1062-1093 | The LLM is asked while the budget lasts; otherwise the exact state the transitions and the stop leave |
| Controller.Controller.ContinueThinking | core/controller/controller.cpp:1039-1051 | The same after the debounce window |
| Controller.Controller.ClassifyTrigger | core/controller/controller.cpp:1225-1236 | The pending classification is answered at once and asks the LLM while the budget lasts |
| Controller.Controller.ApplyDecision | core/controller/controller.cpp:1011-1348 | Effects run in order and terminate, keep every invariant, accept exactly the message the reducer buffered, ask the LLM if some effect says so, judge the batch of a tool completion, and otherwise leave exactly the folded state |
| Controller.Controller.Handle | core/controller/controller.cpp:373-395 | The same for the events of the loop; one that cannot ask the LLM wedges the controller if and only if it is a failure or leaves the reducer thinking outside the debounce window |
| Controller.Controller.InterruptTurn | core/controller/controller.cpp:410-419 | Back to Listening in the debounce window, the workspace committed as one entry, tool wait abandoned |
| Controller.Controller.BufferMessage | core/dialogue/default_reducer.cpp:160-173 | In the debounce window a message is buffered and nothing else changes |
| Controller.Controller.BargeIn | core/controller/controller.cpp:424-456 | The turn is interrupted, the new message accepted and committed at once |
| Controller.Controller.OnToolResult | core/controller/controller.cpp:858-919 | A completing result asks the LLM while the budget lasts, and wedges the controller when it is used up; in clean runs results reach the reducer only while it awaits them |
| Controller.Controller.OnUserMessage | core/controller/controller.cpp:468-520 | With a passthrough aggregator the message is accepted if and only if the reducer takes it, and asks the LLM in the same step if it starts a turn |
| Controller.Controller.OnSystemEvent | core/controller/controller.cpp:525-539 | Accepts no user message; with an idle turn it asks the LLM, when listening while the budget lasts and when waking from Idle if the limits allow any request; during a turn it records and asks nothing |
| Controller.Controller.TakeSystemEvent | core/controller/controller.cpp:536-539 | While listening: asks if the turn is idle and the budget lasts, changes nothing at all during a turn, and with a used-up budget wedges a settled controller if and only if it is outside the debounce window |
| Controller.Controller.Harvest | core/controller/controller.cpp:371-395 | All due timers are handed to the reducer, keeping every invariant; none of them accepts a message under a passthrough aggregator, and if none is due nothing changes |
| Controller.Controller.FireTimer | core/controller/controller.cpp:373-395 | The end of the debounce window or of the wait for tools asks the LLM while the budget lasts; with a used-up budget, in a clean run, it wedges the controller if and only if it is the wait for tools; under a passthrough aggregator no message is accepted |
| Controller.Controller.Dispatch | core/controller/controller.cpp:406-539 | What each kind of observation comes to in each state: interrupt and keep, interrupt, accept and ask, drop, ask; every other combination changes nothing at all |
| Controller.Controller.KeepsExactly | core/controller/controller.cpp:406-539 | Under a passthrough aggregator an observation is accepted if and only if it is a user message that meets a turn under way or that the reducer takes |
| Controller.Controller.TakeNext | core/controller/controller.cpp:397-539 | The oldest observation is taken off and answered; exactly the kept message is accepted, and in a clean run one is lost only by a wedged controller |
| Controller.Controller.LoopIteration | core/controller/controller.cpp:343-541 | One iteration keeps conservation, budgets, permissions and, in clean runs, timer liveness; it accepts exactly what the observation it took leaves, counts as a system event only if it took one between turns, judges batches under the capabilities held, comes to rest stuck only through a stop, and with no timer due answers the observation in the very state it began in |
| Controller.Controller.RunLoop | core/controller/controller.cpp:343-541 | Over every run nothing accepted or committed is taken back; observations are handled in order of arrival, each at most once, one in every iteration that finds one unless a stop, which needs a used-up budget, empties the queue; under a passthrough aggregator exactly the kept messages are accepted, in order; a clean run ends wedged only in Error or after a stop, and otherwise has accepted every user message it took; a wedged controller accepts, requests and emits nothing ever again |
| Controller.Serve | core/controller/controller.cpp:343-541 | From construction on, with arrivals free of system events and a passthrough aggregator: if no batch was refused the timers are settled; if besides nothing stopped and the LLM did not fail for good, the accepted messages are exactly the user messages that have had their turn, and the backlog is what is left; no batch is refused under rules that never refuse |
| Controller.NothingRefused | core/policy/policy_layer.cpp:73-123 | A refused batch needs rules that can refuse one of its calls under the capabilities held |
| RunLog.BacklogDrains | core/controller/controller.cpp:343-400 | Every iteration without arrivals takes one observation off the backlog, so enough of them clear it |
| RunLog.LostMeansWedged | core/controller/controller.cpp:406-541 | In a settled state the only user messages lost are those that meet a wedged controller |
| RunLog.AllTaken | core/controller/controller.cpp:343-541 | With nothing lost and nothing skipped, what is kept is every user message handled, in order |
| ControllerLaws.CounterLaw | core/dialogue/default_reducer.cpp:299-357 | What every event does to the three turn counters |
| ControllerLaws.CommitKeepsOrder | core/controller/controller.cpp:1291-1341 | Committed entries are the committed groups, in order, after those before |
| ControllerLaws.InterruptOutcome | core/dialogue/default_reducer.cpp:77-124 | The exact state an interrupt leaves |
| ControllerLaws.DroppedOutcome | core/dialogue/default_reducer.cpp:260-261 | A message is dropped if and only if the turn is neither idle, awaiting a trigger nor debouncing, and then nothing changes |
| ControllerLaws.LastResultOutcome | core/controller/controller.cpp:579-585 | The last tool result with the budget used up leaves a state no message can leave |
| ControllerLaws.WedgesIff | core/controller/controller.cpp:579-585 | For every event of a clean run, and the system event that ends one, whose decision cannot ask the LLM: the controller is wedged afterwards if and only if the event is an LLM failure or the reducer is then thinking outside the debounce window |
| ControllerLaws.StuckEvents | core/dialogue/default_reducer.cpp:130-516 | Which events the latter are: a continuation with continuations left, the completing result, the tool timeout, a verdict, a system event outside the debounce window, and a message that finds it so already |
| ControllerLaws.SystemEventWedges | core/dialogue/default_reducer.cpp:490-516 | With the budget used up a system event wedges a listening controller at once if and only if no debounce window is open |
| ControllerLaws.SystemEventInDebounce | core/dialogue/default_reducer.cpp:490-516 | Inside the debounce window it wedges the controller when the window ends |
| ControllerLaws.TimeoutIgnoresPhase | core/dialogue/default_reducer.cpp:431-449 | The tool timeout starts the LLM in every phase, whether results are awaited or not |
| ControllerLaws.DeniedThenAnswered | core/controller/controller.cpp:1123-1146 | A denied batch followed by an answer leaves its timeout pending in an idle turn; the expiry records every refused call as timed out and starts the LLM |
| ControllerLaws.AwaitedAfterReplies | core/dialogue/default_reducer.cpp:299-373 | After any replies of the LLM results are awaited if and only if the last of them asked for tools |
| ControllerLaws.RestCases | core/dialogue/default_reducer.cpp:21-75 | An event of a clean run that was not at rest resumes the turn, waits for tools, or leaves it not at rest |
| ControllerLaws.SettledIsNotStale | core/controller/controller.cpp:371-395 | In the settled states of clean runs no tool timeout outlives the wait for results |
| ControllerLaws.ContinuationWedges | core/dialogue/default_reducer.cpp:338-357 | A continuation that uses up the tokens with continuations left wedges the controller |
| ControllerLaws.TimerWedges | core/dialogue/default_reducer.cpp:130-150 | With the budget used up the tool timeout wedges the controller and the end of the debounce window does not |
| ControllerLaws.FailureOutcome | core/dialogue/default_reducer.cpp:363-373 | Failure ends in Error whenever the FSM was thinking; with no timer pending nothing can wake it |
| ControllerLaws.DenialsStopIff | core/controller/controller.cpp:1123-1146 | The budget stops a chain of denied tool calls after any list of completions if and only if they used up the tokens that were left |
| ControllerLaws.SteadyDenialsEndIff | core/controller/controller.cpp:1123-1146 | With one usage repeated the chain is stopped at all if and only if each completion reports a token |
| ControllerLaws.NewTurnAsks | core/dialogue/default_reducer.cpp:221-258 | A message that starts a turn leads to a request, since the counters are reset |
| ControllerLaws.CompletionAsks | core/dialogue/default_reducer.cpp:380-425 | A completing result leads to a request while the budget lasts |
| ControllerLaws.TimerAsks | core/dialogue/default_reducer.cpp:130-150 | So does the end of the debounce window or of the wait for tools |
| ControllerLaws.SystemEventAsks | core/dialogue/default_reducer.cpp:490-516 | So does a system event in an idle turn |
| ControllerLaws.ResponseOutcome | core/dialogue/default_reducer.cpp:333-337 | A response completion does nothing but deliver |
| ControllerLaws.HarvestKeepsWedge | core/controller/controller.cpp:371-395 | Timers cannot free a wedged controller |
| RingArithmetic.DistanceIsExact | io/audio/audio_device/audio_buffer.h:61-66 | The distance of two wrapped positions is the number of frames in flight |
| AudioBuffers.AudioBuffer.constructor | io/audio/audio_device/audio_buffer.h:17-20 | An empty queue |
| AudioBuffers.AudioBuffer.AvailableRead | io/audio/audio_device/audio_buffer.h:61-66 | The number of frames written and not yet read |
| AudioBuffers.AudioBuffer.AvailableWrite | io/audio/audio_device/audio_buffer.h:69-71 | The free frames, one of the capacity always kept free |
| AudioBuffers.AudioBuffer.Write | io/audio/audio_device/audio_buffer.h:24-39 | Appends as many whole frames as fit to the queue |
| AudioBuffers.AudioBuffer.Read | io/audio/audio_device/audio_buffer.h:43-58 | Takes as many whole frames as there are, oldest first, and touches nothing else |
| AudioInterleaving.WriterStaysOffUnread | io/audio/audio_device/audio_buffer.h:32-34 | The slot about to be stored to holds no sample that is stored and not released |
| AudioInterleaving.ReaderTakesPublished | io/audio/audio_device/audio_buffer.h:51-53 | The sample about to be taken is the next published one |
| AudioInterleaving.NextKeepsInv | io/audio/audio_device/audio_buffer.h:24-71 | Every atomic load, store and slot access of either side keeps the ring invariant |
| AudioInterleaving.EveryScheduleIsFifo | io/audio/audio_device/audio_buffer.h:24-71 | Under every interleaving what was read is a prefix of what was written, and the writer never touches a slot the reader has not released, whether the sample is published, claimed or already read |
| AudioInterleaving.WriterNeverWaits | io/audio/audio_device/audio_buffer.h:24-39 | Each step of Write brings it closer to returning whatever the reader does |
| ResponseFilter.StripTag | core/strategies/response_filter.h:46-66 | The scan-and-copy loop computes the two-mode description of removing blocks |
| ResponseFilter.Filter | core/strategies/response_filter.h:37-43 | The three kinds of block removed in turn |
| TtsStreams.PunctuationSegmentStrategy.ReadyLength | core/strategies/tts_segment_strategy.h:63-79 | All of a long buffer, up to the last sentence end of a middling one, nothing of a short one |
| TtsStreams.ReadyLeavesNothing | core/strategies/tts_segment_strategy.h:63-79 | Cutting off what is ready leaves nothing ready, and the cut is everything or ends a sentence |
| TtsStreams.PunctuationSegmentStrategy.Append | core/strategies/tts_segment_strategy.h:59-61 | Adds to the end of the buffer |
| TtsStreams.PunctuationSegmentStrategy.Consume | core/strategies/tts_segment_strategy.h:81-87 | Removes a prefix, or everything |
| TtsStreams.PunctuationSegmentStrategy.Flush | core/strategies/tts_segment_strategy.h:89-93 | Returns the buffer and empties it |
| TtsStreams.TtsStream.FilterToken | core/controller/controller.cpp:642-700 | The filter state and the clean part of a token are those of the character-level description |
| TtsStreams.TtsStream.EmitReady | core/controller/controller.cpp:701-727 | Emits a whole overlong buffer or the part up to its last sentence end, leaves nothing that is ready behind, and loses nothing |
| TtsStreams.TtsStream.Speak | core/controller/controller.cpp:642-744 | What is spoken equals the stripped text if and only if no opening tag that stripping acts on is cut by a token boundary, whatever the segment limits |
| TtsScan.StripContinues | core/controller/controller.cpp:642-700 | The filter state after a text determines how stripping continues with any further text |
| TtsScan.StreamedEqualsStripped | core/controller/controller.cpp:642-700 | The same equivalence for the filter alone, over every token list without tool tags |
| TtsStreams.CutTagLeaks | core/controller/controller.cpp:661-670 | A concrete cut opening tag that is spoken in part |
| StreamParser.StreamAccumulator.ParseStreamChunk | services/llm/openai/json_parser.cpp:201-382 | One line takes the accumulators to exactly the next value state, and says whether it was used and whether it ended the stream |
| StreamParser.StreamAccumulator.AddCalls | services/llm/openai/json_parser.cpp:336-379 | The in-place merge of tool-call fragments |
| StreamParser.StreamAccumulator.Build | services/llm/openai/json_parser.cpp:239-269 | The final candidate |
| StreamLaws.StripUndoesWrap | services/llm/openai/json_parser.cpp:300-334 | If no run of reasoning fields holds a closing tag and no run of content fields an opening one, also cut across fields, filtering the accumulated text gives exactly the content fields, at any moment and after the end, and then every block is closed |
| StreamLaws.PlainIsTagFree | services/llm/openai/json_parser.cpp:300-334 | Fields without < meet that condition |
| StreamLaws.OpeningTagLosesContent | services/llm/openai/json_parser.cpp:325-334 | An opening tag that comes about in a run of content always loses some of the content |
| StreamLaws.ClosingTagLeaks | services/llm/openai/json_parser.cpp:300-323 | A closing tag that comes about in a run of reasoning lets exactly the stripped text after it through, so think blocks are still undone if and only if only further blocks follow it |
| StreamLaws.TagsInDeltasLeak | services/llm/openai/json_parser.cpp:300-334 | A concrete reasoning delta with a closing tag for which that fails |
| StreamLaws.NeedOpenIsNotInThink | services/llm/openai/json_parser.cpp:306-313 | The two tests on the last tags are each other's negation |
| StreamLaws.OwnFragments | services/llm/openai/json_parser.cpp:336-379 | Each call is made of its own fragments: last id and type, name and arguments concatenated |
| StreamLaws.InterleavingIrrelevant | services/llm/openai/json_parser.cpp:336-379 | Streams that agree on each call's fragments assemble the same calls |
| StreamLaws.SlotCount | services/llm/openai/json_parser.cpp:344-347 | There are exactly as many slots as the highest index asks for |
| StreamLaws.CallsNeedIndexZero | services/llm/openai/json_parser.cpp:240-242 | A completion ends in tool calls if and only if some fragment of index 0 carries something |
| Sse.SseReader.OnLine | services/llm/openai/openai_client.cpp:92-116 | One line is absorbed and the new content handed on |
| Sse.SseReader.OnData | services/llm/openai/openai_client.cpp:79-121 | A chunk consumes complete lines up to the first end marker; what was handed on always concatenates to the content |
| Sse.SseReader.Submit | services/llm/openai/openai_client.cpp:79-171 | A whole stream, with or without an end marker |
| Sse.RunExtends | services/llm/openai/openai_client.cpp:79-121 | Consuming more bytes continues from what the first part left |
| Sse.ChunkingIrrelevant | services/llm/openai/openai_client.cpp:79-121 | Up to the first end marker only the concatenated bytes matter |
| Sse.TailDecides | services/llm/openai/openai_client.cpp:79-121 | With an end marker, every chunking ends with what was assembled at the first one if and only if consuming what follows would change nothing, up to each further marker and at the end |
| Sse.StandsReachable | services/llm/openai/openai_client.cpp:79-121 | Whatever the chunking, a stream past its first end marker stands at it, at a later one, or after the last complete line |
| Sse.OneMarkerDecides | services/llm/openai/openai_client.cpp:79-121 | With a single end marker the condition is one comparison |
| Sse.TrailingLinesDepend | services/llm/openai/openai_client.cpp:79-121 | A concrete line after the marker that one chunking takes in and another does not |
| Sse.WholeReply | services/llm/openai/openai_client.cpp:79-121 | End to end: filtering gives the content fields and each call is made of its own fragments, for every chunking |
| Pcm.PcmAligner.Take | io/tts/elevenlabs/elevenlabs_tts_device.cpp:121-145 | Even payload, at most one byte kept back, nothing lost |
| Pcm.PcmAligner.Emit | io/tts/elevenlabs/elevenlabs_tts_device.cpp:121-155 | Payloads plus the carried byte are all bytes received; every payload is even |
| Pcm.PcmAligner.Synthesize | io/tts/elevenlabs/elevenlabs_tts_device.cpp:118-162 | For every chunking the audio is the byte stream cut to even length |
| Base64.Base64Encode | services/asr/baidu/baidu_asr_client.cpp:16-35 | Four characters for every three bytes or part of it; a strict decoder inverts it |
| Base64.RoundTrip | services/asr/baidu/baidu_asr_client.cpp:16-35 | Decoding gives back what was encoded |
| Base64.OnlyEncoding | services/asr/baidu/baidu_asr_client.cpp:16-35 | No other text decodes to the same bytes |
| Base64.EncodedLength | services/asr/baidu/baidu_asr_client.cpp:18-18 | The reserved size is exact |
| Base64.ValueOfLetter | services/asr/baidu/baidu_asr_client.cpp:13-14 | The table is the alphabet of the standard |
| Vad.EnergyVadDevice.Classify | io/vad/energy_vad_device.cpp:45-54 | Speech if and only if one of the last frames is loud |
| Vad.EnergyVadDevice.WhenQuiet | io/vad/energy_vad_device.cpp:56-83 | Outside speech the outputs stay those of the whole-input description |
| Vad.EnergyVadDevice.WhenTalking | io/vad/energy_vad_device.cpp:84-101 | Inside speech the outputs stay those of the whole-input description |
| Vad.EnergyVadDevice.OnInput | io/vad/energy_vad_device.cpp:40-102 | After every frame the audio and events are those of the whole-input description; empty frames are ignored |
| Vad.EnergyVadDevice.FlushPreRoll | io/vad/energy_vad_device.cpp:120-132 | The buffered frames are forwarded in order and the buffer emptied |
| Vad.EnergyVadDevice.Start | io/vad/energy_vad_device.cpp:29-36 | A fresh start with nothing seen |
| VadLaws.DescriptionUnique | io/vad/energy_vad_device.cpp:40-102 | The description fixes the segments and the current phase |
| VadLaws.SegmentsInOrder | io/vad/energy_vad_device.cpp:58-84 | Segments are disjoint and increasing, and reach back fewer than max(pre-roll, 1) frames from the onset |
| VadLaws.EndsAfterLastLoud | io/vad/energy_vad_device.cpp:90-98 | A segment ends exactly window - 1 + max(hangover, 1) frames after the last loud frame |
| ContextStrategy.SelectGreedily | core/context/context_strategy.cpp:121-135 | Exactly the entries that fit beside the newer entries taken before them |
| ContextStrategy.RepairPairs | core/context/context_strategy.cpp:137-194 | The in-place repair computes the step-by-step specification |
| ContextStrategy.WithinBudget | core/context/context_strategy.cpp:121-194 | The running total is the token sum of the included entries and within the budget |
| ContextStrategy.ContextBuilder.BuildContext | core/context/context_strategy.cpp:82-220 | System message, included entries in order, observation; the estimate is exact and at most max(limit, fixed tokens) |
| ContextStrategy.ContextBuilder.InitSession | core/context/context_strategy.cpp:72-80 | An empty instruction stands for the default one |
| ContextStrategy.ContextBuilder.SetSystemInstruction | core/context/context_strategy.cpp:233-237 | Replaces one session's instruction |
| ContextStrategy.ContextBuilder.ReleaseSession | core/context/context_strategy.cpp:239-244 | Forgets one session's instruction |
| ContextStrategy.ContextBuilder.RecordTurn | core/context/context_strategy.cpp:222-226 | Appends, then halves the history if it has outgrown the threshold; other sessions stay |
| ContextStrategy.ContextBuilder.MaybeSummarize | core/context/context_strategy.cpp:246-269 | The older half becomes one summary |
| ContextStrategy.ContextBuilder.InjectContext | core/context/context_strategy.cpp:228-231 | Appends without summarizing |
| PairingLaws.IncludedResultsHaveCalls | core/context/context_strategy.cpp:141-169 | Every included result has its nearest earlier call included |
| PairingLaws.PairsTogether | core/context/context_strategy.cpp:137-194 | A call and the one result whose nearest earlier call it is are both included or both left out |
| PairingLaws.UniqueIdIsAnswered | core/context/context_strategy.cpp:137-194 | A call and a result with an id nobody else uses are such a pair |
| PairingLimits.PairsTogetherIff | core/context/context_strategy.cpp:137-194 | A call and a later result with its id stay together for all entry sizes and limits if and only if the result is the one whose nearest earlier call this is |
| PairingLaws.OthersAreGreedy | core/context/context_strategy.cpp:126-135 | Entries without a partner stay exactly as the greedy pass chose |
| PairingLaws.AllIncluded | core/context/context_strategy.cpp:121-194 | If everything fits, everything is included |
| PairingLaws.ReusedIdLosesResult | core/context/context_strategy.cpp:171-194 | With a reused id an included call can lose its result |
| MemoryStore.InMemoryStore.Append | services/memory/in_memory_store.h:18-22 | Adds at the end of one session |
| MemoryStore.InMemoryStore.GetRecent | services/memory/in_memory_store.h:24-37 | The newest entries, oldest first |
| MemoryStore.InMemoryStore.Count | services/memory/in_memory_store.h:39-46 | The number of entries |
| MemoryStore.InMemoryStore.Summarize | services/memory/in_memory_store.h:59-75 | Replaces a range by one entry; bad ranges and unknown sessions change nothing |
| MemoryStore.InMemoryStore.Clear | services/memory/in_memory_store.h:77-80 | Forgets one session |
| MemoryStore.HistoryBounded | core/context/context_strategy.cpp:222-269 | In every run of recorded turns: at most max(threshold, 3) entries, newest last, the full log or one summary and an unchanged end of it |
| MemoryStore.ShortLogKept | core/context/context_strategy.cpp:246-251 | Up to the threshold nothing is summarized |

## Left out

- Threads, mutexes, condition variables and shutdown: a loop iteration is one step; only the audio ring is interleaved.
- `AudioBuffer::Reset`, which a third thread calls; memory orders weaker than sequential consistency; capacity 0 and channels 0.
- The external `Interrupt()` flag and backoff delays: a request may return early at any attempt, and a failed one may be retried.
- An exception thrown while a decision runs (core/controller/controller.cpp:1047-1050), other than the LLM's own failures.
- Conversation items, activities, diagnostics, audit records and sequence numbers; history entries keep what memory records.
- The activity timestamps and session start the controller writes into the dialogue state; nothing reads them.
- The branches of `HandleThinking` for user messages and system events: no effect passes such a trigger.
- Recording an assistant partial on commit: no event sets one (`ControllerModel.WorkspaceLaw`).
- The aggregator's own logic: passthrough, or holding and releasing messages arbitrarily.
- The turn-trigger classifier, which the controller bypasses by answering every classification with "respond now".
- Integer widths: counters, generations, ids and token counts are unbounded.
- JSON parsing, and values of the wrong type inside a parsed chunk, which throw: a parsed line is one of the payload cases. Negative tool-call indices.
- Generated tool-call ids: a call without an id has none in the model.
- HTTP status and cancellation of a stream, and a stream without a token callback. Bytes that arrive while the speech device is stopped.
- The interrupt check inside the token callback and a second streaming attempt, which keeps the filter state of the first.
- The float arithmetic of `ComputeRms`: a frame carries its energy. A window of 0 frames, for which the maximum is undefined. The order of an event relative to audio frames.
- Rendering and parsing of conversation items: the parser of stored items is an arbitrary function.
- The summary's timestamp, and the entry's timestamp.
- Bit operations of the Base64 encoder are written as the equal arithmetic on non-negative integers.
- Vendor clients, SQLite, the tool registry, routing tables, probes, `SchedulerDevice` and the platform bridges: I/O, or easy members.
- TimerLiveness.RipeEventsSettle: does not cover runs after a denied call or a system event, whose timers need not be settled (`ControllerLaws.DeniedThenAnswered`, `ControllerLaws.SystemEventInDebounce`); the other invariants cover them.
- StreamLaws.ClosingTagLeaks: is exact for the think blocks; the whole filter is described only while the leaked text opens no tool block.
- TtsScan.StreamedEqualsStripped: is stated for text without tool-call and tool-result tags, which the filter treats as blocks of the same kind.
