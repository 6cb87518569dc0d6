/** Value types shared by the dialogue reducer and the controller. Times are integers;
    an observation carries the fields the controller parses out of a tool result's JSON. */
module DialogueTypes {

  datatype Option<+T> = None | Some(value: T)

  datatype TimerKind = Debounce | ToolCallTimeout | ConversationIdle | Aggregation

  datatype Verdict = RespondNow | StoreOnly

  datatype Deliberation = Idle | AwaitingTurnTrigger | Thinking | AwaitingToolResults

  datatype Cooldown = NoCooldown | Debouncing

  datatype FsmState = Idle | Listening | Thinking | Routing | Acting | Responding | Error | Terminated

  datatype FsmEvent =
    | Start | Stop | Shutdown | UserObservation | LlmResult | LlmFailure
    | RouteToAction | RouteToResponse | RouteToContinue | ActionComplete | ActionFailed
    | ResponseDelivered | StopConditionMet | Interrupt | Recover

  datatype ObservationKind = UserMessage | ToolResult | SystemEvent | Interruption | Continuation

  /** resultId and resultOk are what a tool result's content parses to: the embedded
      tool_call_id ("" when absent or unparsable) and the success flag (false by default). */
  datatype Observation = Observation(
    kind: ObservationKind, content: string, source: string, timestamp: int,
    resultId: string, resultOk: bool)

  datatype ToolCall = ToolCall(id: string, name: string, arguments: string, capability: string)

  datatype ActionKind = CallTools | Respond | Continue

  datatype Candidate = Candidate(kind: ActionKind, responseText: string, toolCalls: seq<ToolCall>)

  datatype Fragment = Fragment(content: string, source: string, timestamp: int)

  datatype Workspace = Workspace(fragments: seq<Fragment>, partial: Option<Fragment>)

  datatype Config = Config(
    maxRetries: int, tokenBudget: int, actionLimit: int, maxContinuations: int,
    toolCallTimeout: int, debounceDuration: int, aggregationTimeout: int)

  datatype DialogueState = DialogueState(
    conversationActive: bool, cooldown: Cooldown, sessionStart: int, lastActivity: int,
    llmCalls: int, promptTokens: int, completionTokens: int, actions: int, continuations: int,
    deliberation: Deliberation, nextTriggerId: nat, pendingTriggerId: nat,
    pendingCallIds: seq<string>, pendingResults: map<string, string>, workspace: Workspace)

  const INITIAL_STATE :=
    DialogueState(false, NoCooldown, 0, 0, 0, 0, 0, 0, 0, Deliberation.Idle, 0, 0, [], map[],
                  Workspace([], None))

  datatype DialogueEvent =
    | InterruptRequested(now: int)
    | DebounceExpired(now: int)
    | UserMessageReceived(obs: Observation, now: int)
    | ShutdownRequested
    | LlmCompleted(candidate: Candidate, promptTokens: int, completionTokens: int, now: int)
    | LlmFailed(reason: string, now: int)
    | ToolResultReceived(obs: Observation, now: int)
    | ToolCallsTimedOut(missing: seq<string>, now: int)
    | ContinuationRequested(source: string, now: int)
    | SystemEventReceived(obs: Observation, now: int)
    | TimerExpired(kind: TimerKind, timerId: string, now: int)
    | TurnTriggerClassified(id: nat, verdict: Verdict, now: int)
    | UserFragmentReceived(obs: Observation, now: int)
    | AggregationComplete(obs: Observation, now: int)
    | AggregationTimeout(obs: Observation, now: int)

  datatype Effect =
    | RecordMemory(obs: Observation)
    | CancelLlm
    | StartLlmContinuation(now: int)
    | EmitInputStored
    | SignalBudgetExhausted
    | StartLlm(trigger: Observation)
    | EmitToolCallFrames(action: Candidate)
    | RecordToolResult(obs: Observation)
    | RecordToolCallDecision(action: Candidate)
    | DeliverResponse(action: Candidate)
    | EmitDiagnostic(message: string)
    | ScheduleTimer(kind: TimerKind, timerId: string, deadline: int)
    | CancelTimer(timerId: string)
    | StartTurnTriggerClassification(id: nat, obs: Observation)
    | CancelTurnTriggerClassification(id: nat)
    | TransitionState(event: FsmEvent)
    | RecordInterruptMemory
    | RecordTimeoutResults(missing: seq<string>)
    | BufferToWorkspace(entry: Fragment, isFragment: bool)
    | CommitWorkspace(merge: bool)
    | DiscardWorkspace

  datatype Decision = Decision(next: DialogueState, effects: seq<Effect>)

  const DEBOUNCE_TIMER := "debounce"
  const TOOL_TIMER := "tool_call_timeout"
  const AGGREGATION_TIMER := "aggregation"
}
