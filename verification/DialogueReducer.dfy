/** The dialogue reducer: a pure map from (state, event) to (next state, effects). */
module DialogueReducer {
  import opened DialogueTypes

  function Trigger(source: string, now: int): Observation {
    Observation(ObservationKind.Continuation, "", source, now, "", false)
  }

  function FragmentOf(obs: Observation, now: int): Fragment {
    Fragment(obs.content, obs.source, now)
  }

  function Buffered(s: DialogueState, f: Fragment): DialogueState {
    s.(workspace := s.workspace.(fragments := s.workspace.fragments + [f]))
  }

  function ResetTurnCounters(s: DialogueState): DialogueState {
    s.(llmCalls := 0, promptTokens := 0, completionTokens := 0, actions := 0, continuations := 0)
  }

  function Tokens(s: DialogueState): int {
    s.promptTokens + s.completionTokens
  }

  predicate BudgetExhausted(cfg: Config, s: DialogueState) {
    || Tokens(s) >= cfg.tokenBudget
    || s.actions >= cfg.actionLimit
    || s.continuations >= cfg.maxContinuations
  }

  function HandleInterrupt(cfg: Config, s: DialogueState, now: int): Decision {
    var next := s.(cooldown := Debouncing, lastActivity := now, deliberation := Deliberation.Idle,
                   pendingTriggerId := 0, pendingCallIds := [], pendingResults := map[]);
    Decision(
      next,
      (if s.workspace.fragments != [] then [CommitWorkspace(true)] else [])
      + (if s.workspace.partial.Some? then [DiscardWorkspace] else [])
      + [CancelLlm, RecordInterruptMemory,
         ScheduleTimer(TimerKind.Debounce, DEBOUNCE_TIMER, now + cfg.debounceDuration)]
      + (if s.deliberation == AwaitingToolResults then [CancelTimer(TOOL_TIMER)] else []))
  }

  function HandleDebounceExpired(cfg: Config, s: DialogueState, now: int): Decision {
    var next := s.(cooldown := NoCooldown);
    Decision(next, [CommitWorkspace(true),
                    if BudgetExhausted(cfg, next) then SignalBudgetExhausted else StartLlmContinuation(now)])
  }

  /** A fresh user turn: buffer, commit at once, and start a new classification. */
  function StartUserTurn(s: DialogueState, obs: Observation, now: int): Decision {
    var f := FragmentOf(obs, now);
    var id := s.nextTriggerId + 1;
    var next := Buffered(ResetTurnCounters(s.(conversationActive := true, lastActivity := now)), f)
                .(nextTriggerId := id, pendingTriggerId := id, deliberation := AwaitingTurnTrigger);
    Decision(
      next,
      (if s.deliberation == AwaitingTurnTrigger
       then [CancelTurnTriggerClassification(s.pendingTriggerId)] else [])
      + [BufferToWorkspace(f, false), CommitWorkspace(false), StartTurnTriggerClassification(id, obs)])
  }

  function HandleUserMessage(s: DialogueState, obs: Observation, now: int): Decision {
    if s.cooldown == Debouncing then
      Decision(Buffered(s, FragmentOf(obs, now)), [BufferToWorkspace(FragmentOf(obs, now), true)])
    else if s.deliberation == AwaitingTurnTrigger || s.deliberation == Deliberation.Idle then
      StartUserTurn(s, obs, now)
    else
      Decision(s, [])
  }

  function HandleTurnTriggerClassified(s: DialogueState, id: nat, verdict: Verdict, now: int): Decision {
    if id != s.pendingTriggerId then
      Decision(s, [])
    else if verdict == RespondNow then
      Decision(s.(pendingTriggerId := 0, deliberation := Deliberation.Thinking),
               [StartLlm(Trigger("turn_trigger", now))])
    else
      Decision(s.(pendingTriggerId := 0, deliberation := Deliberation.Idle), [EmitInputStored])
  }

  function CallIds(calls: seq<ToolCall>): seq<string> {
    seq(|calls|, i requires 0 <= i < |calls| => calls[i].id)
  }

  function HandleLlmCompleted(cfg: Config, s: DialogueState, c: Candidate, prompt: int, completion: int,
                              now: int): Decision {
    var n := s.(llmCalls := s.llmCalls + 1, promptTokens := s.promptTokens + prompt,
                completionTokens := s.completionTokens + completion,
                lastActivity := now, conversationActive := true);
    match c.kind
    case CallTools =>
      Decision(n.(deliberation := AwaitingToolResults, pendingCallIds := CallIds(c.toolCalls),
                  pendingResults := map[]),
               [RecordToolCallDecision(c), EmitToolCallFrames(c),
                ScheduleTimer(TimerKind.ToolCallTimeout, TOOL_TIMER, now + cfg.toolCallTimeout)])
    case Respond =>
      Decision(n.(deliberation := Deliberation.Idle), [DeliverResponse(c)])
    case Continue =>
      var m := n.(continuations := s.continuations + 1);
      if m.continuations >= cfg.maxContinuations then
        Decision(m.(deliberation := Deliberation.Idle), [SignalBudgetExhausted])
      else
        Decision(m.(deliberation := Deliberation.Thinking), [StartLlm(Trigger("continuation", now))])
  }

  function HandleLlmFailed(s: DialogueState, reason: string): Decision {
    Decision(s.(deliberation := Deliberation.Idle), [EmitDiagnostic(reason), TransitionState(FsmEvent.LlmFailure)])
  }

  function HandleToolResult(s: DialogueState, obs: Observation, now: int): Decision {
    var results := s.pendingResults[obs.source := obs.content];
    var n := s.(lastActivity := now, conversationActive := true, pendingResults := results);
    if forall id :: id in s.pendingCallIds ==> id in results then
      Decision(n.(deliberation := Deliberation.Thinking, pendingCallIds := [], pendingResults := map[]),
               [RecordToolResult(obs), CancelTimer(TOOL_TIMER), StartLlm(Trigger("tool_results_complete", now))])
    else
      Decision(n, [RecordToolResult(obs)])
  }

  function HandleToolCallsTimedOut(s: DialogueState, missing: seq<string>, now: int): Decision {
    Decision(s.(deliberation := Deliberation.Thinking, pendingCallIds := [], pendingResults := map[]),
             [RecordTimeoutResults(missing), StartLlm(Trigger("tool_call_timeout", now))])
  }

  /** The ids without a result, in call order. */
  function Missing(ids: seq<string>, results: map<string, string>): seq<string> {
    if ids == [] then []
    else (if ids[0] in results then [] else [ids[0]]) + Missing(ids[1..], results)
  }

  function HandleTimerExpired(cfg: Config, s: DialogueState, kind: TimerKind, now: int): Decision {
    match kind
    case Debounce => HandleDebounceExpired(cfg, s, now)
    case ToolCallTimeout => HandleToolCallsTimedOut(s, Missing(s.pendingCallIds, s.pendingResults), now)
    case ConversationIdle => Decision(s, [])
    case Aggregation => Decision(s, [])
  }

  function HandleSystemEvent(s: DialogueState, obs: Observation, now: int): Decision {
    if s.deliberation != Deliberation.Idle then Decision(s, [])
    else
      Decision(s.(conversationActive := true, lastActivity := now, deliberation := Deliberation.Thinking),
               [RecordMemory(obs), StartLlm(Trigger(obs.source, now))])
  }

  function HandleContinuation(s: DialogueState, source: string, now: int): Decision {
    if s.deliberation != Deliberation.Idle && s.deliberation != Deliberation.Thinking then Decision(s, [])
    else Decision(s.(deliberation := Deliberation.Thinking), [StartLlm(Trigger(source, now))])
  }

  function HandleUserFragment(s: DialogueState, obs: Observation, now: int): Decision {
    var f := FragmentOf(obs, now);
    Decision(Buffered(s.(lastActivity := now, conversationActive := true), f), [BufferToWorkspace(f, true)])
  }

  function Reduce(cfg: Config, s: DialogueState, e: DialogueEvent): Decision {
    match e
    case InterruptRequested(now) => HandleInterrupt(cfg, s, now)
    case DebounceExpired(now) => HandleDebounceExpired(cfg, s, now)
    case UserMessageReceived(obs, now) => HandleUserMessage(s, obs, now)
    case ShutdownRequested => Decision(s, [])
    case LlmCompleted(c, p, t, now) => HandleLlmCompleted(cfg, s, c, p, t, now)
    case LlmFailed(reason, _) => HandleLlmFailed(s, reason)
    case ToolResultReceived(obs, now) => HandleToolResult(s, obs, now)
    case ToolCallsTimedOut(missing, now) => HandleToolCallsTimedOut(s, missing, now)
    case ContinuationRequested(source, now) => HandleContinuation(s, source, now)
    case SystemEventReceived(obs, now) => HandleSystemEvent(s, obs, now)
    case TimerExpired(kind, _, now) => HandleTimerExpired(cfg, s, kind, now)
    case TurnTriggerClassified(id, verdict, now) => HandleTurnTriggerClassified(s, id, verdict, now)
    case UserFragmentReceived(obs, now) => HandleUserFragment(s, obs, now)
    case AggregationComplete(obs, now) => HandleUserMessage(s, obs, now)
    case AggregationTimeout(obs, now) => HandleUserMessage(s, obs, now)
  }

  /** The reducer's state after a whole sequence of events. */
  function After(cfg: Config, s: DialogueState, events: seq<DialogueEvent>): DialogueState {
    if events == [] then s
    else Reduce(cfg, After(cfg, s, events[..|events| - 1]), events[|events| - 1]).next
  }

  /** The decision taken on event i of the sequence. */
  function DecisionAt(cfg: Config, s: DialogueState, events: seq<DialogueEvent>, i: nat): Decision
    requires i < |events|
  {
    Reduce(cfg, After(cfg, s, events[..i]), events[i])
  }
}
