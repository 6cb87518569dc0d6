/** What decisions and effects amount to for the controller, as statements about values: counters, the states
    it cannot leave, interrupts, dropped messages, and chains of denied tool calls. */
module ControllerLaws {
  import opened Numbers
  import opened DialogueTypes
  import opened DialogueReducer
  import opened TurnTriggers
  import opened TimerBooks
  import opened ControllerModel
  import opened TimerLiveness

  /** How many more one-token completions fit in the token budget. */
  function Fuel(cfg: Config, s: DialogueState): nat {
    if Tokens(s) < cfg.tokenBudget then cfg.tokenBudget - Tokens(s) else 0
  }

  predicate SameTurn(a: DialogueState, b: DialogueState) {
    && a.pendingTriggerId == b.pendingTriggerId
    && a.promptTokens == b.promptTokens && a.completionTokens == b.completionTokens
    && a.actions == b.actions && a.continuations == b.continuations
    && a.deliberation == b.deliberation
  }

  /** The action counter can overshoot its limit only by the rest of the last tool batch. */
  predicate CountersBounded(cfg: Config, s: DialogueState, lastBatch: nat) {
    && s.continuations <= Max(0, cfg.maxContinuations)
    && s.actions <= Max(0, cfg.actionLimit - 1 + lastBatch)
  }

  /** The effect asks the LLM, or has it classified and then asks: the budget is not used up, at least one attempt
      is configured, and a classification is the pending one. */
  predicate Asks(cfg: Config, s: DialogueState, e: Effect) {
    && !BudgetExhausted(cfg, s) && cfg.maxRetries >= 0
    && (e.StartLlm? || e.StartLlmContinuation? || (e.StartTurnTriggerClassification? && e.id == s.pendingTriggerId))
  }

  /** Timers whose expiry resumes the turn. */
  predicate AnswersTurn(kind: TimerKind) {
    kind == TimerKind.Debounce || kind == TimerKind.ToolCallTimeout
  }

  /** A turn that starts with fresh counters may ask the LLM at least once. */
  predicate AllowsAsking(cfg: Config) {
    cfg.maxRetries >= 0 && cfg.tokenBudget > 0 && cfg.actionLimit > 0 && cfg.maxContinuations > 0
  }

  /** The message is buffered by the reducer rather than dropped. */
  predicate Takes(s: DialogueState) {
    s.cooldown == Debouncing || s.deliberation == AwaitingTurnTrigger || s.deliberation == Deliberation.Idle
  }

  /** The id a tool result is paired under. */
  function ResultId(s: DialogueState, obs: Observation): string {
    if obs.resultId != "" then obs.resultId
    else
      var missing := Missing(s.pendingCallIds, s.pendingResults);
      if missing == [] then "" else missing[0]
  }

  /** Nothing but aggregation timers is pending and the reducer will not take another user message:
      either thinking was abandoned for lack of budget, or the FSM is in Error. */
  ghost predicate Wedged(v: View) {
    && (forall id :: id in v.timers ==> v.timers[id].kind == TimerKind.Aggregation)
    && (|| ((v.fsm == FsmState.Idle || v.fsm == Listening)
            && v.ds.cooldown == NoCooldown && v.ds.deliberation == Deliberation.Thinking)
        || (v.fsm == Error && v.timers == map[]))
  }

  /** With a result under this id every pending call has one. */
  predicate Completes(s: DialogueState, id: string) {
    forall x :: x in s.pendingCallIds ==> x == id || x in s.pendingResults
  }

  /** This id completes the pending calls, and the turn's budget is used up. */
  ghost predicate LastResult(cfg: Config, v: View, id: string) {
    && v.fsm == Acting && v.ds.cooldown == NoCooldown
    && Completes(v.ds, id)
    && BudgetExhausted(cfg, v.ds)
    && (forall x :: x in v.timers && x != TOOL_TIMER ==> v.timers[x].kind == TimerKind.Aggregation)
  }

  lemma ReadySettles(cfg: Config, filter: string -> string, v: View, e: DialogueEvent)
    requires ReadyToThink(v) && (e.LlmCompleted? || e.LlmFailed?)
    ensures var d := Reduce(cfg, v.ds, e); Owes(cfg, filter, v.(ds := d.next), d.effects)
  {
    RipeEventsSettle(cfg, filter, v, e);
  }

  lemma {:induction false} ApplyKeeps(cfg: Config, filter: string -> string, v: View, e: Effect)
    requires !Recursive(e) && (e.TransitionState? ==> e.event == FsmEvent.LlmFailure)
    ensures v.history <= Apply(cfg, filter, v, e).history
    ensures v.fsm == Error ==> Apply(cfg, filter, v, e).fsm == Error
    ensures Apply(cfg, filter, v, e).queue == v.queue || Apply(cfg, filter, v, e).queue == []
  {
    hide Target, Delivered, Entries, MergeEntry, Timeouts;
    forall x: FsmEvent | x != Recover && x != FsmEvent.Shutdown ensures v.fsm == Error ==> Fire(v, x).fsm == Error {
      ErrorStays(v, x);
    }
    if e.DeliverResponse? { DeliveryKeeps(cfg, v, filter(e.action.responseText)); }
    if e.RecordTimeoutResults? { ErrorStays(v.(history := v.history + Timeouts(e.missing)), ActionFailed); }
  }

  lemma ErrorStays(v: View, e: FsmEvent)
    requires e != Recover && e != FsmEvent.Shutdown
    ensures v.fsm == Error ==> Fire(v, e) == v
  {}

  lemma DeliveryKeeps(cfg: Config, v: View, text: string)
    ensures v.history <= Delivered(cfg, v, text).history
    ensures v.fsm == Error ==> Delivered(cfg, v, text).fsm == Error
    ensures Delivered(cfg, v, text).queue == v.queue || Delivered(cfg, v, text).queue == []
  {
    hide Fire;
    forall w: View, x: FsmEvent | x != Recover && x != FsmEvent.Shutdown
      ensures Fire(w, x).history == w.history && (w.fsm == Error ==> Fire(w, x).fsm == Error)
      ensures Fire(w, x).queue == w.queue || Fire(w, x).queue == []
    {
      FireKeeps(w, x);
    }
  }

  lemma FireKeeps(v: View, e: FsmEvent)
    requires e != Recover && e != FsmEvent.Shutdown
    ensures Fire(v, e).history == v.history && (v.fsm == Error ==> Fire(v, e).fsm == Error)
    ensures Fire(v, e).queue == v.queue || Fire(v, e).queue == []
    ensures Fire(v, e).ds == v.ds && Fire(v, e).timers == v.timers
  {}

  lemma ApplyAllCons(cfg: Config, filter: string -> string, v: View, e: Effect, rest: seq<Effect>)
    ensures ApplyAll(cfg, filter, v, [e] + rest) == ApplyAll(cfg, filter, Apply(cfg, filter, v, e), rest)
    ensures ApplyAll(cfg, filter, v, [e]) == Apply(cfg, filter, v, e)
  {
    assert ([e] + rest)[1..] == rest;
    assert [e][1..] == [];
  }

  lemma QuietAggregation(v: View)
    requires Settled(v)
    ensures v.timers - {AGGREGATION_TIMER} == v.timers
  {}

  lemma ActingAwaits(v: View)
    requires Settled(v) && v.fsm == Acting
    ensures v.ds.deliberation == AwaitingToolResults
  {}

  lemma InterruptIsRipe(v: View, now: int)
    requires Settled(v) && (v.fsm == FsmState.Thinking || v.fsm == Routing || v.fsm == Acting)
    ensures Ripe(v, InterruptRequested(now))
  {}

  lemma InterruptedHistory(h: seq<HistoryEntry>, groups: seq<seq<Fragment>>)
    requires forall g :: g in groups ==> g != []
    ensures UserEntries(h + Entries(groups) + [InterruptedEntry]) == UserEntries(h) + Entries(groups)
    ensures h <= h + Entries(groups) + [InterruptedEntry]
  {
    UserEntriesConcat(h + Entries(groups), [InterruptedEntry]);
    UserEntriesConcat(h, Entries(groups));
    AllUserEntries(Entries(groups));
    NoUserEntries([InterruptedEntry]);
  }

  function DebounceOpened(cfg: Config, s: DialogueState, timers: Timers, now: int): Timers {
    var armed := timers[DEBOUNCE_TIMER := Timer(TimerKind.Debounce, now + cfg.debounceDuration)];
    if s.deliberation == AwaitingToolResults then armed - {TOOL_TIMER} else armed
  }

  lemma {:induction false} InterruptTailOutcome(
    cfg: Config, filter: string -> string, s: DialogueState, u: View, now: int)
    requires u.fsm == FsmState.Thinking || u.fsm == Routing || u.fsm == Acting
    ensures ApplyAll(cfg, filter, u, InterruptTail(cfg, s, now)) ==
      u.(fsm := Listening, history := u.history + [InterruptedEntry], timers := DebounceOpened(cfg, s, u.timers, now))
  {
    hide ApplyAll, Apply;
    var schedule := ScheduleTimer(TimerKind.Debounce, DEBOUNCE_TIMER, now + cfg.debounceDuration);
    var last := if s.deliberation == AwaitingToolResults then [CancelTimer(TOOL_TIMER)] else [];
    var u1 := u.(fsm := Listening);
    var u2 := u1.(history := u1.history + [InterruptedEntry]);
    var u3 := u2.(timers := u2.timers[DEBOUNCE_TIMER := Timer(TimerKind.Debounce, now + cfg.debounceDuration)]);
    ApplyCancelLlm(cfg, filter, u);
    ApplyInterruptMemory(cfg, filter, u1);
    ApplySchedule(cfg, filter, u2, TimerKind.Debounce, DEBOUNCE_TIMER, now + cfg.debounceDuration);
    ApplyCancelTimer(cfg, filter, u3, TOOL_TIMER);
    ApplyAllCons(cfg, filter, u, CancelLlm, [RecordInterruptMemory] + ([schedule] + last));
    ApplyAllCons(cfg, filter, u1, RecordInterruptMemory, [schedule] + last);
    ApplyAllCons(cfg, filter, u2, schedule, last);
    ApplyAllNil(cfg, filter, u3);
    if last != [] { ApplyAllCons(cfg, filter, u3, CancelTimer(TOOL_TIMER), []); }
  }

  /** An interrupt commits the workspace merged, returns to Listening and opens the debounce window. */
  lemma {:induction false} InterruptOutcome(cfg: Config, filter: string -> string, v: View, now: int)
    requires v.ds.workspace.partial == None && (v.fsm == FsmState.Thinking || v.fsm == Routing || v.fsm == Acting)
    ensures forall g :: g in Grouping(v.ds.workspace.fragments, true) ==> g != []
    ensures var d := HandleInterrupt(cfg, v.ds, now);
      ApplyAll(cfg, filter, v.(ds := d.next), d.effects) ==
        v.(fsm := Listening, ds := d.next.(workspace := Workspace([], None)),
           history := v.history + Entries(Grouping(v.ds.workspace.fragments, true)) + [InterruptedEntry],
           timers := DebounceOpened(cfg, v.ds, v.timers, now))
  {
    hide ApplyAll, DebounceOpened, Entries;
    var d := HandleInterrupt(cfg, v.ds, now);
    var w := v.(ds := d.next);
    var tail := InterruptTail(cfg, v.ds, now);
    if v.ds.workspace.fragments != [] {
      assert d.effects == [CommitWorkspace(true)] + tail;
      ApplyAllCons(cfg, filter, w, CommitWorkspace(true), tail);
      InterruptTailOutcome(cfg, filter, v.ds, Committed(w, true), now);
    } else {
      assert d.effects == tail;
      InterruptTailOutcome(cfg, filter, v.ds, w, now);
      NoEntries(v.history);
    }
  }

  lemma NoEntries(h: seq<HistoryEntry>)
    ensures h + Entries([]) == h
  {}

  lemma ApplyAllNil(cfg: Config, filter: string -> string, v: View)
    ensures ApplyAll(cfg, filter, v, []) == v
  {}

  lemma BufferOutcome(cfg: Config, filter: string -> string, v: View, f: Fragment)
    ensures ApplyAll(cfg, filter, v, [BufferToWorkspace(f, true)]) == v
  {
    ApplyAllCons(cfg, filter, v, BufferToWorkspace(f, true), []);
  }

  /** A user message the reducer does not take changes nothing at all. */
  lemma {:induction false} DroppedOutcome(cfg: Config, filter: string -> string, v: View, e: DialogueEvent)
    requires UserMessageEvent(e)
    ensures Takes(v.ds) <==> AcceptedBy(v.ds, e) != []
    ensures !Takes(v.ds) ==>
      && Reduce(cfg, v.ds, e) == Decision(v.ds, [])
      && ApplyAll(cfg, filter, v, []) == v
  {}

  /** What two states of one turn have in common; only a recursive effect asks. */
  lemma TurnFacts(cfg: Config, s: DialogueState, t: DialogueState, e: Effect)
    ensures SameTurn(s, s)
    ensures SameTurn(s, t) ==>
      && Fuel(cfg, s) == Fuel(cfg, t) && s.actions == t.actions
      && BudgetExhausted(cfg, s) == BudgetExhausted(cfg, t) && Asks(cfg, s, e) == Asks(cfg, t, e)
    ensures Asks(cfg, t, e) ==> Recursive(e)
  {}

  lemma SameTurnTransitive(s: DialogueState, t: DialogueState, u: DialogueState)
    ensures SameTurn(s, t) && SameTurn(t, u) ==> SameTurn(s, u)
  {}

  /** The event's decision asks the LLM. */
  ghost predicate Decides(cfg: Config, s: DialogueState, e: DialogueEvent) {
    exists x :: x in Reduce(cfg, s, e).effects && Asks(cfg, Reduce(cfg, s, e).next, x)
  }

  /** The decision can be run without asking the LLM. */
  ghost predicate QuietDecision(cfg: Config, d: Decision) {
    forall x :: x in d.effects ==> Quiet(x, BudgetExhausted(cfg, d.next))
  }

  ghost function Outcome(cfg: Config, filter: string -> string, v: View, e: DialogueEvent): View {
    var d := Reduce(cfg, v.ds, e);
    ApplyAll(cfg, filter, v.(ds := d.next), d.effects)
  }

  predicate NoneRecursive(es: seq<Effect>, n: nat)
    requires n <= |es|
  {
    forall j :: 0 <= j < n ==> !Recursive(es[j])
  }

  predicate AllQuiet(es: seq<Effect>, n: nat, exhausted: bool)
    requires n <= |es|
  {
    forall j :: 0 <= j < n ==> Quiet(es[j], exhausted)
  }

  predicate NoneClassifies(es: seq<Effect>, n: nat)
    requires n <= |es|
  {
    forall j :: 0 <= j < n ==> !es[j].StartTurnTriggerClassification?
  }

  predicate SomeAsks(cfg: Config, s: DialogueState, es: seq<Effect>, n: nat)
    requires n <= |es|
  {
    exists j :: 0 <= j < n && Asks(cfg, s, es[j])
  }

  /** Running the effects in order, one more at a time. */
  lemma PrefixStep(cfg: Config, s: DialogueState, es: seq<Effect>, i: nat, exhausted: bool)
    requires i < |es|
    ensures NoneRecursive(es, i + 1) <==> NoneRecursive(es, i) && !Recursive(es[i])
    ensures AllQuiet(es, i + 1, exhausted) <==> AllQuiet(es, i, exhausted) && Quiet(es[i], exhausted)
    ensures SomeAsks(cfg, s, es, i + 1) <==> SomeAsks(cfg, s, es, i) || Asks(cfg, s, es[i])
    ensures NoneClassifies(es, i + 1) <==> NoneClassifies(es, i) && !es[i].StartTurnTriggerClassification?
  {
    hide Recursive, Quiet, Asks;
  }

  lemma PrefixEnds(cfg: Config, s: DialogueState, e: DialogueEvent, exhausted: bool)
    ensures var d := Reduce(cfg, s, e);
      && NoneRecursive(d.effects, 0) && AllQuiet(d.effects, 0, exhausted) && !SomeAsks(cfg, d.next, d.effects, 0)
      && (exhausted == BudgetExhausted(cfg, d.next) ==>
            (AllQuiet(d.effects, |d.effects|, exhausted) <==> QuietDecision(cfg, d)))
      && (SomeAsks(cfg, d.next, d.effects, |d.effects|) <==> Decides(cfg, s, e))
  {
    hide Reduce, Recursive, Quiet, Asks;
  }

  /** EffectLaw, for one effect about to be run. */
  lemma EffectPlaced(cfg: Config, s: DialogueState, e: DialogueEvent, i: nat)
    requires i < |Reduce(cfg, s, e).effects|
    ensures var es := Reduce(cfg, s, e).effects;
      && (Recursive(es[i]) ==> Level(e) >= 2 && NoneRecursive(es, i))
      && (es[i].StartTurnTriggerClassification? ==> Level(e) == 3)
      && (es[i].EmitToolCallFrames? ==> e.LlmCompleted? && Recursive(es[i]))
      && (es[i].StartLlm? ==> es[i].trigger.kind == ObservationKind.Continuation)
      && (es[i].TransitionState? ==> es[i].event == FsmEvent.LlmFailure)
      && (es[i].DiscardWorkspace? ==> s.workspace.partial.Some?)
      && (!Recursive(es[i]) ==> forall x :: Quiet(es[i], x))
      && (es[i].SignalBudgetExhausted? ==> NoneRecursive(es, i) && BudgetExhausted(cfg, Reduce(cfg, s, e).next))
  {
    hide Reduce, Level, BudgetExhausted;
    EffectLaw(cfg, s, e, i);
  }

  lemma DecidesAt(cfg: Config, s: DialogueState, e: DialogueEvent, i: nat)
    requires var d := Reduce(cfg, s, e); i < |d.effects| && Asks(cfg, d.next, d.effects[i])
    ensures Decides(cfg, s, e)
  {
    hide Reduce, Asks;
  }

  lemma VerdictAsks(cfg: Config, s: DialogueState, id: nat, now: int)
    requires id == s.pendingTriggerId && !BudgetExhausted(cfg, s) && cfg.maxRetries >= 0
    ensures Decides(cfg, s, TurnTriggerClassified(id, RespondNow, now))
  {
    hide Decides;
    DecidesAt(cfg, s, TurnTriggerClassified(id, RespondNow, now), 0);
  }

  /** A message that starts a turn is answered. */
  lemma {:induction false} NewTurnAsks(cfg: Config, s: DialogueState, e: DialogueEvent)
    requires StartsTurn(s, e) && AllowsAsking(cfg)
    ensures Decides(cfg, s, e)
  {
    hide Decides;
    DecidesAt(cfg, s, e, |StartUserTurn(s, e.obs, e.now).effects| - 1);
  }

  /** So is the completing result, as long as something is left of the budget. */
  lemma {:induction false} CompletionAsks(cfg: Config, s: DialogueState, obs: Observation, now: int)
    requires Completes(s, obs.source) && !BudgetExhausted(cfg, s) && cfg.maxRetries >= 0
    ensures Decides(cfg, s, ToolResultReceived(obs, now))
  {
    hide Decides;
    DecidesAt(cfg, s, ToolResultReceived(obs, now), 2);
  }

  /** And so is the end of the debounce window or of the wait for tools. */
  lemma {:induction false} TimerAsks(cfg: Config, s: DialogueState, kind: TimerKind, id: string, now: int)
    requires AnswersTurn(kind) && !BudgetExhausted(cfg, s) && cfg.maxRetries >= 0
    ensures Decides(cfg, s, TimerExpired(kind, id, now))
  {
    hide Decides;
    DecidesAt(cfg, s, TimerExpired(kind, id, now), 1);
  }

  lemma {:induction false} SystemEventAsks(cfg: Config, s: DialogueState, obs: Observation, now: int)
    requires s.deliberation == Deliberation.Idle && !BudgetExhausted(cfg, s) && cfg.maxRetries >= 0
    ensures Decides(cfg, s, SystemEventReceived(obs, now))
  {
    hide Decides;
    DecidesAt(cfg, s, SystemEventReceived(obs, now), 1);
  }

  /** A tool completion is recorded, acted on, and given a timeout. */
  lemma ToolBatch(cfg: Config, s: DialogueState, e: DialogueEvent)
    requires e.LlmCompleted? && e.candidate.kind == CallTools
    ensures var es := Reduce(cfg, s, e).effects;
      && |es| == 3 && es[1] == EmitToolCallFrames(e.candidate)
      && es[2].ScheduleTimer? && es[2].kind == TimerKind.ToolCallTimeout && es[2].timerId == TOOL_TIMER
  {}

  /** After one more continuation and these tokens, the turn may still go on. */
  predicate LeavesRoom(cfg: Config, s: DialogueState, tokens: int) {
    Tokens(s) + tokens < cfg.tokenBudget && s.actions < cfg.actionLimit && s.continuations + 1 < cfg.maxContinuations
  }

  lemma {:induction false} ContinuationAsks(
    cfg: Config, s: DialogueState, c: Candidate, prompt: int, completion: int, now: int)
    requires c.kind == Continue && cfg.maxRetries >= 0 && LeavesRoom(cfg, s, prompt + completion)
    ensures Decides(cfg, s, LlmCompleted(c, prompt, completion, now))
  {
    hide Decides;
    DecidesAt(cfg, s, LlmCompleted(c, prompt, completion, now), 0);
  }

  /** A response is delivered and nothing else happens. */
  function AfterResponse(
    cfg: Config, filter: string -> string, v: View, c: Candidate, prompt: int, completion: int, now: int): View {
    Delivered(cfg, v.(ds := HandleLlmCompleted(cfg, v.ds, c, prompt, completion, now).next), filter(c.responseText))
  }

  lemma {:induction false} ResponseOutcome(
    cfg: Config, filter: string -> string, v: View, c: Candidate, prompt: int, completion: int, now: int)
    requires c.kind == Respond
    ensures var d := Reduce(cfg, v.ds, LlmCompleted(c, prompt, completion, now));
      && (forall x, b :: x in d.effects ==> Quiet(x, b))
      && ApplyAll(cfg, filter, v.(ds := d.next), d.effects) == AfterResponse(cfg, filter, v, c, prompt, completion, now)
  {
    hide ApplyAll, Delivered;
    var d := Reduce(cfg, v.ds, LlmCompleted(c, prompt, completion, now));
    ApplyAllCons(cfg, filter, v.(ds := d.next), DeliverResponse(c), []);
  }

  /** Waking from Idle leaves room to ask. */
  lemma FreshTurnAllows(cfg: Config, s: DialogueState)
    requires AllowsAsking(cfg)
    ensures !BudgetExhausted(cfg, ResetTurnCounters(s).(pendingCallIds := [], pendingResults := map[]))
  {}

  /** While a turn is under way a system event changes nothing. */
  lemma {:induction false} SystemEventIgnored(cfg: Config, filter: string -> string, v: View, e: DialogueEvent)
    requires e.SystemEventReceived?
    ensures AcceptedBy(v.ds, e) == []
    ensures v.ds.deliberation != Deliberation.Idle ==>
      Reduce(cfg, v.ds, e) == Decision(v.ds, []) && ApplyAll(cfg, filter, v, []) == v
  {}

  /** The effects of a completing result, run with nothing left of the budget. */
  lemma {:induction false} CompletingEffects(
    cfg: Config, filter: string -> string, w: View, obs: Observation, start: Effect)
    requires start.StartLlm?
    ensures var recorded := w.(history := w.history + [ToolResultEntry(PairedId(obs), obs.content)]);
      ApplyAll(cfg, filter, w, [RecordToolResult(obs), CancelTimer(TOOL_TIMER), start]) ==
        Fire(BeforeThinking(recorded.(timers := w.timers - {TOOL_TIMER}), true), StopConditionMet)
  {
    hide ApplyAll, Fire, BeforeThinking;
    assert [RecordToolResult(obs), CancelTimer(TOOL_TIMER), start] ==
      [RecordToolResult(obs)] + ([CancelTimer(TOOL_TIMER)] + [start]);
    var w1 := Apply(cfg, filter, w, RecordToolResult(obs));
    var w2 := w1.(timers := w1.timers - {TOOL_TIMER});
    ApplyAllCons(cfg, filter, w, RecordToolResult(obs), [CancelTimer(TOOL_TIMER)] + [start]);
    ApplyAllCons(cfg, filter, w1, CancelTimer(TOOL_TIMER), [start]);
    ApplyAllCons(cfg, filter, w2, start, []);
  }

  /** The last result of a batch arriving with the budget used up leaves the controller wedged. */
  lemma {:induction false} LastResultOutcome(cfg: Config, filter: string -> string, v: View, obs: Observation, now: int)
    requires LastResult(cfg, v, obs.source)
    ensures var d := HandleToolResult(v.ds, obs, now);
      && BudgetExhausted(cfg, d.next)
      && (forall x :: x in d.effects ==> Quiet(x, true))
      && Wedged(ApplyAll(cfg, filter, v.(ds := d.next), d.effects))
  {
    hide ApplyAll, Apply;
    var d := HandleToolResult(v.ds, obs, now);
    var start := StartLlm(Trigger("tool_results_complete", now));
    assert d.effects == [RecordToolResult(obs), CancelTimer(TOOL_TIMER), start];
    CompletingEffects(cfg, filter, v.(ds := d.next), obs, start);
  }

  /** A message the aggregator has let through is buffered or dropped, and asks if it starts a turn. */
  lemma {:induction false} MessageOutcome(cfg: Config, filter: string -> string, v: View, obs: Observation, now: int)
    ensures var e := AggregationComplete(obs, now);
      && AcceptedBy(v.ds, e) == (if Takes(v.ds) then [FragmentOf(obs, now)] else [])
      && (!Takes(v.ds) ==> QuietDecision(cfg, Reduce(cfg, v.ds, e)) && Outcome(cfg, filter, v, e) == v)
      && (Takes(v.ds) && v.ds.cooldown == NoCooldown && AllowsAsking(cfg) ==> Decides(cfg, v.ds, e))
  {
    hide Decides, AllowsAsking;
    var e := AggregationComplete(obs, now);
    DroppedOutcome(cfg, filter, v, e);
    if Takes(v.ds) && v.ds.cooldown == NoCooldown && AllowsAsking(cfg) { NewTurnAsks(cfg, v.ds, e); }
  }

  /** The same as a decision, beside the case in which the budget lasts. */
  lemma {:induction false} ResultOutcome(cfg: Config, filter: string -> string, v: View, obs: Observation, now: int)
    ensures AcceptedBy(v.ds, ToolResultReceived(obs, now)) == []
    ensures LastResult(cfg, v, obs.source) ==>
      && QuietDecision(cfg, Reduce(cfg, v.ds, ToolResultReceived(obs, now)))
      && Wedged(Outcome(cfg, filter, v, ToolResultReceived(obs, now)))
    ensures Completes(v.ds, obs.source) && !BudgetExhausted(cfg, v.ds) && cfg.maxRetries >= 0 ==>
      Decides(cfg, v.ds, ToolResultReceived(obs, now))
  {
    hide ApplyAll, Wedged, LastResult, Completes, Decides, HandleToolResult, BudgetExhausted;
    if LastResult(cfg, v, obs.source) { LastResultOutcome(cfg, filter, v, obs, now); }
    if Completes(v.ds, obs.source) && !BudgetExhausted(cfg, v.ds) && cfg.maxRetries >= 0 {
      CompletionAsks(cfg, v.ds, obs, now);
    }
  }

  lemma {:induction false} FailureOutcome(cfg: Config, filter: string -> string, v: View, e: DialogueEvent)
    requires e.LlmFailed?
    ensures var d := Reduce(cfg, v.ds, e);
      && (forall x :: x in d.effects ==> !Recursive(x))
      && ApplyAll(cfg, filter, v.(ds := d.next), d.effects) == Fire(v.(ds := d.next), FsmEvent.LlmFailure)
      && (v.fsm == FsmState.Thinking ==> Fire(v.(ds := d.next), FsmEvent.LlmFailure).fsm == Error)
      && (v.fsm == FsmState.Thinking && v.timers == map[] ==>
            Wedged(ApplyAll(cfg, filter, v.(ds := d.next), d.effects)))
  {
    var w := v.(ds := HandleLlmFailed(v.ds, e.reason).next);
    var fail := TransitionState(FsmEvent.LlmFailure);
    assert HandleLlmFailed(v.ds, e.reason).effects == [EmitDiagnostic(e.reason)] + [fail];
    ApplyAllCons(cfg, filter, w, EmitDiagnostic(e.reason), [fail]);
    ApplyAllCons(cfg, filter, w, fail, []);
  }

  /** The dialogue state after some completions in a row asked for tools that the policy denied. */
  function DeniedRounds(cfg: Config, s: DialogueState, c: Candidate, usages: seq<(int, int)>): DialogueState {
    if usages == [] then s
    else
      var last := usages[|usages| - 1];
      Reduce(cfg, DeniedRounds(cfg, s, c, usages[..|usages| - 1]), LlmCompleted(c, last.0, last.1, 0)).next
  }

  function TotalUsage(usages: seq<(int, int)>): int {
    if usages == [] then 0
    else TotalUsage(usages[..|usages| - 1]) + usages[|usages| - 1].0 + usages[|usages| - 1].1
  }

  lemma {:induction false} DeniedRoundsCount(cfg: Config, s: DialogueState, c: Candidate, usages: seq<(int, int)>)
    requires c.kind == CallTools
    ensures var t := DeniedRounds(cfg, s, c, usages);
      Tokens(t) == Tokens(s) + TotalUsage(usages) && t.actions == s.actions && t.continuations == s.continuations
    decreases |usages|
  {
    hide Reduce, Tokens;
    if usages != [] {
      var before, last := usages[..|usages| - 1], usages[|usages| - 1];
      DeniedRoundsCount(cfg, s, c, before);
      CounterLaw(cfg, DeniedRounds(cfg, s, c, before), LlmCompleted(c, last.0, last.1, 0));
      NoTurnStarts(DeniedRounds(cfg, s, c, before), LlmCompleted(c, last.0, last.1, 0));
    }
  }

  lemma NoTurnStarts(s: DialogueState, e: DialogueEvent)
    requires e.LlmCompleted?
    ensures !StartsTurn(s, e)
  {}

  /** A chain of denied tool calls, whatever each completion reports: the budget check stops it after these rounds
      if and only if they have used up what was left of the token budget. */
  lemma DenialsStopIff(cfg: Config, s: DialogueState, c: Candidate, usages: seq<(int, int)>)
    requires c.kind == CallTools && !BudgetExhausted(cfg, s)
    ensures BudgetExhausted(cfg, DeniedRounds(cfg, s, c, usages)) <==> TotalUsage(usages) >= cfg.tokenBudget - Tokens(s)
  {
    DeniedRoundsCount(cfg, s, c, usages);
  }

  function Steady(usage: (int, int), n: nat): seq<(int, int)> {
    seq(n, _ => usage)
  }

  lemma {:induction false} SteadyTotal(usage: (int, int), n: nat)
    ensures TotalUsage(Steady(usage, n)) == n * (usage.0 + usage.1)
  {
    if n > 0 {
      SteadyTotal(usage, n - 1);
      assert Steady(usage, n)[..n - 1] == Steady(usage, n - 1);
      assert n * (usage.0 + usage.1) == (n - 1) * (usage.0 + usage.1) + (usage.0 + usage.1);
    }
  }

  /** Why a completion must report a token: with one fixed usage the chain ends if and only if it is positive. */
  lemma SteadyDenialsEndIff(cfg: Config, s: DialogueState, c: Candidate, usage: (int, int))
    requires c.kind == CallTools && !BudgetExhausted(cfg, s)
    ensures (exists n: nat :: BudgetExhausted(cfg, DeniedRounds(cfg, s, c, Steady(usage, n))))
      <==> usage.0 + usage.1 >= 1
  {
    hide BudgetExhausted, DeniedRounds, Steady;
    var u := usage.0 + usage.1;
    var left := cfg.tokenBudget - Tokens(s);
    assert left > 0 by { BudgetLeft(cfg, s); }
    if u >= 1 {
      DenialsStopIff(cfg, s, c, Steady(usage, left));
      SteadyTotal(usage, left);
      assert left * u >= left * 1;
    } else {
      forall n: nat ensures !BudgetExhausted(cfg, DeniedRounds(cfg, s, c, Steady(usage, n))) {
        DenialsStopIff(cfg, s, c, Steady(usage, n));
        SteadyTotal(usage, n);
        assert n * u <= 0;
      }
    }
  }

  lemma BudgetLeft(cfg: Config, s: DialogueState)
    requires !BudgetExhausted(cfg, s)
    ensures Tokens(s) < cfg.tokenBudget
  {}

  /** No timer of m is due. */
  ghost predicate NothingDue(m: Timers, now: int) {
    forall id :: id in m ==> now < m[id].deadline
  }

  lemma SomethingWasDue(m: Timers, now: int, fired: seq<TimerEntry>)
    requires Fired(m, now, fired) && fired != []
    ensures !NothingDue(m, now)
  {
    assert fired[0] in fired;
  }

  lemma NothingRemoved(m: Timers, now: int)
    requires NothingDue(m, now)
    ensures Remaining(m, now) == m
  {}

  lemma {:induction false} HarvestKeepsWedge(v: View, now: int, fired: seq<TimerEntry>, w: View)
    requires Wedged(v) && Fired(v.timers, now, fired) && w == v.(timers := Remaining(v.timers, now))
    ensures Wedged(w) && (v.fsm == Error ==> fired == [])
    ensures forall e :: e in fired ==> e.kind == TimerKind.Aggregation
  {
    assert fired != [] ==> fired[0] in fired;
    if v.timers == map[] { assert w.timers == map[]; }
  }

  /** What harvesting takes out, and what it leaves. */
  lemma DueTimers(v: View, now: int, fired: seq<TimerEntry>, w: View)
    requires Fired(v.timers, now, fired) && w == v.(timers := Remaining(v.timers, now))
    ensures NothingDue(v.timers, now) ==> fired == [] && w == v
    ensures Settled(v) ==> |fired| <= 1 && (fired == [] ==> w == v)
    ensures Settled(v) && |fired| == 1 ==> forall t :: Ripe(w, TimerExpired(fired[0].kind, fired[0].id, t))
    ensures Wedged(v) ==> Wedged(w) && (v.fsm == Error ==> fired == [])
    ensures Wedged(v) ==> forall e :: e in fired ==> e.kind == TimerKind.Aggregation
  {
    hide Fired, Remaining, NothingDue, Settled, Ripe, Wedged;
    if fired != [] { SomethingWasDue(v.timers, now, fired); }
    if NothingDue(v.timers, now) { NothingRemoved(v.timers, now); }
    if Settled(v) { HarvestIsRipe(v, now, fired, w); }
    if Wedged(v) { HarvestKeepsWedge(v, now, fired, w); }
  }

  lemma QuietStart(cfg: Config, filter: string -> string, v: View, e: Effect, ok: bool)
    requires e.StartLlm? || e.StartLlmContinuation?
    ensures Apply(cfg, filter, v, e) ==
      Fire(if e.StartLlm? then BeforeThinking(v, ok) else Fire(v, UserObservation), StopConditionMet)
  {
    hide BeforeThinking, Fire;
    EitherWayThinks(v, ok);
  }

  /** Whether the tools succeeded does not matter to where thinking starts. */
  lemma EitherWayThinks(v: View, ok: bool)
    ensures BeforeThinking(v, ok) == BeforeThinking(v, true)
  {}

  lemma SingleEntry(f: Fragment)
    ensures MergeEntry([f]) == UserEntry(f.content, f.source, f.timestamp)
  {
    assert MergedContent([f][..0]) == "";
    assert "" + f.content == f.content;
    assert [f][..|[f]| - 1] == [f][..0];
  }

  /** What an event does to the turn counters. */
  lemma {:induction false} CounterLaw(cfg: Config, s: DialogueState, e: DialogueEvent)
    ensures var n := Reduce(cfg, s, e).next;
      if StartsTurn(s, e) then n.actions == 0 && n.continuations == 0 && Tokens(n) == 0
      else
        && n.actions == s.actions
        && n.continuations == s.continuations + (if e.LlmCompleted? && e.candidate.kind == Continue then 1 else 0)
        && Tokens(n) == Tokens(s) + (if e.LlmCompleted? then e.promptTokens + e.completionTokens else 0)
  {}

  lemma {:induction false} CommitKeepsOrder(
    history: seq<HistoryEntry>, groups: seq<seq<Fragment>>, fs: seq<Fragment>, merge: bool)
    requires forall g :: g in groups ==> g != []
    ensures var added := Grouping(fs, merge);
      && (forall g :: g in added ==> g != [])
      && UserEntries(history + Entries(added)) == UserEntries(history) + Entries(added)
      && Entries(groups + added) == Entries(groups) + Entries(added)
      && Flatten(groups + added) == Flatten(groups) + fs
  {
    hide Grouping, Entries, Flatten, UserEntries;
    var added := Grouping(fs, merge);
    GroupingFlattens(fs, merge);
    UserEntriesConcat(history, Entries(added));
    EntriesAreUser(added);
    AllUserEntries(Entries(added));
    FlattenConcat(groups, added);
    EntriesConcat(groups, added);
  }

  lemma EntriesAreUser(groups: seq<seq<Fragment>>)
    requires forall g :: g in groups ==> g != []
    ensures forall e :: e in Entries(groups) ==> e.UserEntry?
  {}

  lemma EntriesConcat(a: seq<seq<Fragment>>, b: seq<seq<Fragment>>)
    requires (forall g :: g in a ==> g != []) && (forall g :: g in b ==> g != [])
    ensures forall g :: g in a + b ==> g != []
    ensures Entries(a + b) == Entries(a) + Entries(b)
  {
    hide MergeEntry;
  }

  // ---------- which events leave the controller wedged ----------

  /** Effects that cannot re-enter the reducer leave the phases alone, and only a failure leads to Error. */
  lemma {:induction false} QuietKeepsPhase(cfg: Config, filter: string -> string, v: View, es: seq<Effect>)
    requires forall x :: x in es ==> (x.TransitionState? ==> x.event != FsmEvent.LlmFailure)
    ensures var w := ApplyAll(cfg, filter, v, es);
      && w.ds.deliberation == v.ds.deliberation && w.ds.cooldown == v.ds.cooldown
      && (v.fsm != Error ==> w.fsm != Error)
    decreases |es|
  {
    hide Apply;
    if es != [] {
      OnePhaseKept(cfg, filter, v, es[0]);
      QuietKeepsPhase(cfg, filter, Apply(cfg, filter, v, es[0]), es[1..]);
    }
  }

  lemma {:induction false} NoErrorFired(v: View, e: FsmEvent)
    requires e != FsmEvent.LlmFailure
    ensures v.fsm != Error ==> Fire(v, e).fsm != Error
    ensures Fire(v, e).ds == v.ds && Fire(v, e).timers == v.timers
  {}

  lemma {:induction false} OnePhaseKept(cfg: Config, filter: string -> string, v: View, e: Effect)
    requires e.TransitionState? ==> e.event != FsmEvent.LlmFailure
    ensures var w := Apply(cfg, filter, v, e);
      && w.ds.deliberation == v.ds.deliberation && w.ds.cooldown == v.ds.cooldown
      && (v.fsm != Error ==> w.fsm != Error)
  {
    hide Fire, Entries, Timeouts;
    forall w: View, x: FsmEvent | x != FsmEvent.LlmFailure
      ensures (w.fsm != Error ==> Fire(w, x).fsm != Error) && Fire(w, x).ds == w.ds
    {
      NoErrorFired(w, x);
    }
  }

  /** The phase the reducer cannot leave by itself: thinking, outside the debounce window. */
  predicate Stuck(s: DialogueState) {
    s.deliberation == Deliberation.Thinking && s.cooldown == NoCooldown
  }

  lemma {:induction false} NotStuckNotWedged(cfg: Config, filter: string -> string, v: View, e: DialogueEvent)
    requires v.fsm != Error && !e.LlmFailed? && !Stuck(Reduce(cfg, v.ds, e).next)
    ensures !Wedged(Outcome(cfg, filter, v, e))
  {
    hide Reduce, ApplyAll, Apply;
    var d := Reduce(cfg, v.ds, e);
    forall x | x in d.effects ensures !x.TransitionState? {
      var i :| 0 <= i < |d.effects| && d.effects[i] == x;
      NoTransition(cfg, v.ds, e, i);
    }
    QuietKeepsPhase(cfg, filter, v.(ds := d.next), d.effects);
  }

  lemma {:induction false} NoTransition(cfg: Config, s: DialogueState, e: DialogueEvent, i: nat)
    requires !e.LlmFailed? && i < |Reduce(cfg, s, e).effects|
    ensures !Reduce(cfg, s, e).effects[i].TransitionState?
  {
    hide HandleInterrupt, HandleUserMessage;
    if e.InterruptRequested? {
      InterruptEffects(cfg, s, e.now, Reduce(cfg, s, e).effects[i]);
    } else if UserMessageEvent(e) {
      UserMessageEffects(s, e.obs, e.now, i);
    }
  }

  /** A timeout or a continuation that finds the budget used up stops in Idle with nothing pending. */
  lemma {:induction false} StopOutcome(cfg: Config, filter: string -> string, w: View, start: Effect)
    requires start.StartLlm? && w.timers == map[] && Stuck(w.ds)
    requires w.fsm == FsmState.Thinking || w.fsm == Listening
    ensures Wedged(ApplyAll(cfg, filter, w, [start]))
  {
    hide ApplyAll, BeforeThinking, Fire;
    ApplyAllCons(cfg, filter, w, start, []);
    StopLands(w);
  }

  lemma StopLands(w: View)
    requires w.fsm == FsmState.Thinking || w.fsm == Listening
    ensures Fire(BeforeThinking(w, true), StopConditionMet) == w.(fsm := FsmState.Idle, queue := [])
  {}

  lemma {:induction false} TimeoutOutcome(
    cfg: Config, filter: string -> string, w: View, missing: seq<string>, start: Effect)
    requires start.StartLlm? && w.timers == map[] && Stuck(w.ds) && w.fsm == Acting
    ensures Wedged(ApplyAll(cfg, filter, w, [RecordTimeoutResults(missing), start]))
  {
    hide ApplyAll, Wedged, Timeouts;
    assert [RecordTimeoutResults(missing), start] == [RecordTimeoutResults(missing)] + [start];
    ApplyAllCons(cfg, filter, w, RecordTimeoutResults(missing), [start]);
    var u := Apply(cfg, filter, w, RecordTimeoutResults(missing));
    StopOutcome(cfg, filter, u, start);
  }

  lemma {:induction false} ResultWedges(cfg: Config, filter: string -> string, v: View, obs: Observation, now: int)
    requires Settled(v) && v.fsm == Acting && Completes(v.ds, obs.source)
    requires QuietDecision(cfg, Reduce(cfg, v.ds, ToolResultReceived(obs, now)))
    ensures Wedged(Outcome(cfg, filter, v, ToolResultReceived(obs, now)))
  {
    hide ApplyAll, Wedged;
    var d := Reduce(cfg, v.ds, ToolResultReceived(obs, now));
    assert d.effects[2] in d.effects && d.effects[2].StartLlm?;
    assert BudgetExhausted(cfg, v.ds);
    LastResultOutcome(cfg, filter, v, obs, now);
  }

  lemma {:induction false} StuckIsWedged(cfg: Config, filter: string -> string, v: View, e: DialogueEvent)
    requires Met(v, e) && !e.LlmFailed? && Stuck(Reduce(cfg, v.ds, e).next)
    requires QuietDecision(cfg, Reduce(cfg, v.ds, e))
    ensures Wedged(Outcome(cfg, filter, v, e))
  {
    hide ApplyAll, Wedged;
    var d := Reduce(cfg, v.ds, e);
    var w := v.(ds := d.next);
    match e
    case LlmCompleted(c, _, _, _) =>
      StopOutcome(cfg, filter, w, d.effects[0]);
    case ToolResultReceived(obs, now) =>
      ResultWedges(cfg, filter, v, obs, now);
    case TimerExpired(kind, _, _) =>
      if kind == TimerKind.ToolCallTimeout {
        TimeoutOutcome(cfg, filter, w, Missing(v.ds.pendingCallIds, v.ds.pendingResults), d.effects[1]);
      }
    case TurnTriggerClassified(_, _, _) =>
      StopOutcome(cfg, filter, w, d.effects[0]);
    case UserMessageReceived(_, _) => DroppedWhileStuck(cfg, filter, v, e);
    case AggregationComplete(_, _) => DroppedWhileStuck(cfg, filter, v, e);
    case SystemEventReceived(obs, now) => SystemEventStops(cfg, filter, v, obs, now);
  }

  /** A system event that finds the budget used up, or the reducer stuck already. */
  lemma {:induction false} SystemEventStops(cfg: Config, filter: string -> string, v: View, obs: Observation, now: int)
    requires Settled(v) && v.fsm == Listening && Stuck(HandleSystemEvent(v.ds, obs, now).next)
    ensures Wedged(Outcome(cfg, filter, v, SystemEventReceived(obs, now)))
  {
    hide ApplyAll, Wedged;
    SettledIsQuiet(v);
    var e := SystemEventReceived(obs, now);
    if v.ds.deliberation == Deliberation.Idle {
      var d := HandleSystemEvent(v.ds, obs, now);
      var w := v.(ds := d.next);
      ApplyAllCons(cfg, filter, w, RecordMemory(obs), [d.effects[1]]);
      assert d.effects == [RecordMemory(obs)] + [d.effects[1]];
      StopOutcome(cfg, filter, Apply(cfg, filter, w, RecordMemory(obs)), d.effects[1]);
    } else {
      SystemEventIgnored(cfg, filter, v, e);
      StuckAtRest(v);
    }
  }

  lemma StuckAtRest(v: View)
    requires v.timers == map[] && v.fsm == Listening && Stuck(v.ds)
    ensures Wedged(v)
  {}

  lemma {:induction false} DroppedWhileStuck(cfg: Config, filter: string -> string, v: View, e: DialogueEvent)
    requires Settled(v) && v.fsm == Listening && UserMessageEvent(e)
    requires Stuck(Reduce(cfg, v.ds, e).next)
    ensures Wedged(Outcome(cfg, filter, v, e)) && Stuck(v.ds)
  {
    DroppedOutcome(cfg, filter, v, e);
  }

  /** An event of a clean run, or the system event that ends one, in the state in which it is handed to the reducer. */
  ghost predicate Met(v: View, e: DialogueEvent) {
    Ripe(v, e) || (e.SystemEventReceived? && Settled(v) && v.fsm == Listening)
  }

  /** For every such event whose decision cannot ask the LLM: the controller is wedged afterwards if and only if the
      event is a failure or leaves the reducer stuck. */
  lemma {:induction false} WedgesIff(cfg: Config, filter: string -> string, v: View, e: DialogueEvent)
    requires Met(v, e) && QuietDecision(cfg, Reduce(cfg, v.ds, e))
    ensures Wedged(Outcome(cfg, filter, v, e)) <==> e.LlmFailed? || Stuck(Reduce(cfg, v.ds, e).next)
  {
    hide Reduce, ApplyAll, Wedged, Stuck, QuietDecision;
    MetIsSound(v, e);
    if e.LlmFailed? {
      FailureOutcome(cfg, filter, v, e);
    } else if Stuck(Reduce(cfg, v.ds, e).next) {
      StuckIsWedged(cfg, filter, v, e);
    } else {
      NotStuckNotWedged(cfg, filter, v, e);
    }
  }

  lemma MetIsSound(v: View, e: DialogueEvent)
    requires Met(v, e)
    ensures v.fsm != Error
    ensures e.LlmFailed? ==> v.fsm == FsmState.Thinking && v.timers == map[]
  {}

  /** Which events these are: a continuation with continuations left, the completing result, the tool timeout, a
      verdict, a system event outside the debounce window, and a message that finds the reducer stuck already. */
  predicate LeavesStuck(cfg: Config, s: DialogueState, e: DialogueEvent) {
    match e
    case LlmCompleted(c, _, _, _) => c.kind == Continue && s.continuations + 1 < cfg.maxContinuations
    case ToolResultReceived(obs, _) => Completes(s, obs.source)
    case TimerExpired(kind, _, _) => kind == TimerKind.ToolCallTimeout
    case TurnTriggerClassified(_, _, _) => true
    case UserMessageReceived(_, _) => Stuck(s)
    case AggregationComplete(_, _) => Stuck(s)
    case SystemEventReceived(_, _) => s.cooldown == NoCooldown
    case _ => false
  }

  lemma {:induction false} StuckEvents(cfg: Config, v: View, e: DialogueEvent)
    requires Met(v, e) && QuietDecision(cfg, Reduce(cfg, v.ds, e)) && !e.LlmFailed?
    ensures Stuck(Reduce(cfg, v.ds, e).next) <==> LeavesStuck(cfg, v.ds, e)
  {
    var d := Reduce(cfg, v.ds, e);
    if UserMessageEvent(e) && StartsTurn(v.ds, e) {
      assert d.effects[|d.effects| - 1] in d.effects;
    }
  }

  /** The tokens run out while continuations are left. */
  predicate SpendsUp(cfg: Config, s: DialogueState, tokens: int) {
    Tokens(s) + tokens >= cfg.tokenBudget && s.continuations + 1 < cfg.maxContinuations
  }

  lemma {:induction false} ContinuationWedges(cfg: Config, filter: string -> string, v: View, e: DialogueEvent)
    requires Ripe(v, e) && e.LlmCompleted? && e.candidate.kind == Continue
    requires SpendsUp(cfg, v.ds, e.promptTokens + e.completionTokens)
    ensures QuietDecision(cfg, Reduce(cfg, v.ds, e)) && Wedged(Outcome(cfg, filter, v, e))
  {
    hide Outcome, Wedged;
    WedgesIff(cfg, filter, v, e);
    StuckEvents(cfg, v, e);
  }

  lemma ReadyIsRipe(v: View, e: DialogueEvent)
    requires ReadyToThink(v) && (e.LlmCompleted? || e.LlmFailed?)
    ensures Ripe(v, e)
  {}

  /** With the budget used up, the end of the wait for tools wedges the controller and the end of the debounce
      window does not. */
  lemma {:induction false} TimerWedges(cfg: Config, filter: string -> string, v: View, e: DialogueEvent)
    requires Ripe(v, e) && e.TimerExpired? && BudgetExhausted(cfg, v.ds)
    ensures QuietDecision(cfg, Reduce(cfg, v.ds, e))
    ensures Wedged(Outcome(cfg, filter, v, e)) <==> e.kind == TimerKind.ToolCallTimeout
  {
    hide Outcome, Wedged;
    WedgesIff(cfg, filter, v, e);
  }

  /** With the budget used up, a system event wedges the controller at once exactly outside the debounce window. */
  lemma {:induction false} SystemEventWedges(cfg: Config, filter: string -> string, v: View, e: DialogueEvent)
    requires e.SystemEventReceived? && Settled(v) && v.fsm == Listening && BudgetExhausted(cfg, v.ds)
    ensures QuietDecision(cfg, Reduce(cfg, v.ds, e))
    ensures Wedged(Outcome(cfg, filter, v, e)) <==> v.ds.cooldown == NoCooldown
  {
    hide Outcome, Wedged, Settled;
    WedgesIff(cfg, filter, v, e);
    StuckEvents(cfg, v, e);
  }

  /** What a completion comes to, by the kind of its candidate. */
  lemma {:induction false} CompletionOutcome(cfg: Config, filter: string -> string, v: View, e: DialogueEvent)
    requires e.LlmCompleted?
    ensures var c, d, tokens := e.candidate, Reduce(cfg, v.ds, e), e.promptTokens + e.completionTokens;
      && AcceptedBy(v.ds, e) == []
      && (c.kind == CallTools ==>
            && |d.effects| == 3 && d.effects[2].ScheduleTimer? && d.effects[2].kind == TimerKind.ToolCallTimeout
            && d.effects[2].timerId == TOOL_TIMER)
      && (c.kind == Respond ==>
            && QuietDecision(cfg, d)
            && Outcome(cfg, filter, v, e) ==
                  AfterResponse(cfg, filter, v, c, e.promptTokens, e.completionTokens, e.now))
      && (c.kind == Continue && cfg.maxRetries >= 0 && LeavesRoom(cfg, v.ds, tokens) ==> Decides(cfg, v.ds, e))
      && (c.kind == Continue && ReadyToThink(v) && SpendsUp(cfg, v.ds, tokens) ==>
            && QuietDecision(cfg, d) && Wedged(Outcome(cfg, filter, v, e)))
  {
    hide ApplyAll, AfterResponse, Decides, Wedged, LeavesRoom, SpendsUp, ReadyToThink;
    match e.candidate.kind
    case CallTools => ToolBatch(cfg, v.ds, e);
    case Respond => ResponseOutcome(cfg, filter, v, e.candidate, e.promptTokens, e.completionTokens, e.now);
    case Continue =>
      if cfg.maxRetries >= 0 && LeavesRoom(cfg, v.ds, e.promptTokens + e.completionTokens) {
        ContinuationAsks(cfg, v.ds, e.candidate, e.promptTokens, e.completionTokens, e.now);
      }
      if ReadyToThink(v) && SpendsUp(cfg, v.ds, e.promptTokens + e.completionTokens) {
        ReadyIsRipe(v, e);
        ContinuationWedges(cfg, filter, v, e);
      }
  }

  /** Inside the debounce window such a system event wedges the controller later, when the window ends. */
  lemma {:induction false} SystemEventInDebounce(
    cfg: Config, filter: string -> string, v: View, obs: Observation, now: int, id: string, later: int)
    requires Settled(v) && v.fsm == Listening && v.ds.cooldown == Debouncing && BudgetExhausted(cfg, v.ds)
    ensures var w := Outcome(cfg, filter, v, SystemEventReceived(obs, now));
      var expired := TimerExpired(TimerKind.Debounce, id, later);
      && QuietDecision(cfg, Reduce(cfg, v.ds, SystemEventReceived(obs, now))) && !Wedged(w)
      && QuietDecision(cfg, Reduce(cfg, w.ds, expired)) && Wedged(Outcome(cfg, filter, w.(timers := map[]), expired))
  {
    hide ApplyAll;
    var d := HandleSystemEvent(v.ds, obs, now);
    var w := v.(ds := d.next);
    ApplyAllCons(cfg, filter, w, RecordMemory(obs), [d.effects[1]]);
    assert d.effects == [RecordMemory(obs)] + [d.effects[1]];
    ApplyAllCons(cfg, filter, Apply(cfg, filter, w, RecordMemory(obs)), d.effects[1], []);
    WindowEnds(cfg, filter, Outcome(cfg, filter, v, SystemEventReceived(obs, now)).(timers := map[]), id, later);
  }

  lemma {:induction false} WindowEnds(cfg: Config, filter: string -> string, u: View, id: string, later: int)
    requires u.fsm == FsmState.Idle && u.timers == map[] && BudgetExhausted(cfg, u.ds)
    requires u.ds.deliberation == Deliberation.Thinking
    ensures var e := TimerExpired(TimerKind.Debounce, id, later);
      QuietDecision(cfg, Reduce(cfg, u.ds, e)) && Wedged(Outcome(cfg, filter, u, e))
  {
    hide ApplyAll, Committed;
    var d := HandleDebounceExpired(cfg, u.ds, later);
    var w := u.(ds := d.next);
    assert d.effects == [CommitWorkspace(true)] + [SignalBudgetExhausted];
    ApplyAllCons(cfg, filter, w, CommitWorkspace(true), [SignalBudgetExhausted]);
    CommittedKeeps(w);
    ApplyAllCons(cfg, filter, Committed(w, true), SignalBudgetExhausted, []);
  }

  lemma CommittedKeeps(v: View)
    ensures var w := Committed(v, true);
      w.fsm == v.fsm && w.timers == v.timers && w.ds.cooldown == v.ds.cooldown && w.ds.deliberation == v.ds.deliberation
  {}

  // ---------- a tool timeout that outlives its turn ----------

  /** The tool timeout starts the LLM in every phase: the reducer does not look whether results are awaited. */
  lemma TimeoutIgnoresPhase(cfg: Config, s: DialogueState, id: string, now: int)
    ensures var d := Reduce(cfg, s, TimerExpired(TimerKind.ToolCallTimeout, id, now));
      && d.effects == [RecordTimeoutResults(Missing(s.pendingCallIds, s.pendingResults)),
            StartLlm(Trigger("tool_call_timeout", now))]
      && d.next.deliberation == Deliberation.Thinking
  {}

  /** A tool timer is pending although no results are awaited. */
  ghost predicate Stale(v: View) {
    TOOL_TIMER in v.timers && v.ds.deliberation != AwaitingToolResults
  }

  /** After a denied batch the LLM is asked again before the batch's own timeout is scheduled. */
  ghost function AfterDenial(
    cfg: Config, filter: string -> string, v: View, c: Candidate, prompt: int, completion: int, now: int,
    reply: DialogueEvent): View {
    var asked := Reduce(cfg, v.ds, LlmCompleted(c, prompt, completion, now)).next;
    var w := v.(ds := asked, history := v.history + [ToolCallEntry(c.toolCalls), DeniedEntry]);
    var thinking := Fire(Fire(w, LlmResult), RouteToContinue);
    Apply(cfg, filter, Outcome(cfg, filter, thinking, reply),
      ScheduleTimer(TimerKind.ToolCallTimeout, TOOL_TIMER, now + cfg.toolCallTimeout))
  }

  /** A settled state, as every clean run keeps it, has no stale timer. */
  lemma SettledIsNotStale(v: View)
    requires Settled(v)
    ensures !Stale(v)
  {}

  lemma DeliveryLands(cfg: Config, v: View, text: string)
    requires v.fsm == FsmState.Thinking
    ensures var w := Delivered(cfg, v, text);
      (w.fsm == Listening || w.fsm == FsmState.Idle) && w.ds == v.ds && w.timers == v.timers
  {}

  lemma DeniedThinks(v: View)
    requires v.fsm == FsmState.Thinking
    ensures Fire(Fire(v, LlmResult), RouteToContinue) == v
  {}

  /** When the LLM then answers, the answered turn is left with a stale timer. Its expiry records every refused call
      as timed out and starts the LLM. */
  lemma {:induction false} DeniedThenAnswered(
    cfg: Config, filter: string -> string, v: View, c: Candidate, prompt: int, completion: int, now: int,
    reply: DialogueEvent, fires: int)
    requires ReadyToThink(v) && c.kind == CallTools && reply.LlmCompleted? && reply.candidate.kind == Respond
    ensures var u := AfterDenial(cfg, filter, v, c, prompt, completion, now, reply);
      && (u.fsm == Listening || u.fsm == FsmState.Idle) && u.ds.deliberation == Deliberation.Idle && Stale(u)
      && Reduce(cfg, u.ds, TimerExpired(TimerKind.ToolCallTimeout, TOOL_TIMER, fires)).effects
         == [RecordTimeoutResults(CallIds(c.toolCalls)), StartLlm(Trigger("tool_call_timeout", fires))]
  {
    hide ApplyAll, Missing, Delivered, Fire, AfterResponse;
    var asked := Reduce(cfg, v.ds, LlmCompleted(c, prompt, completion, now)).next;
    var w := v.(ds := asked, history := v.history + [ToolCallEntry(c.toolCalls), DeniedEntry]);
    DeniedThinks(w);
    var r := reply.candidate;
    ResponseOutcome(cfg, filter, w, r, reply.promptTokens, reply.completionTokens, reply.now);
    AnsweredLands(cfg, filter, w, r, reply);
    TimeoutIgnoresPhase(cfg, AfterDenial(cfg, filter, v, c, prompt, completion, now, reply).ds, TOOL_TIMER, fires);
    NoneAnswered(CallIds(c.toolCalls));
  }

  lemma AnsweredLands(cfg: Config, filter: string -> string, w: View, c: Candidate, e: DialogueEvent)
    requires w.fsm == FsmState.Thinking && e.LlmCompleted? && c.kind == Respond
    ensures var u := AfterResponse(cfg, filter, w, c, e.promptTokens, e.completionTokens, e.now);
      && (u.fsm == Listening || u.fsm == FsmState.Idle) && u.ds.deliberation == Deliberation.Idle
      && u.ds.pendingCallIds == w.ds.pendingCallIds && u.ds.pendingResults == w.ds.pendingResults
  {
    hide Delivered;
    var n := HandleLlmCompleted(cfg, w.ds, c, e.promptTokens, e.completionTokens, e.now).next;
    DeliveryLands(cfg, w.(ds := n), filter(c.responseText));
  }

  lemma {:induction false} NoneAnswered(ids: seq<string>)
    ensures Missing(ids, map[]) == ids
  {
    if ids != [] { NoneAnswered(ids[1..]); }
  }

  // ---------- coming to rest ----------

  /** No turn is under way, and the reducer is stuck. */
  predicate AtRest(v: View) {
    (v.fsm == FsmState.Idle || v.fsm == Listening) && Stuck(v.ds)
  }

  lemma WedgedIsAtRest(v: View)
    requires Wedged(v)
    ensures AtRest(v) || v.fsm == Error
  {}

  lemma ToolsAreAwaited(v: View)
    ensures Settled(v) && TOOL_TIMER in v.timers ==> !AtRest(v)
  {}

  lemma StopLeadsToIdle()
    ensures Target(FsmState.Thinking, StopConditionMet) == Some(FsmState.Idle)
  {}

  /** Only a message can meet a clean run at rest. */
  lemma RipeIsAwake(v: View, e: DialogueEvent)
    requires Ripe(v, e) && !UserMessageEvent(e)
    ensures !AtRest(v)
  {}

  /** Effects that have the LLM asked. */
  predicate Resumes(e: Effect) {
    e.StartLlm? || e.StartLlmContinuation? || e.StartTurnTriggerClassification?
  }

  lemma {:induction false} NoneResume(cfg: Config, v: View, e: DialogueEvent)
    requires Ripe(v, e) && !AtRest(v)
    ensures var d := Reduce(cfg, v.ds, e);
      || (d.effects != [] && Resumes(d.effects[|d.effects| - 1]))
      || (d.effects != [] && d.effects[|d.effects| - 1].ScheduleTimer?
            && d.effects[|d.effects| - 1].timerId == TOOL_TIMER)
      || (QuietDecision(cfg, d) && !Stuck(d.next))
  {
    hide HandleInterrupt;
    if e.InterruptRequested? {
      var d := HandleInterrupt(cfg, v.ds, e.now);
      forall x | x in d.effects ensures !Recursive(x) { InterruptEffects(cfg, v.ds, e.now, x); }
      InterruptIdles(cfg, v.ds, e.now);
    }
  }

  lemma InterruptIdles(cfg: Config, s: DialogueState, now: int)
    ensures HandleInterrupt(cfg, s, now).next.cooldown == Debouncing
  {}

  /** How an event can leave a clean run that was not at rest: its last effect resumes the turn, a batch is waited
      for, or the outcome is not at rest either. */
  lemma {:induction false} RestCases(cfg: Config, filter: string -> string, v: View, e: DialogueEvent)
    requires Ripe(v, e) && !AtRest(v)
    ensures var es := Reduce(cfg, v.ds, e).effects;
      || (es != [] && Resumes(es[|es| - 1]))
      || (es != [] && es[|es| - 1].ScheduleTimer? && es[|es| - 1].timerId == TOOL_TIMER)
      || (QuietDecision(cfg, Reduce(cfg, v.ds, e)) && !AtRest(Outcome(cfg, filter, v, e)))
  {
    hide ApplyAll, Apply;
    var d := Reduce(cfg, v.ds, e);
    var es := d.effects;
    if es == [] || (!Resumes(es[|es| - 1]) && !(es[|es| - 1].ScheduleTimer? && es[|es| - 1].timerId == TOOL_TIMER)) {
      NoneResume(cfg, v, e);
      if e.LlmFailed? {
        FailureOutcome(cfg, filter, v, e);
      } else {
        forall x | x in es ensures !x.TransitionState? {
          var i :| 0 <= i < |es| && es[i] == x;
          NoTransition(cfg, v.ds, e, i);
        }
        QuietKeepsPhase(cfg, filter, v.(ds := d.next), es);
      }
    }
  }

  // ---------- which reply came last ----------

  /** The LLM asked for tools. */
  predicate AsksForTools(e: DialogueEvent) {
    e.LlmCompleted? && e.candidate.kind == CallTools
  }

  /** The event as a reply of the LLM, if it is one. */
  function LlmReply(e: DialogueEvent): seq<DialogueEvent> {
    if e.LlmCompleted? || e.LlmFailed? then [e] else []
  }

  lemma ReplyPhase(cfg: Config, s: DialogueState, e: DialogueEvent)
    requires e.LlmCompleted? || e.LlmFailed?
    ensures var d := Reduce(cfg, s, e);
      && (d.next.deliberation == AwaitingToolResults <==> AsksForTools(e))
      && NoneClassifies(d.effects, |d.effects|)
  {}

  /** After a tool batch and any further replies, results are still awaited if and only if the last reply asked for
      tools as well. So a batch that was denied leaves a stale timeout exactly if another kind of reply came last. */
  lemma {:induction false} AwaitedAfterReplies(cfg: Config, s: DialogueState, replies: seq<DialogueEvent>)
    requires replies != [] && forall r :: r in replies ==> r.LlmCompleted? || r.LlmFailed?
    ensures After(cfg, s, replies).deliberation == AwaitingToolResults <==> AsksForTools(replies[|replies| - 1])
  {
    hide Reduce;
    var last := |replies| - 1;
    assert replies[last] in replies;
    ReplyPhase(cfg, After(cfg, s, replies[..last]), replies[last]);
  }
}
