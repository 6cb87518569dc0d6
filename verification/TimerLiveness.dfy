/** Which timers may be pending in which state, for runs in which every tool call is allowed, the aggregator
    passes messages straight through and no system event starts a turn. `Owes` says that running the
    remaining effects of a decision brings the controller back to such a state. */
module TimerLiveness {
  import opened DialogueTypes
  import opened DialogueReducer
  import opened TimerBooks
  import opened ControllerModel

  /** Between loop steps: the tool timer is pending exactly in Acting, the debounce timer exactly while debouncing. */
  ghost predicate Settled(v: View) {
    && (TOOL_TIMER in v.timers <==> v.fsm == Acting)
    && (DEBOUNCE_TIMER in v.timers <==> v.ds.cooldown == Debouncing)
    && v.timers.Keys <= {TOOL_TIMER, DEBOUNCE_TIMER}
    && (TOOL_TIMER in v.timers ==> v.timers[TOOL_TIMER].kind == TimerKind.ToolCallTimeout)
    && (DEBOUNCE_TIMER in v.timers ==> v.timers[DEBOUNCE_TIMER].kind == TimerKind.Debounce)
    && (v.fsm == Acting <==> v.ds.deliberation == AwaitingToolResults)
    && (v.ds.cooldown == Debouncing ==> v.fsm == Listening && v.ds.deliberation == Deliberation.Idle)
    && v.fsm != Routing && v.fsm != Responding && v.fsm != Terminated
    && v.ds.deliberation != AwaitingTurnTrigger
  }

  lemma {:induction false} AtMostOneTimer(v: View, a: string, b: string)
    requires Settled(v) && a in v.timers && b in v.timers
    ensures a == b && v.timers == map[a := v.timers[a]]
  {
    assert a in v.timers.Keys && b in v.timers.Keys;
    forall id | id in v.timers ensures id == a { assert id in v.timers.Keys; }
  }

  /** About to call the LLM: thinking, with nothing pending. */
  ghost predicate ReadyToThink(v: View) {
    && v.fsm == FsmState.Thinking && v.timers == map[] && v.ds.cooldown == NoCooldown
    && (v.ds.deliberation == Deliberation.Idle || v.ds.deliberation == Deliberation.Thinking)
  }

  ghost predicate Owes(cfg: Config, filter: string -> string, v: View, es: seq<Effect>)
    decreases |es|
  {
    if es == [] then Settled(v)
    else match es[0]
      case StartLlm(_) => |es| == 1 && forall ok :: ReadyToThink(BeforeThinking(v, ok))
      case StartLlmContinuation(_) => |es| == 1 && ReadyToThink(Fire(v, UserObservation))
      case EmitToolCallFrames(_) =>
        && |es| == 2 && es[1].ScheduleTimer? && es[1].kind == TimerKind.ToolCallTimeout && es[1].timerId == TOOL_TIMER
        && v.fsm == FsmState.Thinking && v.timers == map[]
        && v.ds.cooldown == NoCooldown && v.ds.deliberation == AwaitingToolResults
      case StartTurnTriggerClassification(id, _) =>
        && |es| == 1 && v.fsm == Listening && v.timers == map[] && v.ds.cooldown == NoCooldown
        && v.ds.deliberation == AwaitingTurnTrigger && v.ds.pendingTriggerId == id
      case _ => Owes(cfg, filter, Apply(cfg, filter, v, es[0]), es[1..])
  }

  lemma SettledIsQuiet(v: View)
    requires Settled(v) && v.fsm != Acting && v.ds.cooldown == NoCooldown
    ensures v.timers == map[]
  {
    assert v.timers.Keys == {};
  }

  /** When the controller hands this event to the reducer, in such a run. */
  ghost predicate Ripe(v: View, e: DialogueEvent) {
    match e
    case LlmCompleted(_, _, _, _) => ReadyToThink(v)
    case LlmFailed(_, _) => ReadyToThink(v)
    case InterruptRequested(_) => Settled(v) && (v.fsm == FsmState.Thinking || v.fsm == Acting)
    case UserMessageReceived(_, _) => Settled(v) && v.fsm == Listening
    case AggregationComplete(_, _) => Settled(v) && v.fsm == Listening
    case ToolResultReceived(_, _) => Settled(v) && v.fsm == Acting
    case TimerExpired(kind, _, _) =>
      && v.timers == map[]
      && (kind == TimerKind.Debounce ==>
            v.ds.cooldown == Debouncing && v.fsm == Listening && v.ds.deliberation == Deliberation.Idle)
      && (kind == TimerKind.ToolCallTimeout ==>
            v.ds.cooldown == NoCooldown && v.fsm == Acting && v.ds.deliberation == AwaitingToolResults)
      && (kind == TimerKind.Debounce || kind == TimerKind.ToolCallTimeout)
    case TurnTriggerClassified(id, verdict, _) =>
      && v.fsm == Listening && v.timers == map[] && v.ds.cooldown == NoCooldown
      && v.ds.deliberation == AwaitingTurnTrigger && v.ds.pendingTriggerId == id && verdict == RespondNow
    case _ => false
  }

  lemma OwesCons(cfg: Config, filter: string -> string, v: View, e: Effect, rest: seq<Effect>)
    requires !Recursive(e) && Owes(cfg, filter, Apply(cfg, filter, v, e), rest)
    ensures Owes(cfg, filter, v, [e] + rest)
  {
    assert ([e] + rest)[1..] == rest;
  }

  lemma OwesLast(cfg: Config, filter: string -> string, v: View, e: Effect)
    requires !Recursive(e) && Settled(Apply(cfg, filter, v, e))
    ensures Owes(cfg, filter, v, [e])
  {
    OwesCons(cfg, filter, v, e, []);
    assert [e] + [] == [e];
  }

  /** What owing the first of some effects means for that effect and for the rest. */
  lemma OwesHead(cfg: Config, filter: string -> string, v: View, e: Effect, rest: seq<Effect>)
    requires Owes(cfg, filter, v, [e] + rest)
    ensures !Recursive(e) ==> Owes(cfg, filter, Apply(cfg, filter, v, e), rest)
    ensures e.StartLlm? || e.StartLlmContinuation? || e.StartTurnTriggerClassification? ==> rest == []
    ensures e.StartLlm? ==> forall ok :: ReadyToThink(BeforeThinking(v, ok))
    ensures e.StartLlmContinuation? ==> ReadyToThink(Fire(v, UserObservation))
    ensures e.StartTurnTriggerClassification? ==> forall now :: Ripe(v, TurnTriggerClassified(e.id, RespondNow, now))
  {
    assert ([e] + rest)[1..] == rest;
  }

  /** Harvesting the due timers of a settled state finds at most one, and finds it ripe. */
  lemma {:induction false} HarvestIsRipe(v: View, now: int, fired: seq<TimerEntry>, w: View)
    requires Settled(v) && Fired(v.timers, now, fired) && w == v.(timers := Remaining(v.timers, now))
    ensures |fired| <= 1
    ensures fired == [] ==> w == v
    ensures |fired| == 1 ==> forall t :: Ripe(w, TimerExpired(fired[0].kind, fired[0].id, t))
  {
    if |fired| > 1 {
      assert fired[0] in fired && fired[1] in fired;
      AtMostOneTimer(v, fired[0].id, fired[1].id);
    }
    if fired == [] {
      assert w.timers == v.timers;
    } else {
      assert fired[0] in fired;
      AtMostOneTimer(v, fired[0].id, fired[0].id);
      assert fired[0].id in v.timers.Keys;
      assert w.timers == map[];
    }
  }

  lemma OwesNothing(cfg: Config, filter: string -> string, v: View)
    ensures Owes(cfg, filter, v, []) <==> Settled(v)
  {}

  /** Once every call of the batch is allowed, only the timeout is still owed. */
  lemma {:induction false} ActingOwes(
    cfg: Config, filter: string -> string, v: View, c: Candidate, rest: seq<Effect>, w: View)
    requires Owes(cfg, filter, v, [EmitToolCallFrames(c)] + rest)
    requires w.fsm == Fire(Fire(v, LlmResult), RouteToAction).fsm && w.timers == v.timers
    requires w.ds.cooldown == v.ds.cooldown && w.ds.deliberation == v.ds.deliberation
    ensures Owes(cfg, filter, w, rest)
  {
    assert ([EmitToolCallFrames(c)] + rest)[1..] == rest;
    assert rest == [rest[0]];
    OwesLast(cfg, filter, w, rest[0]);
  }

  lemma ReadyIsSettled(v: View)
    requires ReadyToThink(v)
    ensures v.fsm == FsmState.Thinking
    ensures Settled(v) && Settled(Fire(v, StopConditionMet))
  {}

  lemma OwesStart(cfg: Config, filter: string -> string, v: View, e: Effect)
    requires e.StartLlm? || e.StartLlmContinuation?
    requires e.StartLlm? ==> forall ok :: ReadyToThink(BeforeThinking(v, ok))
    requires e.StartLlmContinuation? ==> ReadyToThink(Fire(v, UserObservation))
    ensures Owes(cfg, filter, v, [e])
  {}

  lemma {:induction false} CallsOwed(cfg: Config, filter: string -> string, w: View, c: Candidate, deadline: int)
    requires w.fsm == FsmState.Thinking && w.timers == map[] && w.ds.cooldown == NoCooldown
    requires w.ds.deliberation == AwaitingToolResults
    ensures Owes(cfg, filter, w, [RecordToolCallDecision(c), EmitToolCallFrames(c),
                                  ScheduleTimer(TimerKind.ToolCallTimeout, TOOL_TIMER, deadline)])
  {
    var rest := [EmitToolCallFrames(c), ScheduleTimer(TimerKind.ToolCallTimeout, TOOL_TIMER, deadline)];
    var u := Apply(cfg, filter, w, RecordToolCallDecision(c));
    assert Owes(cfg, filter, u, rest);
    hide Owes, Apply;
    OwesCons(cfg, filter, w, RecordToolCallDecision(c), rest);
    assert [RecordToolCallDecision(c)] + rest
        == [RecordToolCallDecision(c), EmitToolCallFrames(c),
          ScheduleTimer(TimerKind.ToolCallTimeout, TOOL_TIMER, deadline)];
  }

  lemma {:induction false} DeliverySettles(cfg: Config, w: View, text: string)
    requires w.fsm == FsmState.Thinking && w.timers == map[] && w.ds.cooldown == NoCooldown
    requires w.ds.deliberation == Deliberation.Idle
    ensures Settled(Delivered(cfg, w, text))
  {}

  lemma {:induction false} LlmCompletedSettles(
    cfg: Config, filter: string -> string, v: View, c: Candidate, p: int, t: int, now: int)
    requires ReadyToThink(v)
    ensures var d := HandleLlmCompleted(cfg, v.ds, c, p, t, now); Owes(cfg, filter, v.(ds := d.next), d.effects)
  {
    hide Owes, Settled, Delivered;
    var d := HandleLlmCompleted(cfg, v.ds, c, p, t, now);
    var w := v.(ds := d.next);
    match c.kind
    case CallTools =>
      CallsOwed(cfg, filter, w, c, now + cfg.toolCallTimeout);
    case Respond =>
      DeliverySettles(cfg, w, filter(c.responseText));
      OwesLast(cfg, filter, w, DeliverResponse(c));
    case Continue =>
      if d.effects == [SignalBudgetExhausted] {
        ReadyIsSettled(w);
        OwesLast(cfg, filter, w, SignalBudgetExhausted);
      } else {
        OwesStart(cfg, filter, w, d.effects[0]);
      }
  }

  lemma {:induction false} LlmFailedSettles(cfg: Config, filter: string -> string, v: View, reason: string)
    requires ReadyToThink(v)
    ensures var d := HandleLlmFailed(v.ds, reason); Owes(cfg, filter, v.(ds := d.next), d.effects)
  {
    var w := v.(ds := HandleLlmFailed(v.ds, reason).next);
    OwesLast(cfg, filter, w, TransitionState(FsmEvent.LlmFailure));
    OwesCons(cfg, filter, w, EmitDiagnostic(reason), [TransitionState(FsmEvent.LlmFailure)]);
    assert [EmitDiagnostic(reason)] + [TransitionState(FsmEvent.LlmFailure)]
        == [EmitDiagnostic(reason), TransitionState(FsmEvent.LlmFailure)];
  }

  lemma {:induction false} DebounceSettles(cfg: Config, filter: string -> string, v: View, id: string, now: int)
    requires Ripe(v, TimerExpired(TimerKind.Debounce, id, now))
    ensures var d := HandleDebounceExpired(cfg, v.ds, now); Owes(cfg, filter, v.(ds := d.next), d.effects)
  {
    hide Owes;
    var w := v.(ds := v.ds.(cooldown := NoCooldown));
    var u := Committed(w, true);
    if BudgetExhausted(cfg, w.ds) {
      OwesLast(cfg, filter, u, SignalBudgetExhausted);
      OwesCons(cfg, filter, w, CommitWorkspace(true), [SignalBudgetExhausted]);
    } else {
      OwesStart(cfg, filter, u, StartLlmContinuation(now));
      OwesCons(cfg, filter, w, CommitWorkspace(true), [StartLlmContinuation(now)]);
    }
    assert forall x: Effect :: [CommitWorkspace(true)] + [x] == [CommitWorkspace(true), x];
  }

  lemma {:induction false} TimeoutSettles(
    cfg: Config, filter: string -> string, v: View, missing: seq<string>, id: string, now: int)
    requires Ripe(v, TimerExpired(TimerKind.ToolCallTimeout, id, now))
    ensures var d := HandleToolCallsTimedOut(v.ds, missing, now); Owes(cfg, filter, v.(ds := d.next), d.effects)
  {
    hide Owes;
    var d := HandleToolCallsTimedOut(v.ds, missing, now);
    var w := v.(ds := d.next);
    OwesStart(cfg, filter, Apply(cfg, filter, w, d.effects[0]), d.effects[1]);
    OwesCons(cfg, filter, w, d.effects[0], [d.effects[1]]);
    assert [d.effects[0]] + [d.effects[1]] == d.effects;
  }

  /** The effects of a completing result, with the tool timer the only one pending. */
  lemma {:induction false} CompletionOwed(
    cfg: Config, filter: string -> string, w: View, obs: Observation, trigger: Observation)
    requires w.fsm == Acting && w.timers.Keys == {TOOL_TIMER} && w.ds.cooldown == NoCooldown
    requires w.ds.deliberation == Deliberation.Thinking
    ensures Owes(cfg, filter, w, [RecordToolResult(obs), CancelTimer(TOOL_TIMER), StartLlm(trigger)])
  {
    hide Owes;
    var u := Apply(cfg, filter, w, RecordToolResult(obs));
    var x := Apply(cfg, filter, u, CancelTimer(TOOL_TIMER));
    assert x.timers == map[];
    OwesStart(cfg, filter, x, StartLlm(trigger));
    hide Apply;
    OwesCons(cfg, filter, u, CancelTimer(TOOL_TIMER), [StartLlm(trigger)]);
    OwesCons(cfg, filter, w, RecordToolResult(obs), [CancelTimer(TOOL_TIMER)] + [StartLlm(trigger)]);
    assert [RecordToolResult(obs)] + ([CancelTimer(TOOL_TIMER)] + [StartLlm(trigger)])
        == [RecordToolResult(obs), CancelTimer(TOOL_TIMER), StartLlm(trigger)];
  }

  lemma {:induction false} ToolResultSettles(cfg: Config, filter: string -> string, v: View, obs: Observation, now: int)
    requires Settled(v) && v.fsm == Acting
    ensures var d := HandleToolResult(v.ds, obs, now); Owes(cfg, filter, v.(ds := d.next), d.effects)
  {
    hide Owes;
    var d := HandleToolResult(v.ds, obs, now);
    var w := v.(ds := d.next);
    if |d.effects| == 1 {
      OwesLast(cfg, filter, w, RecordToolResult(obs));
    } else {
      AtMostOneTimer(v, TOOL_TIMER, TOOL_TIMER);
      CompletionOwed(cfg, filter, w, obs, Trigger("tool_results_complete", now));
    }
  }

  lemma {:induction false} NewTurnOwed(
    cfg: Config, filter: string -> string, w: View, f: Fragment, id: nat, obs: Observation)
    requires w.fsm == Listening && w.timers == map[] && w.ds.cooldown == NoCooldown
    requires w.ds.deliberation == AwaitingTurnTrigger && w.ds.pendingTriggerId == id
    ensures Owes(cfg, filter, w,
      [BufferToWorkspace(f, false), CommitWorkspace(false), StartTurnTriggerClassification(id, obs)])
  {
    var buffer, start := BufferToWorkspace(f, false), StartTurnTriggerClassification(id, obs);
    assert Owes(cfg, filter, Apply(cfg, filter, w, CommitWorkspace(false)), [start]);
    hide Owes, Committed;
    OwesCons(cfg, filter, w, CommitWorkspace(false), [start]);
    OwesCons(cfg, filter, w, buffer, [CommitWorkspace(false)] + [start]);
    assert [buffer] + ([CommitWorkspace(false)] + [start]) == [buffer, CommitWorkspace(false), start];
  }

  lemma {:induction false} UserMessageSettles(
    cfg: Config, filter: string -> string, v: View, obs: Observation, now: int)
    requires Settled(v) && v.fsm == Listening
    ensures var d := HandleUserMessage(v.ds, obs, now); Owes(cfg, filter, v.(ds := d.next), d.effects)
  {
    hide Owes;
    var d := HandleUserMessage(v.ds, obs, now);
    var w := v.(ds := d.next);
    if v.ds.cooldown == Debouncing {
      OwesLast(cfg, filter, w, d.effects[0]);
    } else if v.ds.deliberation == Deliberation.Idle {
      SettledIsQuiet(v);
      assert d.effects == [BufferToWorkspace(FragmentOf(obs, now), false), CommitWorkspace(false),
                           StartTurnTriggerClassification(v.ds.nextTriggerId + 1, obs)];
      NewTurnOwed(cfg, filter, w, FragmentOf(obs, now), v.ds.nextTriggerId + 1, obs);
    } else {
      OwesNothing(cfg, filter, w);
    }
  }

  /** The part of an interrupt decision after the workspace has been dealt with. */
  function InterruptTail(cfg: Config, s: DialogueState, now: int): seq<Effect> {
    [CancelLlm] + ([RecordInterruptMemory]
    + ([ScheduleTimer(TimerKind.Debounce, DEBOUNCE_TIMER, now + cfg.debounceDuration)]
       + if s.deliberation == AwaitingToolResults then [CancelTimer(TOOL_TIMER)] else []))
  }

  /** With the debounce timer set and the tool timer gone, an interrupted turn is settled. */
  lemma {:induction false} InterruptedIsSettled(v: View, t: View, deadline: int)
    requires Settled(v) && (v.fsm == FsmState.Thinking || v.fsm == Acting)
    requires t.fsm == Listening && t.ds.cooldown == Debouncing && t.ds.deliberation == Deliberation.Idle
    requires var armed := v.timers[DEBOUNCE_TIMER := Timer(TimerKind.Debounce, deadline)];
      t.timers == if v.ds.deliberation == AwaitingToolResults then armed - {TOOL_TIMER} else armed
    ensures Settled(t)
  {}

  lemma {:induction false} InterruptTailSettles(cfg: Config, filter: string -> string, v: View, u: View, now: int)
    requires Settled(v) && (v.fsm == FsmState.Thinking || v.fsm == Acting)
    requires u.fsm == v.fsm && u.timers == v.timers && u.ds.cooldown == Debouncing
    requires u.ds.deliberation == Deliberation.Idle
    ensures Owes(cfg, filter, u, InterruptTail(cfg, v.ds, now))
  {
    hide Owes, Apply, Settled;
    assert Fire(u, Interrupt).fsm == Listening;
    var deadline := now + cfg.debounceDuration;
    var schedule := ScheduleTimer(TimerKind.Debounce, DEBOUNCE_TIMER, deadline);
    var last := if v.ds.deliberation == AwaitingToolResults then [CancelTimer(TOOL_TIMER)] else [];
    var u1 := u.(fsm := Listening);
    var u2 := u1.(history := u1.history + [InterruptedEntry]);
    var u3 := u2.(timers := u2.timers[DEBOUNCE_TIMER := Timer(TimerKind.Debounce, deadline)]);
    var t := u3.(timers := u3.timers - {TOOL_TIMER});
    InterruptedIsSettled(v, if last == [] then u3 else t, deadline);
    ApplyCancelLlm(cfg, filter, u);
    ApplyInterruptMemory(cfg, filter, u1);
    ApplySchedule(cfg, filter, u2, TimerKind.Debounce, DEBOUNCE_TIMER, deadline);
    ApplyCancelTimer(cfg, filter, u3, TOOL_TIMER);
    hide Fire;
    if last != [] { OwesLast(cfg, filter, u3, CancelTimer(TOOL_TIMER)); } else { OwesNothing(cfg, filter, u3); }
    OwesCons(cfg, filter, u2, schedule, last);
    OwesCons(cfg, filter, u1, RecordInterruptMemory, [schedule] + last);
    OwesCons(cfg, filter, u, CancelLlm, [RecordInterruptMemory] + ([schedule] + last));
  }

  lemma {:induction false} InterruptSettles(cfg: Config, filter: string -> string, v: View, now: int)
    requires Settled(v) && (v.fsm == FsmState.Thinking || v.fsm == Acting)
    ensures var d := HandleInterrupt(cfg, v.ds, now); Owes(cfg, filter, v.(ds := d.next), d.effects)
  {
    hide Owes, Settled, Committed;
    var d := HandleInterrupt(cfg, v.ds, now);
    var w := v.(ds := d.next);
    var commit := if v.ds.workspace.fragments != [] then [CommitWorkspace(true)] else [];
    var discard := if v.ds.workspace.partial.Some? then [DiscardWorkspace] else [];
    var tail := InterruptTail(cfg, v.ds, now);
    assert commit + (discard + tail) == d.effects;
    var w1 := if commit == [] then w else Apply(cfg, filter, w, CommitWorkspace(true));
    var w2 := if discard == [] then w1 else Apply(cfg, filter, w1, DiscardWorkspace);
    CommitKeepsRest(w);
    InterruptTailSettles(cfg, filter, v, w2, now);
    hide InterruptTail, HandleInterrupt;
    OwesMaybe(cfg, filter, w1, DiscardWorkspace, discard, tail);
    OwesMaybe(cfg, filter, w, CommitWorkspace(true), commit, discard + tail);
  }

  lemma CommitKeepsRest(v: View)
    ensures var w := Committed(v, true);
      w.fsm == v.fsm && w.timers == v.timers && w.ds.cooldown == v.ds.cooldown && w.ds.deliberation == v.ds.deliberation
  {}

  /** An optional effect in front of others. */
  lemma {:induction false} OwesMaybe(
    cfg: Config, filter: string -> string, v: View, e: Effect, first: seq<Effect>, rest: seq<Effect>)
    requires !Recursive(e) && (first == [] || first == [e])
    requires Owes(cfg, filter, if first == [] then v else Apply(cfg, filter, v, e), rest)
    ensures Owes(cfg, filter, v, first + rest)
  {
    hide Owes, Apply;
    if first == [] { assert first + rest == rest; } else { OwesCons(cfg, filter, v, e, rest); }
  }

  /** Every event of such a run, handed over when ripe, leads back to a settled state or to the LLM. */
  lemma {:induction false} RipeEventsSettle(cfg: Config, filter: string -> string, v: View, e: DialogueEvent)
    requires Ripe(v, e)
    ensures var d := Reduce(cfg, v.ds, e); Owes(cfg, filter, v.(ds := d.next), d.effects)
  {
    match e
    case LlmCompleted(c, p, t, now) => LlmCompletedSettles(cfg, filter, v, c, p, t, now);
    case LlmFailed(reason, _) => LlmFailedSettles(cfg, filter, v, reason);
    case InterruptRequested(now) => InterruptSettles(cfg, filter, v, now);
    case UserMessageReceived(obs, now) => UserMessageSettles(cfg, filter, v, obs, now);
    case AggregationComplete(obs, now) => UserMessageSettles(cfg, filter, v, obs, now);
    case ToolResultReceived(obs, now) => ToolResultSettles(cfg, filter, v, obs, now);
    case TimerExpired(kind, id, now) =>
      if kind == TimerKind.Debounce { DebounceSettles(cfg, filter, v, id, now); }
      else { TimeoutSettles(cfg, filter, v, Missing(v.ds.pendingCallIds, v.ds.pendingResults), id, now); }
    case TurnTriggerClassified(_, _, _) =>
      assert Reduce(cfg, v.ds, e).effects == [StartLlm(Trigger("turn_trigger", e.now))];
  }
}
