/** The controller's observable state as a value, the transition table, and what each effect that does
    not call back into the LLM does to that state. The class in Controller is proved against this. */
module ControllerModel {
  import opened DialogueTypes
  import opened DialogueReducer
  import opened TurnTriggers
  import opened TimerBooks

  datatype HistoryEntry =
    | UserEntry(content: string, source: string, timestamp: int)
    | SystemEventEntry(content: string, source: string)
    | ToolCallEntry(calls: seq<ToolCall>)
    | ToolResultEntry(id: string, content: string)
    | TimeoutEntry(id: string)
    | AssistantEntry(text: string)
    | InterruptedEntry
    | DeniedEntry

  datatype View = View(
    fsm: FsmState, ds: DialogueState, timers: Timers, history: seq<HistoryEntry>, queue: seq<Observation>)

  /** The 24 transitions; None where the table has no entry. */
  function Target(s: FsmState, e: FsmEvent): Option<FsmState> {
    match (s, e)
    case (Idle, Start) => Some(Listening)
    case (Listening, UserObservation) => Some(FsmState.Thinking)
    case (Listening, Stop) => Some(FsmState.Idle)
    case (Thinking, LlmResult) => Some(Routing)
    case (Thinking, LlmFailure) => Some(Error)
    case (Thinking, Interrupt) => Some(Listening)
    case (Thinking, StopConditionMet) => Some(FsmState.Idle)
    case (Routing, RouteToAction) => Some(Acting)
    case (Routing, RouteToResponse) => Some(Responding)
    case (Routing, RouteToContinue) => Some(FsmState.Thinking)
    case (Routing, Interrupt) => Some(Listening)
    case (Acting, ActionComplete) => Some(FsmState.Thinking)
    case (Acting, ActionFailed) => Some(FsmState.Thinking)
    case (Acting, Interrupt) => Some(Listening)
    case (Responding, ResponseDelivered) => Some(Listening)
    case (Responding, StopConditionMet) => Some(FsmState.Idle)
    case (Error, Recover) => Some(FsmState.Idle)
    case (Terminated, Shutdown) => None
    case (_, Shutdown) => Some(Terminated)
    case _ => None
  }

  /** An invalid event changes nothing; stopping into Idle also empties the observation queue. */
  function Fire(v: View, e: FsmEvent): View {
    match Target(v.fsm, e)
    case None => v
    case Some(t) =>
      if e == StopConditionMet && t == FsmState.Idle then v.(fsm := t, queue := []) else v.(fsm := t)
  }

  // ---------- committing the workspace ----------

  /** The separator goes in only when something is there already, so leading empty fragments leave no space. */
  function MergedContent(fs: seq<Fragment>): string {
    if fs == [] then ""
    else
      var before := MergedContent(fs[..|fs| - 1]);
      (if before == "" then "" else before + " ") + fs[|fs| - 1].content
  }

  function Latest(fs: seq<Fragment>): int
    requires fs != []
  {
    var t := fs[|fs| - 1].timestamp;
    if |fs| == 1 then t else var u := Latest(fs[..|fs| - 1]); if t > u then t else u
  }

  function MergeEntry(fs: seq<Fragment>): HistoryEntry
    requires fs != []
  {
    UserEntry(MergedContent(fs), fs[|fs| - 1].source, Latest(fs))
  }

  function SpaceJoin(fs: seq<Fragment>): string {
    if fs == [] then ""
    else if |fs| == 1 then fs[0].content
    else SpaceJoin(fs[..|fs| - 1]) + " " + fs[|fs| - 1].content
  }

  lemma {:induction false} JoinLength(fs: seq<Fragment>)
    requires fs != []
    ensures fs[0].content != "" ==> MergedContent(fs) == SpaceJoin(fs) != ""
    ensures fs[0].content == "" && |fs| > 1 ==> |MergedContent(fs)| < |SpaceJoin(fs)|
  {
    if |fs| > 1 {
      JoinLength(fs[..|fs| - 1]);
      if |fs| == 2 {
        assert MergedContent(fs[..1]) == fs[0].content by { assert fs[..1][..0] == []; }
      }
    } else {
      assert fs[..0] == [];
    }
  }

  /** A merged entry is the space-join of its fragments exactly when there is at most one fragment or
      the first one is not empty. */
  lemma {:induction false} MergedIsJoinIff(fs: seq<Fragment>)
    ensures MergedContent(fs) == SpaceJoin(fs) <==> |fs| <= 1 || fs[0].content != ""
  {
    if |fs| > 1 {
      JoinLength(fs);
    } else if |fs| == 1 {
      assert fs[..0] == [];
    }
  }

  function Singles(fs: seq<Fragment>): seq<seq<Fragment>> {
    if fs == [] then [] else Singles(fs[..|fs| - 1]) + [[fs[|fs| - 1]]]
  }

  /** How a commit groups the fragments: one group when merging, one group each otherwise. */
  function Grouping(fs: seq<Fragment>, merge: bool): seq<seq<Fragment>> {
    if !merge then Singles(fs) else if fs == [] then [] else [fs]
  }

  function Flatten(groups: seq<seq<Fragment>>): seq<Fragment> {
    if groups == [] then [] else Flatten(groups[..|groups| - 1]) + groups[|groups| - 1]
  }

  /** The history entries a list of groups is committed as. */
  function Entries(groups: seq<seq<Fragment>>): seq<HistoryEntry>
    requires forall g :: g in groups ==> g != []
  {
    seq(|groups|, i requires 0 <= i < |groups| => assert groups[i] in groups; MergeEntry(groups[i]))
  }

  function UserEntries(h: seq<HistoryEntry>): seq<HistoryEntry> {
    if h == [] then []
    else UserEntries(h[..|h| - 1]) + (if h[|h| - 1].UserEntry? then [h[|h| - 1]] else [])
  }

  lemma {:induction false} UserEntriesConcat(a: seq<HistoryEntry>, b: seq<HistoryEntry>)
    ensures UserEntries(a + b) == UserEntries(a) + UserEntries(b)
    decreases |b|
  {
    if b == [] {
      assert a + b == a;
    } else {
      UserEntriesConcat(a, b[..|b| - 1]);
      assert (a + b)[..|a + b| - 1] == a + b[..|b| - 1];
    }
  }

  lemma {:induction false} NoUserEntries(h: seq<HistoryEntry>)
    requires forall e :: e in h ==> !e.UserEntry?
    ensures UserEntries(h) == []
    decreases |h|
  {
    if h != [] { NoUserEntries(h[..|h| - 1]); }
  }

  lemma {:induction false} AllUserEntries(h: seq<HistoryEntry>)
    requires forall e :: e in h ==> e.UserEntry?
    ensures UserEntries(h) == h
    decreases |h|
  {
    if h != [] { AllUserEntries(h[..|h| - 1]); }
  }

  lemma {:induction false} FlattenConcat(a: seq<seq<Fragment>>, b: seq<seq<Fragment>>)
    ensures Flatten(a + b) == Flatten(a) + Flatten(b)
    decreases |b|
  {
    if b == [] {
      assert a + b == a;
    } else {
      var before, last := b[..|b| - 1], b[|b| - 1];
      FlattenConcat(a, before);
      assert (a + b)[..|a + b| - 1] == a + before && (a + b)[|a + b| - 1] == last;
      assert (Flatten(a) + Flatten(before)) + last == Flatten(a) + (Flatten(before) + last);
    }
  }

  lemma FlattenSnoc(groups: seq<seq<Fragment>>, g: seq<Fragment>)
    ensures Flatten(groups + [g]) == Flatten(groups) + g
  {
    assert (groups + [g])[..|groups|] == groups;
  }

  lemma {:induction false} SinglesFlatten(fs: seq<Fragment>)
    ensures Flatten(Singles(fs)) == fs
    ensures forall g :: g in Singles(fs) ==> g != []
    ensures |Singles(fs)| == |fs| && forall i :: 0 <= i < |fs| ==> Singles(fs)[i] == [fs[i]]
    decreases |fs|
  {
    if fs != [] {
      var before, last := fs[..|fs| - 1], fs[|fs| - 1];
      SinglesFlatten(before);
      FlattenSnoc(Singles(before), [last]);
      assert before + [last] == fs;
    }
  }

  /** Grouping a workspace loses, duplicates and reorders nothing. */
  lemma {:induction false} GroupingFlattens(fs: seq<Fragment>, merge: bool)
    ensures Flatten(Grouping(fs, merge)) == fs
    ensures forall g :: g in Grouping(fs, merge) ==> g != []
  {
    SinglesFlatten(fs);
    if merge && fs != [] { assert Flatten([fs]) == Flatten([]) + fs; }
  }

  function Committed(v: View, merge: bool): View {
    GroupingFlattens(v.ds.workspace.fragments, merge);
    v.(ds := v.ds.(workspace := Workspace([], None)),
       history := v.history + Entries(Grouping(v.ds.workspace.fragments, merge)))
  }

  function Timeouts(missing: seq<string>): seq<HistoryEntry> {
    seq(|missing|, i requires 0 <= i < |missing| => TimeoutEntry(missing[i]))
  }

  function PairedId(obs: Observation): string {
    if obs.resultId == "" then obs.source else obs.resultId
  }

  function Delivered(cfg: Config, v: View, text: string): View {
    var w := if v.fsm == FsmState.Thinking then Fire(Fire(v, LlmResult), RouteToResponse) else v;
    if text == "" then Fire(w, ResponseDelivered)
    else
      var r := w.(history := w.history + [AssistantEntry(text)]);
      Fire(r, if BudgetExhausted(cfg, v.ds) then StopConditionMet else ResponseDelivered)
  }

  // ---------- effects ----------

  /** The transitions made before a StartLlm effect calls the LLM. */
  function BeforeThinking(v: View, allOk: bool): View {
    if v.fsm == Listening || v.fsm == FsmState.Idle then Fire(v, UserObservation)
    else if v.fsm == Acting then Fire(v, if allOk then ActionComplete else ActionFailed)
    else if v.fsm == FsmState.Thinking then Fire(Fire(v, LlmResult), RouteToContinue)
    else v
  }

  /** Effects whose handler re-enters the reducer or the LLM. */
  predicate Recursive(e: Effect) {
    e.StartLlm? || e.StartLlmContinuation? || e.EmitToolCallFrames? || e.StartTurnTriggerClassification?
  }

  /** The effect cannot reach the LLM or the reducer again, given whether the turn's budget is used up. */
  predicate Quiet(e: Effect, exhausted: bool) {
    !Recursive(e) || (exhausted && (e.StartLlm? || e.StartLlmContinuation?))
  }

  /** What a quiet effect does; `filter` is the configured response filter. With the budget used up,
      starting the LLM only stops the turn. */
  function Apply(cfg: Config, filter: string -> string, v: View, e: Effect): View {
    match e
    case RecordMemory(obs) => v.(history := v.history + [SystemEventEntry(obs.content, obs.source)])
    case CancelLlm => Fire(v, Interrupt)
    case SignalBudgetExhausted => Fire(v, StopConditionMet)
    case RecordToolResult(obs) => v.(history := v.history + [ToolResultEntry(PairedId(obs), obs.content)])
    case RecordToolCallDecision(c) => v.(history := v.history + [ToolCallEntry(c.toolCalls)])
    case DeliverResponse(c) => Delivered(cfg, v, filter(c.responseText))
    case ScheduleTimer(kind, id, deadline) => v.(timers := v.timers[id := Timer(kind, deadline)])
    case CancelTimer(id) => v.(timers := v.timers - {id})
    case TransitionState(ev) => Fire(v, ev)
    case RecordInterruptMemory => v.(history := v.history + [InterruptedEntry])
    case RecordTimeoutResults(missing) =>
      var w := v.(history := v.history + Timeouts(missing));
      if w.fsm == Acting then Fire(w, ActionFailed) else w
    case CommitWorkspace(merge) => Committed(v, merge)
    case DiscardWorkspace => v.(ds := v.ds.(workspace := Workspace([], None)))
    case StartLlm(_) => Fire(BeforeThinking(v, true), StopConditionMet)
    case StartLlmContinuation(_) => Fire(Fire(v, UserObservation), StopConditionMet)
    case _ => v
  }

  lemma ApplyCancelLlm(cfg: Config, filter: string -> string, v: View)
    ensures Apply(cfg, filter, v, CancelLlm) == Fire(v, Interrupt)
  {}

  lemma ApplyInterruptMemory(cfg: Config, filter: string -> string, v: View)
    ensures Apply(cfg, filter, v, RecordInterruptMemory) == v.(history := v.history + [InterruptedEntry])
  {}

  lemma ApplySchedule(cfg: Config, filter: string -> string, v: View, kind: TimerKind, id: string, deadline: int)
    ensures Apply(cfg, filter, v, ScheduleTimer(kind, id, deadline)) ==
      v.(timers := v.timers[id := Timer(kind, deadline)])
  {}

  lemma ApplyCancelTimer(cfg: Config, filter: string -> string, v: View, id: string)
    ensures Apply(cfg, filter, v, CancelTimer(id)) == v.(timers := v.timers - {id})
  {}

  function ApplyAll(cfg: Config, filter: string -> string, v: View, es: seq<Effect>): View
    decreases |es|
  {
    if es == [] then v else ApplyAll(cfg, filter, Apply(cfg, filter, v, es[0]), es[1..])
  }

  // ---------- laws of the reducer the controller relies on ----------

  /** The message the reducer buffers on this event, if any. */
  function AcceptedBy(s: DialogueState, e: DialogueEvent): seq<Fragment> {
    if UserMessageEvent(e) && (s.cooldown == Debouncing || StartsTurn(s, e)) then [FragmentOf(e.obs, e.now)]
    else if e.UserFragmentReceived? then [FragmentOf(e.obs, e.now)]
    else []
  }

  /** The reducer only ever appends to the workspace, and never sets an assistant partial. */
  lemma {:induction false} WorkspaceLaw(cfg: Config, s: DialogueState, e: DialogueEvent)
    ensures var n := Reduce(cfg, s, e).next.workspace;
      n.fragments == s.workspace.fragments + AcceptedBy(s, e) && n.partial == s.workspace.partial
  {}

  /** 0: cannot reach the LLM; 2: may start it; 3: starts a classification, which may start it. */
  function Level(e: DialogueEvent): nat {
    if e.LlmFailed? then 0 else if UserMessageEvent(e) then 3 else 2
  }

  /** What may stand at one position of a decision. */
  predicate Placed(s: DialogueState, e: DialogueEvent, es: seq<Effect>, i: nat, spent: bool)
    requires i < |es|
  {
    && (es[i].SignalBudgetExhausted? ==> spent && forall j :: 0 <= j < i ==> !Recursive(es[j]))
    && (Recursive(es[i]) ==> Level(e) >= 2 && forall j :: 0 <= j < i ==> !Recursive(es[j]))
    && (es[i].StartTurnTriggerClassification? ==> Level(e) == 3)
    && (es[i].EmitToolCallFrames? ==> e.LlmCompleted?)
    && (es[i].StartLlm? ==> es[i].trigger.kind == ObservationKind.Continuation)
    && (es[i].TransitionState? ==> es[i].event == FsmEvent.LlmFailure)
    && (es[i].DiscardWorkspace? ==> s.workspace.partial.Some?)
  }

  lemma InterruptEffects(cfg: Config, s: DialogueState, now: int, x: Effect)
    requires x in HandleInterrupt(cfg, s, now).effects
    ensures !Recursive(x) && !x.TransitionState? && !x.SignalBudgetExhausted?
    ensures (x.DiscardWorkspace? ==> s.workspace.partial.Some?)
  {}

  lemma UserMessageEffects(s: DialogueState, obs: Observation, now: int, i: nat)
    requires i < |HandleUserMessage(s, obs, now).effects|
    ensures var es := HandleUserMessage(s, obs, now).effects;
      && (if i + 1 < |es| || s.cooldown == Debouncing then !Recursive(es[i]) else es[i].StartTurnTriggerClassification?)
      && !es[i].TransitionState? && !es[i].SignalBudgetExhausted? && !es[i].DiscardWorkspace? && !es[i].StartLlm?
            && !es[i].EmitToolCallFrames?
  {}

  /** At most one effect of any decision is recursive, and none discards user fragments unless an
      assistant partial exists. */
  lemma {:induction false} EffectLaw(cfg: Config, s: DialogueState, e: DialogueEvent, i: nat)
    requires i < |Reduce(cfg, s, e).effects|
    ensures Placed(s, e, Reduce(cfg, s, e).effects, i, BudgetExhausted(cfg, Reduce(cfg, s, e).next))
  {
    hide HandleInterrupt, HandleUserMessage;
    var es := Reduce(cfg, s, e).effects;
    if e.InterruptRequested? {
      InterruptEffects(cfg, s, e.now, es[i]);
    } else if UserMessageEvent(e) {
      UserMessageEffects(s, e.obs, e.now, i);
      forall j | 0 <= j <= i ensures j < i ==> !Recursive(es[j]) {
        UserMessageEffects(s, e.obs, e.now, j);
      }
    }
  }
}
