/** The controller: a loop that reduces queued observations and expired timers and runs the resulting
    effects, some of which call the LLM and reduce again. The LLM's replies, the early returns on an
    interrupt, the clock and a non-passthrough aggregator are arbitrary. */
module Controller {
  import opened DialogueTypes
  import opened Text
  import opened DialogueReducer
  import opened TurnTriggers
  import opened TimerBooks
  import opened ControllerModel
  import opened TimerLiveness
  import opened ControllerLaws
  import opened RunLog
  import Policy

  /** Prompt and completion tokens of a reply; every completion reports at least one token. */
  type Usage = u: (int, int) | u.0 + u.1 >= 1 witness (1, 0)

  datatype Reply = Completed(candidate: Candidate, usage: Usage) | Failed | Interrupted

  /** The three counters at the moment a request goes out to the LLM. */
  datatype Submit = Submit(tokens: int, actions: int, continuations: int)

  /** What became of one batch of tool calls, under the capabilities held at that moment. */
  datatype Verdict =
    | Acted(calls: seq<ToolCall>, granted: set<string>)
    | Refused(calls: seq<ToolCall>, granted: set<string>)

  /** The calls of the batches that were acted on, in order. */
  function Emitted(verdicts: seq<Verdict>): seq<ToolCall> {
    if verdicts == [] then []
    else
      var last := verdicts[|verdicts| - 1];
      Emitted(verdicts[..|verdicts| - 1]) + if last.Acted? then last.calls else []
  }

  lemma EmittedSnoc(verdicts: seq<Verdict>, v: Verdict)
    ensures Emitted(verdicts + [v]) == Emitted(verdicts) + if v.Acted? then v.calls else []
  {
    assert (verdicts + [v])[..|verdicts|] == verdicts;
  }

  /** The size of the last batch acted on. */
  function LastBatch(verdicts: seq<Verdict>): nat {
    if verdicts == [] then 0
    else
      var last := verdicts[|verdicts| - 1];
      if last.Acted? then |last.calls| else LastBatch(verdicts[..|verdicts| - 1])
  }

  lemma LastBatchSnoc(verdicts: seq<Verdict>, v: Verdict)
    ensures LastBatch(verdicts + [v]) == if v.Acted? then |v.calls| else LastBatch(verdicts)
  {
    assert (verdicts + [v])[..|verdicts|] == verdicts;
  }

  ghost predicate SomeDenied(verdicts: seq<Verdict>) {
    exists v :: v in verdicts && v.Refused?
  }

  lemma SomeDeniedSnoc(verdicts: seq<Verdict>, v: Verdict)
    ensures SomeDenied(verdicts + [v]) <==> SomeDenied(verdicts) || v.Refused?
  {
    assert v in verdicts + [v];
    assert forall x :: x in verdicts ==> x in verdicts + [v];
  }

  /** The rules may allow every call. */
  ghost predicate AllAllowed(rules: seq<Policy.Rule>, granted: set<string>, calls: seq<ToolCall>) {
    forall c :: c in calls ==> Policy.Possible(multiset(rules), granted, c.name, Policy.Allow)
  }

  /** The rules may refuse some call. */
  ghost predicate SomeRefused(rules: seq<Policy.Rule>, granted: set<string>, calls: seq<ToolCall>) {
    exists c, o :: c in calls && o != Policy.Allow && Policy.Possible(multiset(rules), granted, c.name, o)
  }

  ghost predicate Fair(rules: seq<Policy.Rule>, v: Verdict) {
    if v.Acted? then AllAllowed(rules, v.granted, v.calls) else SomeRefused(rules, v.granted, v.calls)
  }

  /** Where a decision's effects started from. */
  datatype Mark = Mark(
    view: View, frames: seq<ToolCall>, verdicts: seq<Verdict>, submits: seq<Submit>, replies: seq<DialogueEvent>,
    preempts: nat, stops: seq<DialogueState>, denied: bool, systemSeen: bool)

  lemma ActedIsFair(rules: seq<Policy.Rule>, v: Verdict)
    requires v.Acted? && AllAllowed(rules, v.granted, v.calls)
    ensures Fair(rules, v)
  {}

  lemma RefusedIsFair(rules: seq<Policy.Rule>, v: Verdict)
    requires v.Refused? && SomeRefused(rules, v.granted, v.calls)
    ensures Fair(rules, v)
  {}

  /** Effects that add an entry to the history. */
  predicate Records(e: Effect) {
    e.RecordMemory? || e.RecordToolResult? || e.RecordToolCallDecision? || e.RecordInterruptMemory?
  }

  /** Effects that make a transition. */
  predicate Transits(e: Effect) {
    e.CancelLlm? || e.SignalBudgetExhausted? || e.TransitionState? || e.RecordTimeoutResults?
  }

  /** All that handling an observation may change. */
  datatype Standing = Standing(
    fsm: FsmState, ds: DialogueState, timers: Timers, history: seq<HistoryEntry>, accepted: seq<Fragment>,
    submits: seq<Submit>, preempts: nat, frames: seq<ToolCall>, verdicts: seq<Verdict>, denied: bool, systemSeen: bool)

  predicate Busy(fsm: FsmState) {
    fsm == FsmState.Thinking || fsm == Routing || fsm == Acting
  }

  predicate Open(fsm: FsmState) {
    fsm == Listening || fsm == FsmState.Idle
  }

  /** Which observations a state takes up at all. */
  predicate TakesUp(fsm: FsmState, kind: ObservationKind) {
    || (Busy(fsm) && (kind == ObservationKind.UserMessage || kind == ObservationKind.Interruption))
    || (fsm == Acting && kind == ObservationKind.ToolResult)
    || (Open(fsm) && (kind == ObservationKind.UserMessage || kind == ObservationKind.SystemEvent))
  }

  predicate AskedBetween(s: Standing, t: Standing) {
    |t.submits| + t.preempts > |s.submits| + s.preempts
  }

  predicate UndisturbedBetween(s: Standing, t: Standing) {
    && t.submits == s.submits && t.preempts == s.preempts && t.frames == s.frames && t.verdicts == s.verdicts
    && t.denied == s.denied && t.systemSeen == s.systemSeen
  }

  /** What handling one observation comes to: a message during a turn interrupts it and is kept; an interruption
      interrupts; a message while listening is accepted and asks the LLM if it starts a turn; the result that
      completes the pending calls asks the LLM while the budget lasts; a system event asks it in an idle turn;
      everything else, a tool result outside Acting included, changes nothing. */
  ghost predicate Answers(cfg: Config, passthrough: bool, s: Standing, obs: Observation, t: Standing) {
    && (Busy(s.fsm) && (obs.kind == ObservationKind.UserMessage || obs.kind == ObservationKind.Interruption) ==>
          t.fsm == Listening && t.ds.cooldown == Debouncing && t.ds.workspace.fragments == []
            && UndisturbedBetween(s, t))
    && (Busy(s.fsm) && obs.kind == ObservationKind.UserMessage ==>
          exists now :: t.accepted == s.accepted + [FragmentOf(obs, now)])
    && (Busy(s.fsm) && obs.kind == ObservationKind.Interruption ==> t.accepted == s.accepted)
    && (Open(s.fsm) && obs.kind == ObservationKind.UserMessage && passthrough && Takes(s.ds) ==>
          && (exists now :: t.accepted == s.accepted + [FragmentOf(obs, now)])
          && (s.ds.cooldown == NoCooldown && AllowsAsking(cfg) ==> AskedBetween(s, t)))
    && (Open(s.fsm) && obs.kind == ObservationKind.UserMessage && passthrough && !Takes(s.ds) ==>
          t.accepted == s.accepted)
    && (s.fsm == Acting && obs.kind == ObservationKind.ToolResult ==>
          && t.accepted == s.accepted
          && (Completes(s.ds, ResultId(s.ds, obs)) && !BudgetExhausted(cfg, s.ds) && cfg.maxRetries >= 0 ==>
                AskedBetween(s, t)))
    && (Open(s.fsm) && obs.kind == ObservationKind.SystemEvent ==>
          && t.accepted == s.accepted
          && (s.fsm == FsmState.Idle && s.ds.deliberation == Deliberation.Idle && AllowsAsking(cfg) ==>
                AskedBetween(s, t)))
    && (!TakesUp(s.fsm, obs.kind) ==> t == s)
  }

  // ---------- a whole session ----------

  predicate NoSystemEvents(inputs: seq<Observation>) {
    forall o :: o in inputs ==> o.kind != ObservationKind.SystemEvent
  }

  /** Whatever the call, evaluation can only allow it. */
  ghost predicate NeverRefuses(rules: seq<Policy.Rule>, granted: set<string>) {
    forall action, o :: Policy.Possible(multiset(rules), granted, action, o) ==> o == Policy.Allow
  }

  lemma NothingRefused(rules: seq<Policy.Rule>, granted: set<string>, verdicts: seq<Verdict>)
    requires NeverRefuses(rules, granted)
    requires forall v :: v in verdicts ==> Fair(rules, v) && v.granted == granted
    ensures !SomeDenied(verdicts)
  {
    forall v | v in verdicts ensures v.Acted? { assert Fair(rules, v); }
  }

  lemma NoEventHandled(handled: seq<Handled>, at: seq<nat>, inputs: seq<Observation>, queue: seq<Observation>)
    requires InOrder(handled, at, inputs, queue) && NoSystemEvents(inputs)
    ensures !SomeEvent(handled)
  {
    forall h | h in handled ensures !StartsEvent(h) {
      var k :| 0 <= k < |handled| && handled[k] == h;
      assert h.obs == inputs[at[k]];
    }
  }

  class Controller {
    const cfg: Config
    const session: string
    const filter: string -> string
    const passthrough: bool
    const book: TimerBook
    const policy: Policy.PolicyLayer
    var fsm: FsmState
    var ds: DialogueState
    var queue: seq<Observation>
    var history: seq<HistoryEntry>
    var pendingAction: Candidate
    var allSucceeded: bool
    var frames: seq<ToolCall>
    // What happened so far, for stating properties of whole runs.
    ghost var accepted: seq<Fragment>
    ghost var groups: seq<seq<Fragment>>
    ghost var submits: seq<Submit>
    ghost var replies: seq<DialogueEvent>
    ghost var preempts: nat
    ghost var stops: seq<DialogueState>
    ghost var verdicts: seq<Verdict>
    ghost var denied: bool
    ghost var systemSeen: bool

    ghost function Snapshot(): View
      reads this`fsm, this`ds, this`queue, this`history, book`model
    {
      View(fsm, ds, book.model, history, queue)
    }

    /** Accepted messages, in arrival order, are the committed fragments followed by the workspace; the
        user entries of the history are the committed groups. */
    ghost predicate Conserved()
      reads this`ds, this`history, this`accepted, this`groups
    {
      && ds.workspace.partial == None
      && (forall g :: g in groups ==> g != [])
      && accepted == Flatten(groups) + ds.workspace.fragments
      && UserEntries(history) == Entries(groups)
    }

    /** Every request went out with all three counters below their limits, and the actions exceed theirs by less than
        the last batch acted on. */
    ghost predicate WithinBudget()
      reads this`ds, this`submits, this`verdicts
    {
      && (forall s :: s in submits ==>
            s.tokens < cfg.tokenBudget && s.actions < cfg.actionLimit && s.continuations < cfg.maxContinuations)
      && CountersBounded(cfg, ds, LastBatch(verdicts))
    }

    /** Every stop, which is what empties the queue, met a used-up budget. */
    ghost predicate StopsSpent()
      reads this`stops
    {
      forall s :: s in stops ==> BudgetExhausted(cfg, s)
    }

    /** The frames emitted so far are exactly those of the batches acted on. Each of those batches was wholly
        allowed under the capabilities held then, and each refused batch held a call that was not. */
    ghost predicate Permitted()
      reads this`frames, this`verdicts, this`denied
    {
      && frames == Emitted(verdicts) && (forall v :: v in verdicts ==> Fair(policy.rules, v))
      && (denied <==> SomeDenied(verdicts))
    }

    ghost predicate Valid()
      reads this, book, policy
    {
      book.Valid() && policy.Valid() && Conserved() && WithinBudget() && StopsSpent() && Permitted()
    }

    /** No denial so far, no system event so far, and messages are not held back by an aggregator. */
    ghost predicate Clean()
      reads this`denied, this`systemSeen
    {
      !denied && !systemSeen && passthrough
    }

    /** The invariant between loop steps. */
    ghost predicate Ready()
      reads this, book, policy
    {
      Valid() && (Clean() ==> Settled(Snapshot()))
    }

    /** What no step undoes. Nothing accepted, committed, recorded, requested or emitted is ever taken back. */
    twostate predicate Grows()
      reads this, policy
    {
      && (old(denied) ==> denied) && (old(systemSeen) ==> systemSeen)
      && (old(fsm) == Error ==> fsm == Error)
      && old(accepted) <= accepted && old(groups) <= groups && old(history) <= history
      && old(frames) <= frames && old(verdicts) <= verdicts
      && old(submits) <= submits && old(replies) <= replies && old(preempts) <= preempts && old(stops) <= stops
      && policy.capabilities == old(policy.capabilities) && HeldFrom(|old(verdicts)|)
    }

    /** The verdicts from number n on were given under the capabilities held. */
    ghost predicate HeldFrom(n: nat)
      reads this`verdicts, policy
    {
      forall k :: n <= k < |verdicts| ==> verdicts[k].granted == policy.Granted(session)
    }

    /** The queue is as it was, unless a stop has emptied it. */
    twostate predicate QueueKept()
      reads this`queue, this`stops
    {
      old(stops) <= stops && (queue == old(queue) || (queue == [] && |stops| > |old(stops)|))
    }

    /** The progress of a step that takes no observation off the queue and is not a system event. */
    twostate predicate Progress()
      reads this, policy
    {
      Grows() && QueueKept() && systemSeen == old(systemSeen)
    }

    /** A clean run comes to rest with the reducer still thinking only through a stop. */
    twostate predicate Rests()
      reads this, book
    {
      !old(AtRest(Snapshot())) ==> ComesToRest(old(stops))
    }

    ghost predicate ComesToRest(was: seq<DialogueState>)
      reads this, book
    {
      Clean() && AtRest(Snapshot()) ==> |stops| > |was|
    }

    /** Where a turn stands after the LLM replies since `was`: results are awaited if and only if the last one asked for
        tools. Without a reply the phase is the one it was. */
    ghost predicate Follows(was: seq<DialogueEvent>, phase: Deliberation)
      reads this`ds, this`replies
    {
      && was <= replies
      && (replies == was ==> ds.deliberation == phase)
      && (replies != was ==> (ds.deliberation == AwaitingToolResults <==> AsksForTools(replies[|replies| - 1])))
    }

    /** No request, frame, denial or system event since. */
    twostate predicate Undisturbed()
      reads this
    {
      && submits == old(submits) && preempts == old(preempts) && frames == old(frames) && verdicts == old(verdicts)
      && denied == old(denied) && systemSeen == old(systemSeen)
    }

    /** The LLM was asked, or an interrupt arrived just before it was. */
    twostate predicate Asked()
      reads this`submits, this`preempts
    {
      |submits| + preempts > |old(submits)| + old(preempts)
    }

    /** The next verdict is the one on this batch: either its frames were emitted next, or it was refused. */
    twostate predicate Judged(calls: seq<ToolCall>)
      reads this`frames, this`verdicts, this`denied
    {
      var n := |old(verdicts)|;
      && old(verdicts) <= verdicts && n < |verdicts| && verdicts[n].calls == calls
      && (if verdicts[n].Acted? then old(frames) + calls <= frames else denied)
    }

    constructor (cfg: Config, session: string, filter: string -> string, passthrough: bool, policy: Policy.PolicyLayer)
      requires policy.Valid()
      ensures Ready() && fresh(book) && this.policy == policy && this.cfg == cfg && this.session == session
      ensures this.filter == filter && this.passthrough == passthrough
      ensures fsm == FsmState.Idle && ds == INITIAL_STATE && book.model == map[] && queue == [] && history == []
      ensures accepted == [] && groups == [] && submits == [] && replies == [] && frames == [] && verdicts == []
      ensures stops == []
      ensures preempts == 0 && !denied && !systemSeen
    {
      this.cfg, this.session, this.filter, this.passthrough, this.policy := cfg, session, filter, passthrough, policy;
      book := new TimerBook();
      fsm, ds, queue, history := FsmState.Idle, INITIAL_STATE, [], [];
      pendingAction, allSucceeded, frames := Candidate(Respond, "", []), true, [];
      accepted, groups, submits, preempts, stops := [], [], [], 0, [];
      verdicts, replies, denied, systemSeen := [], [], false, false;
    }

    method Clock() returns (now: int)
    {
      now := *;
    }

    // ---------- handlers that do not reach the LLM ----------

    method TryTransition(e: FsmEvent) returns (ok: bool)
      requires StopsSpent() && (e == StopConditionMet ==> BudgetExhausted(cfg, ds))
      modifies this`fsm, this`queue, this`stops
      ensures Snapshot() == Fire(old(Snapshot()), e) && StopsSpent()
      ensures ok <==> Target(old(fsm), e).Some?
      ensures var stopped := e == StopConditionMet && Target(old(fsm), e) == Some(FsmState.Idle);
        stops == old(stops) + if stopped then [ds] else []
      ensures QueueKept()
      ensures old(fsm) == Error && e != Recover && e != FsmEvent.Shutdown ==> fsm == Error
    {
      match Target(fsm, e)
      case None => ok := false;
      case Some(t) =>
        fsm, ok := t, true;
        if e == StopConditionMet && t == FsmState.Idle { queue, stops := [], stops + [ds]; }
    }

    /** A transition, keeping the invariants. */
    method Move(e: FsmEvent)
      requires Valid() && (e == StopConditionMet ==> BudgetExhausted(cfg, ds))
      modifies this`fsm, this`queue, this`stops
      ensures Valid() && Snapshot() == Fire(old(Snapshot()), e) && QueueKept()
      ensures e == StopConditionMet && old(fsm) == FsmState.Thinking ==> |stops| > |old(stops)|
      ensures old(fsm) == Error && e != Recover && e != FsmEvent.Shutdown ==> fsm == Error
    {
      hide Represents, Conserved, Permitted, WithinBudget, Fire, Target;
      StopLeadsToIdle();
      var _ := TryTransition(e);
    }

    method Record(es: seq<HistoryEntry>)
      requires Conserved() && forall e :: e in es ==> !e.UserEntry?
      modifies this`history
      ensures Conserved() && history == old(history) + es
    {
      UserEntriesConcat(history, es);
      NoUserEntries(es);
      history := history + es;
    }

    method MergeFragments(fs: seq<Fragment>) returns (entry: HistoryEntry)
      requires fs != []
      ensures entry == MergeEntry(fs)
    {
      var content, source, latest := "", "", fs[0].timestamp;
      for i := 0 to |fs|
        invariant content == MergedContent(fs[..i])
        invariant i > 0 ==> source == fs[i - 1].source && latest == Latest(fs[..i])
        invariant i == 0 ==> latest == fs[0].timestamp
      {
        assert fs[..i + 1][..i] == fs[..i];
        if content != "" { content := content + " "; }
        content := content + fs[i].content;
        source := fs[i].source;
        if fs[i].timestamp > latest { latest := fs[i].timestamp; }
      }
      assert fs[..|fs|] == fs;
      entry := UserEntry(content, source, latest);
    }

    method RecordFragments(fs: seq<Fragment>)
      requires forall g :: g in Singles(fs) ==> g != []
      modifies this`history
      ensures history == old(history) + Entries(Singles(fs))
    {
      SinglesFlatten(fs);
      ghost var entries := Entries(Singles(fs));
      for i := 0 to |fs|
        invariant history == old(history) + entries[..i]
      {
        SingleEntry(fs[i]);
        assert entries[i] == MergeEntry([fs[i]]);
        history := history + [UserEntry(fs[i].content, fs[i].source, fs[i].timestamp)];
      }
      assert entries[..|fs|] == entries;
    }

    /** Commits the buffered fragments, merged into one entry or one entry each, and empties the workspace. */
    method CommitWorkspace(merge: bool)
      requires Conserved()
      modifies this`ds, this`history, this`groups
      ensures Conserved() && Snapshot() == Committed(old(Snapshot()), merge) && old(groups) <= groups
    {
      hide Represents, UserEntries, Flatten, Singles, Latest, MergedContent;
      var fs := ds.workspace.fragments;
      GroupingFlattens(fs, merge);
      if merge && fs != [] {
        var entry := MergeFragments(fs);
        history := history + [entry];
        assert Entries([fs]) == [entry];
      } else if !merge {
        RecordFragments(fs);
      }
      CommitKeepsOrder(old(history), groups, fs, merge);
      groups := groups + Grouping(fs, merge);
      ds := ds.(workspace := Workspace([], None));
    }

    /** A stop is only ever signalled, and the FSM only failed, for cause. */
    ghost predicate Affordable(e: Effect)
      reads this`ds
    {
      && (e.TransitionState? ==> e.event == FsmEvent.LlmFailure)
      && (e.SignalBudgetExhausted? ==> BudgetExhausted(cfg, ds))
    }

    method HandleResponding(text: string)
      requires Conserved() && StopsSpent()
      modifies this`fsm, this`queue, this`stops, this`history
      ensures Conserved() && StopsSpent() && QueueKept()
      ensures var v := old(Snapshot());
        Snapshot() == if filter(text) == "" then Fire(v, ResponseDelivered)
                  else Fire(v.(history := v.history + [AssistantEntry(filter(text))]),
                            if BudgetExhausted(cfg, v.ds) then StopConditionMet else ResponseDelivered)
    {
      var shown := filter(text);
      if shown == "" {
        var _ := TryTransition(ResponseDelivered);
        return;
      }
      Record([AssistantEntry(shown)]);
      var _ := TryTransition(if BudgetExhausted(cfg, ds) then StopConditionMet else ResponseDelivered);
    }

    method RunDelivery(c: Candidate)
      requires Conserved() && StopsSpent()
      modifies this`fsm, this`queue, this`stops, this`history
      ensures Conserved() && StopsSpent() && QueueKept()
      ensures Snapshot() == Delivered(cfg, old(Snapshot()), filter(c.responseText))
    {
      if fsm == FsmState.Thinking {
        var _ := TryTransition(LlmResult);
        var _ := TryTransition(RouteToResponse);
      }
      HandleResponding(c.responseText);
    }

    method RunTransition(e: Effect)
      requires Conserved() && StopsSpent()
      requires Transits(e) && Affordable(e)
      modifies this`fsm, this`queue, this`stops, this`history
      ensures Conserved() && StopsSpent() && QueueKept() && Snapshot() == Apply(cfg, filter, old(Snapshot()), e)
    {
      hide Conserved, Fire, Target;
      match e
      case CancelLlm => var _ := TryTransition(Interrupt);
      case SignalBudgetExhausted => var _ := TryTransition(StopConditionMet);
      case TransitionState(ev) => var _ := TryTransition(ev);
      case RecordTimeoutResults(missing) => RunTimeouts(missing);
    }

    method RunTimeouts(missing: seq<string>)
      requires Conserved() && StopsSpent()
      modifies this`fsm, this`queue, this`stops, this`history
      ensures Conserved() && StopsSpent() && QueueKept()
      ensures Snapshot() == Apply(cfg, filter, old(Snapshot()), RecordTimeoutResults(missing))
    {
      hide Conserved, Fire, Target;
      Record(Timeouts(missing));
      if fsm == Acting { var _ := TryTransition(ActionFailed); }
    }

    method RunRecord(e: Effect)
      requires Conserved()
      requires Records(e)
      modifies this`history, this`allSucceeded
      ensures Conserved() && Snapshot() == Apply(cfg, filter, old(Snapshot()), e)
    {
      match e
      case RecordMemory(obs) => Record([SystemEventEntry(obs.content, obs.source)]);
      case RecordToolResult(obs) =>
        if !obs.resultOk { allSucceeded := false; }
        Record([ToolResultEntry(PairedId(obs), obs.content)]);
      case RecordToolCallDecision(c) => Record([ToolCallEntry(c.toolCalls)]);
      case RecordInterruptMemory => Record([InterruptedEntry]);
    }

    method RunCommit(merge: bool)
      requires Valid()
      modifies this`ds, this`history, this`groups
      ensures Valid() && Snapshot() == Committed(old(Snapshot()), merge) && old(groups) <= groups
      ensures SameTurn(ds, old(ds))
    {
      hide Represents, Conserved, Permitted, Grouping, Entries;
      CommitWorkspace(merge);
    }

    method RunTimer(e: Effect)
      requires book.Valid() && (e.ScheduleTimer? || e.CancelTimer?)
      modifies book
      ensures book.Valid() && Snapshot() == Apply(cfg, filter, old(Snapshot()), e)
    {
      hide Represents;
      match e
      case ScheduleTimer(kind, id, deadline) =>
        ApplySchedule(cfg, filter, Snapshot(), kind, id, deadline);
        book.Schedule(kind, id, deadline);
      case CancelTimer(id) =>
        ApplyCancelTimer(cfg, filter, Snapshot(), id);
        book.Cancel(id);
    }

    /** Runs an effect whose handler does not re-enter the reducer. */
    method RunPlain(e: Effect)
      requires Valid() && !Recursive(e) && !e.DiscardWorkspace? && Affordable(e)
      modifies this`fsm, this`queue, this`stops, this`history, this`ds, this`groups, this`allSucceeded, book
      ensures Valid() && Snapshot() == Apply(cfg, filter, old(Snapshot()), e) && old(groups) <= groups
      ensures SameTurn(ds, old(ds)) && QueueKept()
    {
      hide Represents, Conserved, Permitted, WithinBudget, Committed, Delivered, Fire, Target;
      if e.ScheduleTimer? || e.CancelTimer? {
        RunTimer(e);
      } else if e.CommitWorkspace? {
        RunCommit(e.merge);
      } else if Records(e) {
        RunRecord(e);
      } else if Transits(e) {
        RunTransition(e);
      } else if e.DeliverResponse? {
        RunDelivery(e.action);
      }
    }

    // ---------- handlers that may reach the LLM ----------

    /** Asks the policy layer about every call of a batch, stopping at the first that is not allowed. */
    method CheckBatch(calls: seq<ToolCall>) returns (allAllowed: bool)
      requires policy.Valid()
      modifies policy
      ensures policy.Valid() && policy.capabilities == old(policy.capabilities)
      ensures if allAllowed then AllAllowed(policy.rules, policy.Granted(session), calls)
              else SomeRefused(policy.rules, policy.Granted(session), calls)
    {
      for i := 0 to |calls|
        invariant policy.Valid() && policy.capabilities == old(policy.capabilities)
        invariant forall j :: 0 <= j < i ==>
                    Policy.Possible(multiset(policy.rules), policy.Granted(session), calls[j].name, Policy.Allow)
      {
        var verdict := policy.CheckPermission(session, calls[i].name);
        if verdict.outcome != Policy.Allow {
          assert calls[i] in calls;
          return false;
        }
      }
      return true;
    }

    /** Emits one tool frame per call. */
    method HandleActing(c: Candidate)
      requires Conserved() && Permitted() && WithinBudget() && ds.actions < cfg.actionLimit
      requires AllAllowed(policy.rules, policy.Granted(session), c.toolCalls)
      modifies this`pendingAction, this`ds, this`frames, this`verdicts
      ensures Conserved() && Permitted() && WithinBudget()
      ensures ds == old(ds).(actions := old(ds).actions + |c.toolCalls|)
      ensures frames == old(frames) + c.toolCalls
      ensures verdicts == old(verdicts) + [Acted(c.toolCalls, policy.Granted(session))]
    {
      hide Fair, AllAllowed, Emitted, LastBatch, SomeDenied;
      pendingAction := c;
      for i := 0 to |c.toolCalls|
        invariant ds == old(ds).(actions := old(ds).actions + i)
        invariant frames == old(frames) + c.toolCalls[..i]
        invariant verdicts == old(verdicts)
      {
        ds := ds.(actions := ds.actions + 1);
        frames := frames + [c.toolCalls[i]];
      }
      ghost var verdict := Acted(c.toolCalls, policy.Granted(session));
      EmittedSnoc(verdicts, verdict);
      LastBatchSnoc(verdicts, verdict);
      SomeDeniedSnoc(verdicts, verdict);
      ActedIsFair(policy.rules, verdict);
      verdicts := verdicts + [verdict];
    }

    /** True when some counter has reached its limit. */
    method CheckBudget() returns (stop: bool)
      ensures stop <==> BudgetExhausted(cfg, ds)
    {
      stop := ds.promptTokens + ds.completionTokens >= cfg.tokenBudget
           || ds.actions >= cfg.actionLimit
           || ds.continuations >= cfg.maxContinuations;
    }

    /** Reduces a completion and runs what follows from it. */
    method FinishThinking(candidate: Candidate, usage: Usage)
      requires Valid() && !BudgetExhausted(cfg, ds)
      requires Clean() ==> ReadyToThink(Snapshot())
      modifies this, book, policy
      ensures Ready() && Progress() && accepted == old(accepted)
      ensures Rests()
      ensures candidate.kind == CallTools ==> Judged(candidate.toolCalls)
      ensures old(replies) < replies && Follows(old(replies), old(ds.deliberation))
      ensures candidate.kind == CallTools ==>
        ToolWait() && (Stale(Snapshot()) <==> !AsksForTools(replies[|replies| - 1]))
      ensures candidate.kind == Respond ==> Undisturbed() && exists now ::
        Snapshot() == AfterResponse(cfg, filter, old(Snapshot()), candidate, usage.0, usage.1, now)
      ensures candidate.kind == Continue && cfg.maxRetries >= 0 && LeavesRoom(cfg, old(ds), usage.0 + usage.1) ==>
        Asked()
      ensures candidate.kind == Continue && old(Clean()) && SpendsUp(cfg, old(ds), usage.0 + usage.1) ==>
        Wedged(Snapshot())
      decreases Fuel(cfg, ds), 0, 7
    {
      hide Represents, Conserved, Permitted, WithinBudget, ReadyToThink, Settled, Owes, Reduce, Ripe, SpendsUp, Wedged,
           Outcome, QuietDecision, AfterResponse, Decides, LeavesRoom, Quiet, Recursive, AcceptedBy;
      var now := Clock();
      var event := LlmCompleted(candidate, usage.0, usage.1, now);
      if Clean() {
        ReadySettles(cfg, filter, Snapshot(), event);
        ReadyIsRipe(Snapshot(), event);
      }
      CounterLaw(cfg, ds, event);
      CompletionOutcome(cfg, filter, Snapshot(), event);
      ApplyDecision(event, Reduce(cfg, ds, event));
    }

    /** The last retry failed: the FSM goes to Error, which no later input leaves. */
    method FailThinking()
      requires Valid()
      requires Clean() ==> ReadyToThink(Snapshot())
      modifies this, book, policy
      ensures Follows(old(replies), old(ds.deliberation))
      ensures Ready() && Progress() && accepted == old(accepted)
      ensures old(fsm) == FsmState.Thinking ==> fsm == Error
      ensures old(fsm) == FsmState.Thinking && old(book.model) == map[] ==> Wedged(Snapshot())
      decreases Fuel(cfg, ds), 0, 7
    {
      hide Represents, Conserved, Permitted, WithinBudget, ReadyToThink, Settled, Owes, Reduce, Ripe;
      var now := Clock();
      var event := LlmFailed("LLM submit failed after retries", now);
      if Clean() { ReadySettles(cfg, filter, Snapshot(), event); }
      CounterLaw(cfg, ds, event);
      FailureOutcome(cfg, filter, Snapshot(), event);
      ApplyDecision(event, Reduce(cfg, ds, event));
    }

    /** Notes a request that goes out while the budget lasts. */
    ghost method NoteRequest()
      requires WithinBudget() && !BudgetExhausted(cfg, ds)
      modifies this`submits
      ensures WithinBudget() && submits == old(submits) + [Submit(Tokens(ds), ds.actions, ds.continuations)]
    {
      submits := submits + [Submit(Tokens(ds), ds.actions, ds.continuations)];
    }

    /** Notes an interrupt that came before the request. */
    ghost method NotePreempt()
      requires Valid()
      modifies this`preempts
      ensures Valid() && preempts == old(preempts) + 1
    {
      hide Represents, Conserved, Permitted, WithinBudget;
      preempts := preempts + 1;
    }

    /** Checks the budget, calls the LLM with retries, and reduces what comes back. */
    method HandleThinking(trigger: Observation)
      requires Valid() && trigger.kind == ObservationKind.Continuation
      requires Clean() ==> ReadyToThink(Snapshot())
      modifies this, book, policy
      ensures Follows(old(replies), old(ds.deliberation))
      ensures Ready() && Progress() && accepted == old(accepted)
      ensures Rests()
      ensures old(BudgetExhausted(cfg, ds)) ==>
        Undisturbed() && Snapshot() == Fire(old(Snapshot()), StopConditionMet)
      ensures !old(BudgetExhausted(cfg, ds)) && cfg.maxRetries >= 0 ==> Asked()
      decreases Fuel(cfg, ds), 1, 0
    {
      hide Represents, Conserved, WithinBudget, Permitted, ReadyToThink, Settled, Owes, Reduce, Ripe, Fire, Target,
           AfterResponse, LeavesRoom, Wedged, BudgetExhausted;
      if Clean() { ReadyIsSettled(Snapshot()); }
      var stop := CheckBudget();
      if stop {
        StopTurn();
        return;
      }
      var preempted: bool := *;
      if preempted {
        NotePreempt();
        return;
      }
      Request();
    }

    /** The budget is used up before the request. */
    method StopTurn()
      requires Valid() && BudgetExhausted(cfg, ds)
      requires Clean() ==> ReadyToThink(Snapshot())
      modifies this`fsm, this`queue, this`stops
      ensures Ready() && Progress() && Undisturbed() && Rests() && replies == old(replies)
      ensures Snapshot() == Fire(old(Snapshot()), StopConditionMet)
    {
      hide Represents, Conserved, WithinBudget, Permitted, ReadyToThink, Settled, Fire, Target, BudgetExhausted, AtRest;
      if Clean() { ReadyIsSettled(Snapshot()); }
      FireKeeps(Snapshot(), StopConditionMet);
      Move(StopConditionMet);
    }

    /** The request and its retries. */
    method Request()
      requires Valid() && !BudgetExhausted(cfg, ds)
      requires Clean() ==> ReadyToThink(Snapshot())
      modifies this, book, policy
      ensures Follows(old(replies), old(ds.deliberation))
      ensures Ready() && Progress() && accepted == old(accepted) && Rests()
      ensures cfg.maxRetries >= 0 ==> Asked()
      decreases Fuel(cfg, ds), 0, 9
    {
      hide Represents, Conserved, WithinBudget, Permitted, ReadyToThink, Settled, BudgetExhausted, AtRest;
      if Clean() { ReadyIsSettled(Snapshot()); }
      var attempt := 0;
      while attempt <= cfg.maxRetries
        invariant 0 <= attempt
        invariant Valid() && Snapshot() == old(Snapshot()) && accepted == old(accepted) && frames == old(frames)
        invariant replies == old(replies) && groups == old(groups) && stops == old(stops) && verdicts == old(verdicts)
        invariant denied == old(denied) && systemSeen == old(systemSeen)
        invariant old(submits) <= submits && preempts == old(preempts) && (attempt > 0 ==> Asked())
        invariant policy.capabilities == old(policy.capabilities)
        decreases cfg.maxRetries - attempt
      {
        var over := Attempt(attempt == cfg.maxRetries);
        if over { return; }
        attempt := attempt + 1;
      }
    }

    /** One request. A failed one is tried again unless it was the last. */
    method Attempt(last: bool) returns (over: bool)
      requires Valid() && !BudgetExhausted(cfg, ds)
      requires Clean() ==> ReadyToThink(Snapshot())
      modifies this, book, policy
      ensures Follows(old(replies), old(ds.deliberation))
      ensures Valid() && Progress() && accepted == old(accepted) && |submits| > |old(submits)|
      ensures last ==> over
      ensures over ==> Ready() && Rests()
      ensures !over ==>
        && Snapshot() == old(Snapshot()) && submits == old(submits) + [Submit(Tokens(ds), ds.actions, ds.continuations)]
        && preempts == old(preempts) && frames == old(frames) && groups == old(groups) && verdicts == old(verdicts)
        && replies == old(replies) && stops == old(stops) && denied == old(denied) && systemSeen == old(systemSeen)
      decreases Fuel(cfg, ds), 0, 8
    {
      hide Represents, Conserved, WithinBudget, Permitted, ReadyToThink, Settled, Owes, Reduce, Ripe, Fire, Target,
           AfterResponse, LeavesRoom, Wedged, BudgetExhausted;
      if Clean() { ReadyIsSettled(Snapshot()); }
      NoteRequest();
      var reply: Reply := *;
      match reply
      case Completed(candidate, usage) =>
        FinishThinking(candidate, usage);
        over := true;
      case Interrupted =>
        over := true;
      case Failed =>
        over := last;
        if last { FailThinking(); }
    }

    /** The whole batch was allowed: act on it. */
    method ActOnBatch(c: Candidate)
      requires Valid() && ds.actions < cfg.actionLimit
      requires AllAllowed(policy.rules, policy.Granted(session), c.toolCalls)
      modifies this
      ensures replies == old(replies)
      ensures Valid() && Progress() && Snapshot().timers == old(Snapshot()).timers
      ensures fsm == Fire(old(Snapshot()), RouteToAction).fsm
      ensures ds.cooldown == old(ds).cooldown && ds.deliberation == old(ds).deliberation
      ensures frames == old(frames) + c.toolCalls && submits == old(submits) && preempts == old(preempts)
      ensures verdicts == old(verdicts) + [Acted(c.toolCalls, policy.Granted(session))]
      ensures accepted == old(accepted) && denied == old(denied) && systemSeen == old(systemSeen)
    {
      hide Represents, Conserved, Permitted, WithinBudget, Target, Fire, AllAllowed;
      Move(RouteToAction);
      BeginBatch();
      HandleActing(c);
    }

    method BeginBatch()
      requires Valid()
      modifies this`allSucceeded
      ensures Valid() && allSucceeded
    {
      hide Represents, Conserved, Permitted, WithinBudget;
      allSucceeded := true;
    }

    /** Some call was refused: record that and let the LLM go on. */
    method DenyBatch(c: Candidate)
      requires Valid() && SomeRefused(policy.rules, policy.Granted(session), c.toolCalls)
      modifies this, book, policy
      ensures Follows(old(replies), old(ds.deliberation))
      ensures Ready() && denied && Progress() && accepted == old(accepted)
      ensures old(verdicts + [Refused(c.toolCalls, policy.Granted(session))]) <= verdicts
      ensures !old(BudgetExhausted(cfg, ds)) && cfg.maxRetries >= 0 ==> Asked()
      decreases Fuel(cfg, ds), 1, 1
    {
      hide Represents, Conserved, Permitted, WithinBudget, ReadyToThink, Settled, Target, Fire, SomeRefused,
           BudgetExhausted;
      RecordDenial(c);
      HandleThinking(Trigger("policy", 0));
    }

    method RecordDenial(c: Candidate)
      requires Valid() && SomeRefused(policy.rules, policy.Granted(session), c.toolCalls)
      modifies this`fsm, this`queue, this`stops, this`history, this`denied, this`verdicts
      ensures Valid() && denied && verdicts == old(verdicts) + [Refused(c.toolCalls, policy.Granted(session))]
      ensures history == old(history) + [DeniedEntry] && (old(fsm) == Error ==> fsm == Error) && QueueKept()
    {
      hide Represents, Conserved, Permitted, WithinBudget, SomeRefused;
      RefuseBatch(c);
      Record([DeniedEntry]);
      var _ := TryTransition(RouteToContinue);
    }

    ghost method RefuseBatch(c: Candidate)
      requires Permitted() && WithinBudget() && SomeRefused(policy.rules, policy.Granted(session), c.toolCalls)
      modifies this`denied, this`verdicts
      ensures Permitted() && WithinBudget() && denied
      ensures verdicts == old(verdicts) + [Refused(c.toolCalls, policy.Granted(session))]
    {
      hide Fair, SomeRefused, Emitted, LastBatch, SomeDenied;
      var verdict := Refused(c.toolCalls, policy.Granted(session));
      EmittedSnoc(verdicts, verdict);
      LastBatchSnoc(verdicts, verdict);
      SomeDeniedSnoc(verdicts, verdict);
      RefusedIsFair(policy.rules, verdict);
      denied := true;
      verdicts := verdicts + [verdict];
    }

    /** The transition that receives the batch, and the check of all its calls. */
    method Judge(calls: seq<ToolCall>) returns (allAllowed: bool)
      requires Valid()
      modifies this`fsm, this`queue, this`stops, policy
      ensures Valid() && QueueKept() && policy.capabilities == old(policy.capabilities)
      ensures Snapshot() == Fire(old(Snapshot()), LlmResult) && (old(fsm) == Error ==> fsm == Error)
      ensures if allAllowed then AllAllowed(policy.rules, policy.Granted(session), calls)
              else SomeRefused(policy.rules, policy.Granted(session), calls)
    {
      hide Represents, Conserved, Permitted, WithinBudget, Fire, Target, AllAllowed, SomeRefused;
      Move(LlmResult);
      allAllowed := CheckBatch(calls);
    }

    /** The LLM asked for tools: check them all, then act on all or on none. */
    method EmitToolCallFrames(c: Candidate, ghost rest: seq<Effect>) returns (acted: bool)
      requires Valid() && ds.actions < cfg.actionLimit
      requires Clean() ==> Owes(cfg, filter, Snapshot(), [Effect.EmitToolCallFrames(c)] + rest)
      modifies this, book, policy
      ensures Follows(old(replies), old(ds.deliberation))
      ensures Valid() && Progress() && accepted == old(accepted)
      ensures Clean() ==> Owes(cfg, filter, Snapshot(), rest)
      ensures Judged(c.toolCalls) && acted == verdicts[|old(verdicts)|].Acted?
      ensures verdicts[|old(verdicts)|].granted == old(policy.Granted(session))
      ensures acted ==> frames == old(frames) + c.toolCalls && submits == old(submits) && denied == old(denied)
      ensures !acted ==> denied && (!old(BudgetExhausted(cfg, ds)) && cfg.maxRetries >= 0 ==> Asked())
      decreases Fuel(cfg, ds), 1, 2
    {
      hide Represents, Conserved, Permitted, WithinBudget, ReadyToThink, Owes, Target, Settled, AllAllowed, SomeRefused;
      ghost var v0 := Snapshot();
      acted := Judge(c.toolCalls);
      if acted {
        ActOnBatch(c);
        if Clean() { ActingOwes(cfg, filter, v0, c, rest, Snapshot()); }
      } else {
        DenyBatch(c);
      }
    }

    /** Moves to Thinking from wherever the turn stands, then thinks. */
    method StartThinking(trigger: Observation)
      requires Valid() && trigger.kind == ObservationKind.Continuation
      requires Clean() ==> forall ok :: ReadyToThink(BeforeThinking(Snapshot(), ok))
      modifies this, book, policy
      ensures Follows(old(replies), old(ds.deliberation))
      ensures Ready() && Progress() && accepted == old(accepted)
      ensures ComesToRest(old(stops))
      ensures old(BudgetExhausted(cfg, ds)) ==>
        Undisturbed() && Snapshot() == Fire(BeforeThinking(old(Snapshot()), old(allSucceeded)), StopConditionMet)
      ensures !old(BudgetExhausted(cfg, ds)) && cfg.maxRetries >= 0 ==> Asked()
      decreases Fuel(cfg, ds), 1, 1
    {
      hide Represents, Conserved, Permitted, WithinBudget, ReadyToThink, Settled, Fire, Target, BeforeThinking,
           BudgetExhausted;
      assert Clean() ==> ReadyToThink(BeforeThinking(Snapshot(), allSucceeded));
      EnterThinking();
      if Clean() { ReadyIsSettled(Snapshot()); }
      HandleThinking(trigger);
    }

    /** The transitions from wherever the turn stands. */
    method EnterThinking()
      requires Valid()
      modifies this`fsm, this`queue, this`stops
      ensures Valid() && Snapshot() == BeforeThinking(old(Snapshot()), allSucceeded) && QueueKept()
      ensures old(fsm) == Error ==> fsm == Error
    {
      hide Represents, Conserved, Permitted, WithinBudget, Fire, Target;
      if fsm == Listening || fsm == FsmState.Idle {
        Move(UserObservation);
      } else if fsm == Acting {
        Move(if allSucceeded then ActionComplete else ActionFailed);
      } else if fsm == FsmState.Thinking {
        Move(LlmResult);
        Move(RouteToContinue);
      }
    }

    /** Starts the LLM once the debounce window is over. */
    method ContinueThinking(now: int)
      requires Valid()
      requires Clean() ==> ReadyToThink(Fire(Snapshot(), UserObservation))
      modifies this, book, policy
      ensures Follows(old(replies), old(ds.deliberation))
      ensures Ready() && Progress() && accepted == old(accepted)
      ensures ComesToRest(old(stops))
      ensures old(BudgetExhausted(cfg, ds)) ==>
        Undisturbed() && Snapshot() == Fire(Fire(old(Snapshot()), UserObservation), StopConditionMet)
      ensures !old(BudgetExhausted(cfg, ds)) && cfg.maxRetries >= 0 ==> Asked()
      decreases Fuel(cfg, ds), 1, 1
    {
      hide Represents, Conserved, Permitted, WithinBudget, ReadyToThink, Settled, Target, Fire;
      Move(UserObservation);
      if Clean() { ReadyIsSettled(Snapshot()); }
      HandleThinking(Trigger("controller", now));
    }

    /** The filter is switched off: every classification is answered at once with "respond now". */
    method ClassifyTrigger(id: nat)
      requires Valid()
      requires Clean() ==> forall now :: Ripe(Snapshot(), TurnTriggerClassified(id, RespondNow, now))
      modifies this, book, policy
      ensures Ready() && Progress() && accepted == old(accepted)
      ensures ComesToRest(old(stops))
      ensures !old(BudgetExhausted(cfg, ds)) && cfg.maxRetries >= 0 && old(ds).pendingTriggerId == id ==> Asked()
      decreases Fuel(cfg, ds), 2, 7
    {
      hide Represents, Conserved, Permitted, WithinBudget, Settled, Owes, Reduce, Ripe;
      var now := Clock();
      var event := TurnTriggerClassified(id, RespondNow, now);
      if Clean() {
        RipeEventsSettle(cfg, filter, Snapshot(), event);
        RipeIsAwake(Snapshot(), event);
      }
      CounterLaw(cfg, ds, event);
      if !BudgetExhausted(cfg, ds) && cfg.maxRetries >= 0 && ds.pendingTriggerId == id {
        VerdictAsks(cfg, ds, id, now);
      }
      hide Decides;
      ApplyDecision(event, Reduce(cfg, ds, event));
    }

    /** Runs an effect that calls back into the LLM or the reducer; `rest` are the effects still to come. */
    method RunRecursive(e: Effect, ghost rest: seq<Effect>, ghost level: nat)
      requires Valid() && Recursive(e) && level >= 2
      requires e.StartTurnTriggerClassification? ==> level == 3
      requires e.StartLlm? ==> e.trigger.kind == ObservationKind.Continuation
      requires e.EmitToolCallFrames? ==> ds.actions < cfg.actionLimit
      requires Clean() ==> Owes(cfg, filter, Snapshot(), [e] + rest)
      modifies this, book, policy
      ensures Valid() && Progress() && accepted == old(accepted)
      ensures Clean() ==> Owes(cfg, filter, Snapshot(), rest)
      ensures Quiet(e, old(BudgetExhausted(cfg, ds))) ==>
        Undisturbed() && Snapshot() == Apply(cfg, filter, old(Snapshot()), e)
      ensures Asks(cfg, old(ds), e) ==> Asked()
      ensures Resumes(e) ==> ComesToRest(old(stops))
      ensures !e.StartTurnTriggerClassification? ==> Follows(old(replies), old(ds.deliberation))
      ensures e.EmitToolCallFrames? ==> Judged(e.action.toolCalls)
      decreases Fuel(cfg, ds), level, 0
    {
      hide Represents, Conserved, Permitted, WithinBudget, ReadyToThink, Settled, Owes, Ripe, Fire, Target, Apply,
           BeforeThinking;
      if Clean() { OwesHead(cfg, filter, Snapshot(), e, rest); }
      match e {
        case StartLlm(trigger) =>
          QuietStart(cfg, filter, Snapshot(), e, allSucceeded);
          StartThinking(trigger);
        case StartLlmContinuation(now) =>
          QuietStart(cfg, filter, Snapshot(), e, allSucceeded);
          ContinueThinking(now);
        case EmitToolCallFrames(c) => var _ := EmitToolCallFrames(c, rest);
        case StartTurnTriggerClassification(id, _) => ClassifyTrigger(id);
      }
      OwesNothing(cfg, filter, Snapshot());
    }

    method RunSimple(e: Effect, ghost rest: seq<Effect>)
      requires Valid() && !Recursive(e) && !e.DiscardWorkspace? && Affordable(e)
      requires Clean() ==> Owes(cfg, filter, Snapshot(), [e] + rest)
      modifies this`fsm, this`queue, this`stops, this`history, this`ds, this`groups, this`allSucceeded, book
      ensures Valid() && Progress()
      ensures Clean() ==> Owes(cfg, filter, Snapshot(), rest)
      ensures Snapshot() == Apply(cfg, filter, old(Snapshot()), e) && SameTurn(ds, old(ds))
    {
      hide Represents, Conserved, Permitted, WithinBudget, Owes, Apply;
      if Clean() { OwesHead(cfg, filter, Snapshot(), e, rest); }
      ApplyKeeps(cfg, filter, Snapshot(), e);
      RunPlain(e);
    }

    method RunEffect(e: Effect, ghost rest: seq<Effect>, ghost fuel: nat, ghost level: nat)
      requires Valid() && !e.DiscardWorkspace? && Affordable(e)
      requires Recursive(e) ==> Fuel(cfg, ds) <= fuel && level >= 2
      requires e.StartTurnTriggerClassification? ==> level == 3
      requires e.StartLlm? ==> e.trigger.kind == ObservationKind.Continuation
      requires e.EmitToolCallFrames? ==> ds.actions < cfg.actionLimit
      requires Clean() ==> Owes(cfg, filter, Snapshot(), [e] + rest)
      modifies this, book, policy
      ensures Valid() && Progress() && accepted == old(accepted)
      ensures Clean() ==> Owes(cfg, filter, Snapshot(), rest)
      ensures !Recursive(e) ==> SameTurn(ds, old(ds))
      ensures Quiet(e, old(BudgetExhausted(cfg, ds))) ==>
        Undisturbed() && Snapshot() == Apply(cfg, filter, old(Snapshot()), e)
      ensures Asks(cfg, old(ds), e) ==> Asked()
      ensures Resumes(e) ==> ComesToRest(old(stops))
      ensures !e.StartTurnTriggerClassification? ==> Follows(old(replies), old(ds.deliberation))
      ensures e.EmitToolCallFrames? ==> Judged(e.action.toolCalls)
      ensures !Recursive(e) ==> frames == old(frames) && verdicts == old(verdicts)
      ensures e.ScheduleTimer? ==> Pending(e)
      decreases fuel, level, 1
    {
      hide Represents, Conserved, Permitted, WithinBudget, Owes, Apply;
      if e.ScheduleTimer? { ApplySchedule(cfg, filter, Snapshot(), e.kind, e.timerId, e.deadline); }
      if Recursive(e) { RunRecursive(e, rest, level); } else { RunSimple(e, rest); }
    }

    method Adopt(event: DialogueEvent, decision: Decision)
      requires Valid() && decision == Reduce(cfg, ds, event)
      requires event.LlmCompleted? ==> !BudgetExhausted(cfg, ds)
      modifies this`ds, this`accepted, this`replies
      ensures replies == old(replies) + LlmReply(event)
      ensures Valid() && Snapshot() == old(Snapshot()).(ds := decision.next)
      ensures old(ds).workspace.partial == None
      ensures event.LlmCompleted? ==> decision.next.actions < cfg.actionLimit
      ensures accepted == old(accepted) + AcceptedBy(old(ds), event)
    {
      hide Represents, Permitted, Reduce;
      WorkspaceLaw(cfg, ds, event);
      CounterLaw(cfg, ds, event);
      accepted := accepted + AcceptedBy(ds, event);
      replies := replies + LlmReply(event);
      ds := decision.next;
    }

    ghost function Here(): Mark
      reads this, book`model
    {
      Mark(Snapshot(), frames, verdicts, submits, replies, preempts, stops, denied, systemSeen)
    }

    ghost predicate JudgedSince(m: Mark, calls: seq<ToolCall>)
      reads this
    {
      var n := |m.verdicts|;
      && m.verdicts <= verdicts && n < |verdicts| && verdicts[n].calls == calls
      && (if verdicts[n].Acted? then m.frames + calls <= frames else denied)
    }

    /** The tool timeout is pending. */
    ghost predicate ToolWait()
      reads book`model
    {
      TOOL_TIMER in book.model && book.model[TOOL_TIMER].kind == TimerKind.ToolCallTimeout
    }

    /** The timer of a scheduling effect is pending. */
    ghost predicate Pending(e: Effect)
      requires e.ScheduleTimer?
      reads book`model
    {
      e.timerId in book.model && book.model[e.timerId] == Timer(e.kind, e.deadline)
    }

    /** What an effect that has just been run leaves behind. */
    ghost predicate LeftBy(e: Effect, was: seq<DialogueState>)
      reads this, book
    {
      (e.ScheduleTimer? ==> Pending(e)) && (Resumes(e) ==> ComesToRest(was))
    }

    /** How far the first n effects of a decision have got since `m`. */
    ghost predicate Advanced(es: seq<Effect>, n: nat, next: DialogueState, m: Mark)
      requires n <= |es|
      reads this, book
    {
      && m.frames <= frames && m.verdicts <= verdicts && m.submits <= submits && m.preempts <= preempts
      && (m.denied ==> denied) && m.stops <= stops
      && (NoneRecursive(es, n) ==> SameTurn(ds, next) && frames == m.frames && verdicts == m.verdicts)
      && (AllQuiet(es, n, BudgetExhausted(cfg, next)) ==>
            && Here().(view := m.view, stops := m.stops, replies := m.replies) == m
            && ApplyAll(cfg, filter, Snapshot(), es[n..]) == ApplyAll(cfg, filter, m.view, es))
      && (SomeAsks(cfg, next, es, n) ==> |submits| + preempts > |m.submits| + m.preempts)
      && (n >= 2 && es[1].EmitToolCallFrames? ==> JudgedSince(m, es[1].action.toolCalls))
      && (n >= 1 ==> LeftBy(es[n - 1], m.stops))
      && (NoneClassifies(es, n) ==> Follows(m.replies, next.deliberation))
    }

    /** The next effect of a decision. */
    method RunNext(es: seq<Effect>, i: nat, ghost event: DialogueEvent, ghost s: DialogueState, ghost m: Mark)
      requires Valid() && i < |es| && es == Reduce(cfg, s, event).effects && s.workspace.partial == None
      requires event.LlmCompleted? ==> Reduce(cfg, s, event).next.actions < cfg.actionLimit
      requires Advanced(es, i, Reduce(cfg, s, event).next, m)
      requires Clean() ==> Owes(cfg, filter, Snapshot(), es[i..])
      modifies this, book, policy
      ensures Valid() && Progress() && accepted == old(accepted)
      ensures Advanced(es, i + 1, Reduce(cfg, s, event).next, m)
      ensures Clean() ==> Owes(cfg, filter, Snapshot(), es[i + 1..])
      decreases Fuel(cfg, Reduce(cfg, s, event).next), Level(event), 2
    {
      hide Represents, Conserved, WithinBudget, Permitted, Owes, Settled, Reduce, Apply, ApplyAll, AcceptedBy, Level,
           Asks, SameTurn, Fuel, BudgetExhausted, NoneRecursive, AllQuiet, SomeAsks, Decides, Quiet, Recursive;
      ghost var next := Reduce(cfg, s, event).next;
      EffectPlaced(cfg, s, event, i);
      PrefixStep(cfg, next, es, i, BudgetExhausted(cfg, next));
      TurnFacts(cfg, ds, next, es[i]);
      assert es[i..] == [es[i]] + es[i + 1..];
      ApplyAllCons(cfg, filter, Snapshot(), es[i], es[i + 1..]);
      ghost var before := ds;
      RunEffect(es[i], es[i + 1..], Fuel(cfg, next), Level(event));
      SameTurnTransitive(ds, before, next);
    }

    /** Adopts the decision's state and runs its effects in order. */
    method ApplyDecision(event: DialogueEvent, decision: Decision)
      requires Valid() && decision == Reduce(cfg, ds, event)
      requires event.LlmCompleted? ==> !BudgetExhausted(cfg, ds)
      requires Clean() ==> Owes(cfg, filter, Snapshot().(ds := decision.next), decision.effects)
      modifies this, book, policy
      ensures Ready() && Progress()
      ensures accepted == old(accepted) + AcceptedBy(old(ds), event)
      ensures QuietDecision(cfg, decision) ==>
        Undisturbed() && Snapshot() == Outcome(cfg, filter, old(Snapshot()), event)
      ensures Decides(cfg, old(ds), event) ==> Asked()
      ensures old(Ripe(Snapshot(), event)) ==> Rests()
      ensures event.LlmCompleted? && event.candidate.kind == CallTools ==>
        Judged(event.candidate.toolCalls) && ToolWait()
      ensures event.LlmCompleted? || event.LlmFailed? ==>
        old(replies) < replies && Follows(old(replies), old(ds.deliberation))
      decreases Fuel(cfg, decision.next), Level(event), 6
    {
      hide Represents, Conserved, WithinBudget, Permitted, Owes, Settled, Reduce, AcceptedBy, Level, Fuel,
           BudgetExhausted, Decides, QuietDecision, Outcome, Ripe, AtRest, Resumes;
      if event.LlmCompleted? && event.candidate.kind == CallTools { ToolBatch(cfg, ds, event); }
      if event.LlmCompleted? || event.LlmFailed? { ReplyPhase(cfg, ds, event); }
      if Ripe(Snapshot(), event) && !AtRest(Snapshot()) { RestCases(cfg, filter, Snapshot(), event); }
      ghost var m := FollowDecision(event, decision);
      ToolsAreAwaited(Snapshot());
    }

    /** What the effects come to for the LLM: nothing, a request, or a judged batch. */
    method FollowDecision(event: DialogueEvent, decision: Decision) returns (ghost m: Mark)
      requires Valid() && decision == Reduce(cfg, ds, event)
      requires event.LlmCompleted? ==> !BudgetExhausted(cfg, ds)
      requires Clean() ==> Owes(cfg, filter, Snapshot().(ds := decision.next), decision.effects)
      modifies this, book, policy
      ensures Ready() && Progress()
      ensures accepted == old(accepted) + AcceptedBy(old(ds), event)
      ensures QuietDecision(cfg, decision) ==>
        Undisturbed() && Snapshot() == Outcome(cfg, filter, old(Snapshot()), event)
      ensures Decides(cfg, old(ds), event) ==> Asked()
      ensures event.LlmCompleted? && event.candidate.kind == CallTools ==> Judged(event.candidate.toolCalls)
      ensures decision.effects != [] ==> LeftBy(decision.effects[|decision.effects| - 1], old(stops))
      ensures event.LlmCompleted? || event.LlmFailed? ==> Follows(old(replies) + [event], decision.next.deliberation)
      decreases Fuel(cfg, decision.next), Level(event), 5
    {
      hide Represents, Conserved, WithinBudget, Permitted, Owes, Settled, Reduce, AcceptedBy, Level, Fuel,
           BudgetExhausted, Decides, QuietDecision, ApplyAll, NoneRecursive, AllQuiet, SomeAsks, SameTurn,
           NoneClassifies, LeftBy;
      if event.LlmCompleted? && event.candidate.kind == CallTools { ToolBatch(cfg, ds, event); }
      if event.LlmCompleted? || event.LlmFailed? { ReplyPhase(cfg, ds, event); }
      PrefixEnds(cfg, ds, event, BudgetExhausted(cfg, decision.next));
      m := RunDecision(event, decision);
      ApplyAllNil(cfg, filter, Snapshot());
      assert decision.effects[|decision.effects|..] == [];
    }

    /** The same, with where the effects started from and how far they got. */
    method RunDecision(event: DialogueEvent, decision: Decision) returns (ghost m: Mark)
      requires Valid() && decision == Reduce(cfg, ds, event)
      requires event.LlmCompleted? ==> !BudgetExhausted(cfg, ds)
      requires Clean() ==> Owes(cfg, filter, Snapshot().(ds := decision.next), decision.effects)
      modifies this, book, policy
      ensures Ready() && Progress() && accepted == old(accepted) + AcceptedBy(old(ds), event)
      ensures var start := old(Snapshot()).(ds := decision.next);
        m == old(Here()).(view := start, replies := old(replies) + LlmReply(event))
      ensures Advanced(decision.effects, |decision.effects|, decision.next, m)
      decreases Fuel(cfg, decision.next), Level(event), 4
    {
      hide Represents, Conserved, WithinBudget, Permitted, Owes, Settled, Reduce, AcceptedBy, Level, Fuel,
           BudgetExhausted, Advanced;
      ghost var s := ds;
      m := Begin(event, decision);
      RunAll(decision.effects, event, s, m);
    }

    /** Adopts the decision's state; no effect has been run yet. */
    method Begin(event: DialogueEvent, decision: Decision) returns (ghost m: Mark)
      requires Valid() && decision == Reduce(cfg, ds, event)
      requires event.LlmCompleted? ==> !BudgetExhausted(cfg, ds)
      modifies this`ds, this`accepted, this`replies
      ensures replies == old(replies) + LlmReply(event)
      ensures Valid() && Snapshot() == old(Snapshot()).(ds := decision.next)
      ensures old(ds).workspace.partial == None
      ensures event.LlmCompleted? ==> decision.next.actions < cfg.actionLimit
      ensures accepted == old(accepted) + AcceptedBy(old(ds), event)
      ensures m == Here() && Advanced(decision.effects, 0, decision.next, m)
    {
      hide Represents, Conserved, WithinBudget, Permitted, Reduce, Apply, ApplyAll, AcceptedBy, Asks, SameTurn, Fuel,
           BudgetExhausted, NoneRecursive, AllQuiet, SomeAsks, LeftBy, NoneClassifies;
      TurnFacts(cfg, decision.next, decision.next, CancelLlm);
      PrefixEnds(cfg, ds, event, BudgetExhausted(cfg, decision.next));
      Adopt(event, decision);
      m := Here();
      assert decision.effects[0..] == decision.effects;
    }

    /** Runs the effects of a decision that has been adopted. */
    method RunAll(es: seq<Effect>, ghost event: DialogueEvent, ghost s: DialogueState, ghost m: Mark)
      requires Valid() && es == Reduce(cfg, s, event).effects && s.workspace.partial == None
      requires event.LlmCompleted? ==> Reduce(cfg, s, event).next.actions < cfg.actionLimit
      requires Advanced(es, 0, Reduce(cfg, s, event).next, m)
      requires Clean() ==> Owes(cfg, filter, Snapshot(), es)
      modifies this, book, policy
      ensures Ready() && Progress() && accepted == old(accepted)
      ensures Advanced(es, |es|, Reduce(cfg, s, event).next, m) && es[|es|..] == []
      decreases Fuel(cfg, Reduce(cfg, s, event).next), Level(event), 3
    {
      hide Represents, Conserved, WithinBudget, Permitted, Owes, Settled, Reduce, Level, Fuel, Advanced;
      assert es[0..] == es;
      for i := 0 to |es|
        invariant Valid() && Progress() && accepted == old(accepted)
        invariant Advanced(es, i, Reduce(cfg, s, event).next, m)
        invariant Clean() ==> Owes(cfg, filter, Snapshot(), es[i..])
      {
        RunNext(es, i, event, s, m);
      }
      assert es[|es|..] == [];
      OwesNothing(cfg, filter, Snapshot());
    }

    // ---------- the loop ----------

    /** Reduces an event and runs the decision. */
    method Handle(event: DialogueEvent)
      requires Ready() && !event.LlmCompleted?
      requires Clean() ==> Ripe(Snapshot(), event)
      modifies this, book, policy
      ensures Ready() && Progress()
      ensures accepted == old(accepted) + AcceptedBy(old(ds), event)
      ensures QuietDecision(cfg, Reduce(cfg, old(ds), event)) ==>
        Undisturbed() && Snapshot() == Outcome(cfg, filter, old(Snapshot()), event)
      ensures old(Met(Snapshot(), event)) && QuietDecision(cfg, Reduce(cfg, old(ds), event)) ==>
        (Wedged(Snapshot()) <==> event.LlmFailed? || Stuck(Reduce(cfg, old(ds), event).next))
      ensures Decides(cfg, old(ds), event) ==> Asked()
      ensures old(Ripe(Snapshot(), event)) ==> Rests()
    {
      hide Represents, Decides, Conserved, Permitted, WithinBudget, Settled, Owes, Reduce, Ripe, Apply, ApplyAll;
      if Clean() { RipeEventsSettle(cfg, filter, Snapshot(), event); }
      if Met(Snapshot(), event) && QuietDecision(cfg, Reduce(cfg, ds, event)) {
        WedgesIff(cfg, filter, Snapshot(), event);
      }
      hide QuietDecision, Outcome, Wedged, Stuck;
      ApplyDecision(event, Reduce(cfg, ds, event));
    }

    /** Cancels the turn: buffered fragments are committed as one entry and the debounce window opens. */
    method InterruptTurn()
      requires Ready() && (fsm == FsmState.Thinking || fsm == Routing || fsm == Acting)
      modifies this, book, policy
      ensures Rests()
      ensures Ready() && Progress() && Undisturbed() && accepted == old(accepted)
      ensures fsm == Listening && ds.cooldown == Debouncing && ds.deliberation == Deliberation.Idle
      ensures ds.workspace.fragments == [] && ds.pendingCallIds == [] && ds.pendingTriggerId == 0
      ensures DEBOUNCE_TIMER in book.model
      ensures (old(ds.deliberation) == AwaitingToolResults ==> TOOL_TIMER !in book.model)
      ensures UserEntries(history) == UserEntries(old(history)) + Entries(Grouping(old(ds).workspace.fragments, true))
    {
      hide Represents, Permitted, WithinBudget, Settled, Apply, ApplyAll, UserEntries, Entries, Flatten, Grouping, Ripe;
      assert ds.workspace.partial == None;
      hide Conserved;
      var now := Clock();
      var event := InterruptRequested(now);
      if Clean() { InterruptIsRipe(Snapshot(), now); }
      forall x | x in HandleInterrupt(cfg, ds, now).effects ensures !Recursive(x) { InterruptEffects(cfg, ds, now, x); }
      InterruptOutcome(cfg, filter, Snapshot(), now);
      InterruptedHistory(history, Grouping(ds.workspace.fragments, true));
      hide HandleInterrupt;
      Handle(event);
    }

    /** A message arriving in the debounce window is buffered and nothing else happens. */
    method BufferMessage(obs: Observation)
      requires Ready() && fsm == Listening && ds.cooldown == Debouncing
      modifies this, book, policy
      ensures Rests()
      ensures Ready() && Progress() && Undisturbed()
      ensures exists t :: accepted == old(accepted) + [FragmentOf(obs, t)]
                       && Snapshot() == old(Snapshot()).(ds := Buffered(old(ds), FragmentOf(obs, t)))
    {
      hide Represents, Conserved, Permitted, WithinBudget, Settled, Apply, ApplyAll;
      var now := Clock();
      var f := FragmentOf(obs, now);
      BufferOutcome(cfg, filter, Snapshot().(ds := Buffered(ds, f)), f);
      Handle(UserMessageReceived(obs, now));
      assert accepted == old(accepted) + [FragmentOf(obs, now)];
    }

    /** A user message during a turn: interrupt, buffer the message, and commit it at once. */
    method BargeIn(obs: Observation)
      requires Ready() && (fsm == FsmState.Thinking || fsm == Routing || fsm == Acting)
      modifies this, book, policy
      ensures Rests()
      ensures Ready() && Progress() && Undisturbed()
      ensures fsm == Listening && ds.cooldown == Debouncing && ds.workspace.fragments == []
      ensures exists t :: accepted == old(accepted) + [FragmentOf(obs, t)]
    {
      hide Represents, Conserved, Permitted, WithinBudget, Settled, UserEntries, Entries, Grouping, Flatten;
      InterruptTurn();
      BufferAndCommit(obs);
    }

    method BufferAndCommit(obs: Observation)
      requires Ready() && fsm == Listening && ds.cooldown == Debouncing
      modifies this, book, policy
      ensures Ready() && Progress() && Undisturbed()
      ensures fsm == Listening && ds.cooldown == Debouncing && ds.workspace.fragments == []
      ensures exists t :: accepted == old(accepted) + [FragmentOf(obs, t)]
    {
      hide Represents, Conserved, Permitted, WithinBudget, Settled, UserEntries, Entries, Grouping, Flatten;
      BufferMessage(obs);
      if ds.workspace.fragments != [] { CommitBargeIn(); }
    }

    method CommitBargeIn()
      requires Ready()
      modifies this`ds, this`history, this`groups
      ensures Ready() && old(history) <= history && old(groups) <= groups
      ensures ds == old(ds).(workspace := Workspace([], None))
    {
      hide Represents, UserEntries, Entries, Flatten, Grouping, Permitted;
      CommitWorkspace(false);
    }

    /** A tool result while acting; a result without an id is taken for the first call still unanswered. */
    method OnToolResult(obs: Observation)
      requires Ready() && fsm == Acting
      modifies this, book, policy
      ensures Rests()
      ensures Ready() && Progress() && accepted == old(accepted)
      ensures old(Clean()) ==> old(ds.deliberation) == AwaitingToolResults
      ensures old(Completes(ds, ResultId(ds, obs)) && !BudgetExhausted(cfg, ds)) && cfg.maxRetries >= 0 ==> Asked()
      ensures old(LastResult(cfg, Snapshot(), ResultId(ds, obs))) ==> Wedged(Snapshot()) && Undisturbed()
    {
      if Clean() { ActingAwaits(Snapshot()); }
      hide Represents, Conserved, Permitted, WithinBudget, Settled, Apply, ApplyAll, Reduce, AcceptedBy, Decides,
           Wedged, Stuck, QuietDecision, Outcome, LastResult, Completes, BudgetExhausted, ResultId;
      var id := ResultId(ds, obs);
      var now := Clock();
      ResultOutcome(cfg, filter, Snapshot(), obs.(source := id), now);
      Handle(ToolResultReceived(obs.(source := id), now));
    }

    /** Re-arms the counters when waking from Idle. */
    method ResetBudgetWindow()
      requires Ready() && fsm == FsmState.Idle
      modifies this`ds, this`pendingAction
      ensures Ready()
      ensures ds == ResetTurnCounters(old(ds)).(pendingCallIds := [], pendingResults := map[])
    {
      hide Represents, UserEntries, Entries, Flatten, Permitted;
      ds := ResetTurnCounters(ds).(pendingCallIds := [], pendingResults := map[]);
      pendingAction := Candidate(Respond, "", []);
    }

    /** Idle wakes up through ResetBudgetWindow and Start; Listening stays as it is. */
    method WakeUp()
      requires Ready() && (fsm == FsmState.Idle || fsm == Listening)
      modifies this`fsm, this`queue, this`stops, this`ds, this`pendingAction
      ensures Ready() && fsm == Listening && queue == old(queue) && stops == old(stops)
      ensures ds.cooldown == old(ds).cooldown && ds.deliberation == old(ds).deliberation
      ensures ds.workspace == old(ds).workspace
      ensures old(fsm) == Listening ==> ds == old(ds)
      ensures old(fsm) == FsmState.Idle ==>
        ds == ResetTurnCounters(old(ds)).(pendingCallIds := [], pendingResults := map[])
    {
      hide Represents, Conserved, Permitted, WithinBudget;
      if fsm == FsmState.Idle {
        ResetBudgetWindow();
        var _ := TryTransition(FsmEvent.Start);
      }
    }

    /** A message the aggregator has let through, while listening. */
    method TakeMessage(obs: Observation)
      requires Ready() && fsm == Listening
      modifies this, book, policy
      ensures Rests()
      ensures Ready() && Progress()
      ensures old(Takes(ds)) ==> exists t :: accepted == old(accepted) + [FragmentOf(obs, t)]
      ensures !old(Takes(ds)) ==>
        accepted == old(accepted) && Undisturbed() && Snapshot().timers == old(Snapshot().timers) - {AGGREGATION_TIMER}
      ensures !old(Takes(ds)) ==> fsm == Listening && ds == old(ds) && history == old(history)
      ensures old(Takes(ds) && ds.cooldown == NoCooldown) && AllowsAsking(cfg) ==> Asked()
    {
      hide Represents, Conserved, Permitted, WithinBudget, Settled, Apply, ApplyAll, Reduce, AcceptedBy, Decides,
           Wedged, Stuck, QuietDecision, Outcome, Takes, AllowsAsking;
      StopHolding();
      var now := Clock();
      MessageOutcome(cfg, filter, Snapshot(), obs, now);
      Handle(AggregationComplete(obs, now));
    }

    method StopHolding()
      requires Ready()
      modifies book
      ensures Ready() && book.model == old(book.model) - {AGGREGATION_TIMER}
    {
      hide Represents, Conserved, Permitted, WithinBudget, Settled;
      if Clean() { QuietAggregation(Snapshot()); }
      book.Cancel(AGGREGATION_TIMER);
    }

    method StartHolding()
      requires Ready() && !passthrough
      modifies book
      ensures Ready() && exists deadline ::
        book.model == old(book.model)[AGGREGATION_TIMER := Timer(TimerKind.Aggregation, deadline)]
    {
      hide Represents, Conserved, Permitted, WithinBudget, Settled;
      var now := Clock();
      book.Schedule(TimerKind.Aggregation, AGGREGATION_TIMER, now + cfg.aggregationTimeout);
    }

    /** A user message while idle or listening. It is buffered by the reducer exactly when Takes holds. */
    method OnUserMessage(obs: Observation)
      requires Ready() && (fsm == FsmState.Idle || fsm == Listening)
      modifies this, book, policy
      ensures Rests()
      ensures Ready() && Progress()
      ensures passthrough && old(Takes(ds)) ==> exists t :: accepted == old(accepted) + [FragmentOf(obs, t)]
      ensures passthrough && old(Takes(ds) && ds.cooldown == NoCooldown) && AllowsAsking(cfg) ==> Asked()
      ensures passthrough && !old(Takes(ds)) ==> accepted == old(accepted)
      ensures old(Wedged(Snapshot())) ==> StillWedged()
    {
      hide Represents, Conserved, Permitted, WithinBudget, Settled, AllowsAsking;
      WakeUp();
      Aggregate(obs);
    }

    /** The aggregator lets the message through, or holds it, or lets another one through. */
    method Aggregate(obs: Observation)
      requires Ready() && fsm == Listening
      modifies this, book, policy
      ensures Ready() && Progress() && Rests()
      ensures passthrough && old(Takes(ds)) ==> exists t :: accepted == old(accepted) + [FragmentOf(obs, t)]
      ensures passthrough && old(Takes(ds) && ds.cooldown == NoCooldown) && AllowsAsking(cfg) ==> Asked()
      ensures passthrough && !old(Takes(ds)) ==> accepted == old(accepted)
      ensures old(Wedged(Snapshot())) ==> StillWedged()
    {
      hide Represents, Conserved, Permitted, WithinBudget, Settled, AllowsAsking;
      var fed := Some(obs);
      if !passthrough { fed := *; }
      if fed == None {
        StartHolding();
      } else {
        TakeMessage(fed.value);
      }
    }

    /** A system event while idle or listening goes straight to the reducer. */
    method OnSystemEvent(obs: Observation)
      requires Ready() && (fsm == FsmState.Idle || fsm == Listening)
      modifies this, book, policy
      ensures Rests()
      ensures Ready() && Grows() && QueueKept() && systemSeen && accepted == old(accepted)
      ensures cfg.maxRetries >= 0 && old(fsm == Listening && ds.deliberation == Deliberation.Idle) ==>
        old(BudgetExhausted(cfg, ds)) || Asked()
      ensures old(fsm == FsmState.Idle && ds.deliberation == Deliberation.Idle) && AllowsAsking(cfg) ==> Asked()
      ensures old(ds).deliberation != Deliberation.Idle ==>
        history == old(history) && submits == old(submits) && preempts == old(preempts) && frames == old(frames)
      ensures old(Wedged(Snapshot())) ==> StillWedged()
    {
      hide Represents, Conserved, Permitted, WithinBudget, Settled, BudgetExhausted, Stuck;
      WakeForSystemEvent();
      if old(fsm) == FsmState.Idle && AllowsAsking(cfg) { FreshTurnAllows(cfg, old(ds)); }
      TakeSystemEvent(obs);
    }

    method WakeForSystemEvent()
      requires Ready() && (fsm == FsmState.Idle || fsm == Listening)
      modifies this`fsm, this`queue, this`stops, this`ds, this`pendingAction, this`systemSeen
      ensures Ready() && systemSeen && fsm == Listening && queue == old(queue) && stops == old(stops)
      ensures ds.cooldown == old(ds).cooldown && ds.deliberation == old(ds).deliberation
      ensures ds.workspace == old(ds).workspace
      ensures old(fsm) == Listening ==> ds == old(ds)
      ensures old(fsm) == FsmState.Idle ==>
        ds == ResetTurnCounters(old(ds)).(pendingCallIds := [], pendingResults := map[])
    {
      hide Represents, Conserved, Permitted, WithinBudget, Settled;
      NoteSystemEvent();
      WakeUp();
    }

    ghost method NoteSystemEvent()
      requires Ready()
      modifies this`systemSeen
      ensures Ready() && systemSeen
    {
      hide Represents, Conserved, Permitted, WithinBudget, Settled;
      systemSeen := true;
    }

    /** A system event while listening: taken up by an idle reducer, dropped by a busy one. */
    method TakeSystemEvent(obs: Observation)
      requires Ready() && systemSeen && fsm == Listening
      modifies this, book, policy
      ensures Ready() && Progress() && accepted == old(accepted)
      ensures old(ds.deliberation == Deliberation.Idle && !BudgetExhausted(cfg, ds)) && cfg.maxRetries >= 0 ==> Asked()
      ensures old(ds).deliberation != Deliberation.Idle ==> Unmoved()
      ensures old(Settled(Snapshot()) && BudgetExhausted(cfg, ds)) ==>
        (Wedged(Snapshot()) <==> old(ds).cooldown == NoCooldown)
    {
      hide Represents, Conserved, Permitted, WithinBudget, Apply, ApplyAll, Owes, Settled, Reduce, AcceptedBy, Ripe;
      var now := Clock();
      var event := SystemEventReceived(obs, now);
      SystemEventIgnored(cfg, filter, Snapshot(), event);
      if ds.deliberation == Deliberation.Idle && !BudgetExhausted(cfg, ds) && cfg.maxRetries >= 0 {
        SystemEventAsks(cfg, ds, obs, now);
      }
      if Settled(Snapshot()) && BudgetExhausted(cfg, ds) { SystemEventWedges(cfg, filter, Snapshot(), event); }
      hide Decides, Wedged, Stuck, Outcome, QuietDecision;
      Handle(event);
    }

    /** Still wedged, with nothing accepted, requested, emitted or recorded since. */
    twostate predicate StillWedged()
      reads this, book
    {
      && Wedged(Snapshot()) && accepted == old(accepted) && submits == old(submits)
      && frames == old(frames) && history == old(history)
    }

    method PopDue(now: int) returns (fired: seq<TimerEntry>)
      requires Valid()
      modifies book
      ensures Valid() && book.model == Remaining(old(book.model), now) && Fired(old(book.model), now, fired)
    {
      hide Represents, Conserved, Permitted, WithinBudget, Remaining, Fired;
      fired := book.PopExpired(now);
    }

    /** Feeds every timer that is due to the reducer, in deadline order. */
    method Harvest() returns (now: int)
      requires Ready()
      modifies this, book, policy
      ensures Rests()
      ensures Ready() && Progress()
      ensures passthrough ==> accepted == old(accepted)
      ensures NothingDue(old(book.model), now) ==> Stand() == old(Stand()) && queue == old(queue)
      ensures old(Wedged(Snapshot())) ==> StillWedged()
    {
      hide Represents, Conserved, Permitted, WithinBudget, Settled, Ripe, Remaining, Fired, NothingDue, Wedged;
      ghost var v := Snapshot();
      now := Clock();
      var fired := PopDue(now);
      DueTimers(v, now, fired, Snapshot());
      FireAll(fired, Wedged(v));
    }

    method FireAll(fired: seq<TimerEntry>, ghost wedged: bool)
      requires Valid()
      requires Clean() ==> |fired| <= 1 && (fired == [] ==> Settled(Snapshot()))
      requires Clean() && |fired| == 1 ==> forall t :: Ripe(Snapshot(), TimerExpired(fired[0].kind, fired[0].id, t))
      requires wedged ==> Wedged(Snapshot()) && (fired != [] ==> fsm != Error)
      requires wedged ==> forall e :: e in fired ==> e.kind == TimerKind.Aggregation
      modifies this, book, policy
      ensures Rests()
      ensures Ready() && Progress()
      ensures passthrough ==> accepted == old(accepted)
      ensures fired == [] ==> Snapshot() == old(Snapshot()) && Undisturbed() && accepted == old(accepted)
      ensures wedged ==> StillWedged()
    {
      hide Represents, Conserved, Permitted, WithinBudget, Settled, Ripe, Wedged;
      for i := 0 to |fired|
        invariant Valid() && Progress() && Rests()
        invariant passthrough ==> accepted == old(accepted)
        invariant i == 0 ==> Snapshot() == old(Snapshot()) && Undisturbed() && accepted == old(accepted)
        invariant Clean() && i == |fired| ==> Settled(Snapshot())
        invariant wedged ==> StillWedged() && (fired != [] ==> fsm != Error)
      {
        FireTimer(fired[i]);
      }
    }

    /** One due timer. Aggregation timeouts ask the aggregator; everything else goes to the reducer. */
    method FireTimer(entry: TimerEntry)
      requires Valid()
      requires Clean() ==> forall t :: Ripe(Snapshot(), TimerExpired(entry.kind, entry.id, t))
      modifies this, book, policy
      ensures Rests()
      ensures Ready() && Progress()
      ensures passthrough ==> accepted == old(accepted)
      ensures AnswersTurn(entry.kind) && !old(BudgetExhausted(cfg, ds)) && cfg.maxRetries >= 0 ==> Asked()
      ensures old(Clean() && BudgetExhausted(cfg, ds)) ==>
        (Wedged(Snapshot()) <==> entry.kind == TimerKind.ToolCallTimeout)
      ensures old(Wedged(Snapshot())) && old(fsm) != Error && entry.kind == TimerKind.Aggregation ==>
        StillWedged() && fsm == old(fsm)
    {
      hide Represents, Conserved, Permitted, WithinBudget, Apply, ApplyAll, Owes, Settled, Reduce;
      var now := Clock();
      if entry.kind == TimerKind.Aggregation {
        assert Clean() ==> Ripe(Snapshot(), TimerExpired(entry.kind, entry.id, now));
        var timedOut: Option<Observation> := *;
        if passthrough || timedOut == None { return; }
        var event := AggregationTimeout(timedOut.value, now);
        if Wedged(Snapshot()) { DroppedOutcome(cfg, filter, Snapshot(), event); }
        ApplyDecision(event, Reduce(cfg, ds, event));
      } else {
        FireTurnTimer(entry, now);
      }
    }

    /** A timer of the reducer. */
    method FireTurnTimer(entry: TimerEntry, now: int)
      requires Valid() && entry.kind != TimerKind.Aggregation
      requires Clean() ==> Ripe(Snapshot(), TimerExpired(entry.kind, entry.id, now))
      modifies this, book, policy
      ensures Ready() && Progress() && Rests() && accepted == old(accepted)
      ensures AnswersTurn(entry.kind) && !old(BudgetExhausted(cfg, ds)) && cfg.maxRetries >= 0 ==> Asked()
      ensures old(Clean() && BudgetExhausted(cfg, ds)) ==>
        (Wedged(Snapshot()) <==> entry.kind == TimerKind.ToolCallTimeout)
    {
      hide Represents, Conserved, Permitted, WithinBudget, Apply, ApplyAll, Owes, Settled, Reduce, Decides, Wedged,
           Outcome, QuietDecision, Ripe, AtRest, AnswersTurn;
      var event := TimerExpired(entry.kind, entry.id, now);
      if Clean() { RipeEventsSettle(cfg, filter, Snapshot(), event); }
      if AnswersTurn(entry.kind) && !BudgetExhausted(cfg, ds) && cfg.maxRetries >= 0 {
        TimerAsks(cfg, ds, entry.kind, entry.id, now);
      }
      if Clean() && BudgetExhausted(cfg, ds) { TimerWedges(cfg, filter, Snapshot(), event); }
      ApplyDecision(event, Reduce(cfg, ds, event));
    }

    /** Nothing a decision could change has changed. */
    twostate predicate Unmoved()
      reads this, book`model
    {
      && fsm == old(fsm) && ds == old(ds) && history == old(history) && book.model == old(book.model)
      && accepted == old(accepted) && Undisturbed()
    }

    ghost function Stand(): Standing
      reads this, book`model
    {
      Standing(fsm, ds, book.model, history, accepted, submits, preempts, frames, verdicts, denied, systemSeen)
    }

    /** The observation was handled as Answers says. */
    twostate predicate Answered(obs: Observation)
      reads this, book`model
    {
      Answers(cfg, passthrough, old(Stand()), obs, Stand())
    }

    /** Routes one observation by the state the controller is in; what no branch takes is dropped. */
    method Dispatch(obs: Observation)
      requires Ready()
      modifies this, book, policy
      ensures Rests()
      ensures Ready() && Grows() && QueueKept()
      ensures systemSeen <==> old(systemSeen) || StartsEvent(Handled(obs, old(fsm), old(ds)))
      ensures Answered(obs)
      ensures old(Wedged(Snapshot())) ==> StillWedged()
    {
      hide Represents, Conserved, Permitted, WithinBudget, Settled, Wedged, Answers, AtRest, StartsEvent;
      if Busy(fsm) {
        DispatchBusy(obs);
      } else {
        DispatchOpen(obs);
      }
    }

    /** During a turn. */
    method DispatchBusy(obs: Observation)
      requires Ready() && Busy(fsm)
      modifies this, book, policy
      ensures Rests()
      ensures Ready() && Grows() && QueueKept()
      ensures systemSeen <==> old(systemSeen) || StartsEvent(Handled(obs, old(fsm), old(ds)))
      ensures Answered(obs)
      ensures old(Wedged(Snapshot())) ==> StillWedged()
    {
      hide Represents, Conserved, Permitted, WithinBudget, Settled, Takes, AllowsAsking;
      if obs.kind == ObservationKind.Interruption {
        InterruptTurn();
      } else if obs.kind == ObservationKind.UserMessage {
        BargeIn(obs);
      } else if obs.kind == ObservationKind.ToolResult && fsm == Acting {
        OnToolResult(obs);
      }
    }

    /** Between turns. */
    method DispatchOpen(obs: Observation)
      requires Ready() && !Busy(fsm)
      modifies this, book, policy
      ensures Rests()
      ensures Ready() && Grows() && QueueKept()
      ensures systemSeen <==> old(systemSeen) || StartsEvent(Handled(obs, old(fsm), old(ds)))
      ensures Answered(obs)
      ensures old(Wedged(Snapshot())) ==> StillWedged()
    {
      hide Represents, Conserved, Permitted, WithinBudget, Settled, Takes, AllowsAsking, Completes, ResultId;
      if Open(fsm) && obs.kind == ObservationKind.UserMessage {
        OnUserMessage(obs);
      } else if Open(fsm) && obs.kind == ObservationKind.SystemEvent {
        OnSystemEvent(obs);
      }
    }

    /** Takes the oldest observation off the queue and handles it. In a clean run a message is lost only by a wedged
        controller. */
    method TakeNext() returns (ghost took: Handled)
      requires Ready() && queue != []
      modifies this, book, policy
      ensures Rests()
      ensures Ready() && Grows() && (queue == old(queue)[1..] || (queue == [] && |stops| > |old(stops)|))
      ensures systemSeen <==> old(systemSeen) || StartsEvent(took)
      ensures took == Handled(old(queue)[0], old(fsm), old(ds)) && Answered(took.obs)
      ensures passthrough ==> Undated(accepted) == Undated(old(accepted)) + Kept(took)
      ensures Clean() && Lost(took) ==> Wedged(Snapshot())
      ensures old(Wedged(Snapshot())) ==> StillWedged()
    {
      hide Represents, Conserved, Permitted, WithinBudget, Settled, Wedged, Takes, AllowsAsking, Lost, Kept, Undated,
           Answers, AtRest, StartsEvent;
      var obs := Dequeue();
      took := Answer(obs);
    }

    /** Handles an observation and notes what it met. */
    method Answer(obs: Observation) returns (ghost took: Handled)
      requires Ready()
      modifies this, book, policy
      ensures Rests()
      ensures Ready() && Grows() && QueueKept() && took == Handled(obs, old(fsm), old(ds)) && Answered(obs)
      ensures systemSeen <==> old(systemSeen) || StartsEvent(took)
      ensures passthrough ==> Undated(accepted) == Undated(old(accepted)) + Kept(took)
      ensures Clean() && Lost(took) ==> Wedged(Snapshot())
      ensures old(Wedged(Snapshot())) ==> StillWedged()
    {
      hide Represents, Conserved, Permitted, WithinBudget, Settled, Wedged, Takes, Answers, Lost, Kept, Undated;
      took := Handled(obs, fsm, ds);
      if Clean() && Lost(took) { LostMeansWedged(Snapshot(), took); }
      Dispatch(obs);
      if passthrough { KeepsExactly(obs); }
    }

    method Dequeue() returns (obs: Observation)
      requires Ready() && queue != []
      modifies this`queue
      ensures Ready() && [obs] + queue == old(queue) && Stand() == old(Stand())
      ensures Wedged(Snapshot()) == old(Wedged(Snapshot())) && AtRest(Snapshot()) == old(AtRest(Snapshot()))
    {
      hide Represents, Conserved, Permitted, WithinBudget;
      obs := queue[0];
      queue := queue[1..];
    }

    /** Under a passthrough aggregator an observation is accepted exactly if it is a kept message. */
    twostate lemma KeepsExactly(obs: Observation)
      requires Answered(obs) && passthrough
      ensures Undated(accepted) == Undated(old(accepted)) + Kept(Handled(obs, old(fsm), old(ds)))
    {
      hide Takes;
      if t :| accepted == old(accepted) + [FragmentOf(obs, t)] {
        UndatedSnoc(old(accepted), FragmentOf(obs, t));
      }
    }

    /** One iteration: the due timers, then the oldest observation if there is one. When no timer was due, the
        observation meets the very state the iteration began in. */
    method LoopIteration() returns (ghost now: int, ghost took: Option<Handled>)
      requires Ready()
      modifies this, book, policy
      ensures Rests()
      ensures Ready() && Grows()
      ensures took == None ==> QueueKept() && queue == [] && (passthrough ==> accepted == old(accepted))
      ensures took.Some? ==> old(queue) != [] && took.value.obs == old(queue)[0]
      ensures took.Some? ==> queue == old(queue)[1..] || (queue == [] && |stops| > |old(stops)|)
      ensures systemSeen <==> old(systemSeen) || (took.Some? && StartsEvent(took.value))
      ensures passthrough && took.Some? ==> Undated(accepted) == Undated(old(accepted)) + Kept(took.value)
      ensures took.Some? && Clean() && Lost(took.value) ==> Wedged(Snapshot())
      ensures NothingDue(old(book.model), now) && old(queue) != [] ==>
        took == Some(Handled(old(queue)[0], old(fsm), old(ds))) && Answered(old(queue)[0])
      ensures old(Wedged(Snapshot())) ==> StillWedged()
    {
      hide Represents, Conserved, Permitted, WithinBudget, Settled, Wedged, Kept, Undated, NothingDue, Lost, Answers,
           AtRest, StartsEvent;
      now := Harvest();
      if queue == [] { return now, None; }
      ghost var handled := TakeNext();
      took := Some(handled);
    }

    /** Any run: before each iteration some observations arrive. Every intermediate state satisfies Ready(). The
        observations are handled in the order they came, each at most once, and with a passthrough aggregator what is
        accepted is exactly the kept messages among them.

        Unless a stop empties the queue, one observation is handled in every iteration that finds one, so that what
        was handled and what is still queued is everything that arrived. A clean run that was not at rest ends
        wedged only in Error or after a stop, and otherwise no user message it handled was lost. A wedged controller
        never accepts a message, calls the LLM or emits a frame again. */
    method RunLoop(arrivals: seq<seq<Observation>>) returns (ghost handled: seq<Handled>, ghost at: seq<nat>)
      requires Ready()
      modifies this, book, policy
      ensures Ready() && Grows() && Rests()
      ensures InOrder(handled, at, old(queue) + Concat(arrivals), queue)
      ensures systemSeen <==> old(systemSeen) || SomeEvent(handled)
      ensures passthrough ==> Undated(accepted) == Undated(old(accepted)) + AllKept(handled)
      ensures DrawnFrom(AllKept(handled), old(queue) + Concat(arrivals))
      ensures stops == old(stops) ==>
        && |handled| + |queue| == |old(queue) + Concat(arrivals)|
        && |queue| == Backlog(|old(queue)|, arrivals)
      ensures Clean() && !Wedged(Snapshot()) ==> NoneLost(handled)
      ensures Clean() && !Wedged(Snapshot()) && stops == old(stops) ==>
        Undated(accepted) == Undated(old(accepted)) + Messages((old(queue) + Concat(arrivals))[..|handled|])
      ensures Clean() && Wedged(Snapshot()) && !old(AtRest(Snapshot())) ==> fsm == Error || |stops| > |old(stops)|
      ensures old(Wedged(Snapshot())) ==> StillWedged()
    {
      hide Represents, Conserved, Permitted, WithinBudget, Settled, Wedged, Kept, Undated, InOrder, Concat, NoneLost,
           AllKept, Messages, DrawnFrom, SomeEvent, AtRest, Backlog;
      handled, at := [], [];
      NothingHandled(old(queue));
      for i := 0 to |arrivals|
        invariant Ready() && Grows() && Rests() && (systemSeen <==> old(systemSeen) || SomeEvent(handled))
        invariant InOrder(handled, at, old(queue) + Concat(arrivals[..i]), queue)
        invariant stops == old(stops) ==>
                    && |handled| + |queue| == |old(queue) + Concat(arrivals[..i])|
                    && |queue| == Backlog(|old(queue)|, arrivals[..i])
        invariant passthrough ==> Undated(accepted) == Undated(old(accepted)) + AllKept(handled)
        invariant Clean() && !Wedged(Snapshot()) ==> NoneLost(handled)
        invariant old(Wedged(Snapshot())) ==> StillWedged()
      {
        ArrivalsExtend(handled, at, old(queue), arrivals, i, queue);
        BacklogSnoc(|old(queue)|, arrivals, i);
        handled, at := Arrive(arrivals[i], handled, at, old(queue) + Concat(arrivals[..i + 1]));
      }
      assert arrivals[..|arrivals|] == arrivals;
      KeptAreDrawn(handled, at, old(queue) + Concat(arrivals), queue);
      if NoneLost(handled) && stops == old(stops) { AllTaken(handled, at, old(queue) + Concat(arrivals), queue); }
      if Wedged(Snapshot()) { WedgedIsAtRest(Snapshot()); }
    }

    /** A run of a controller that has not done anything yet. */
    method RunFromStart(arrivals: seq<seq<Observation>>)
      requires Ready() && passthrough && queue == [] && verdicts == [] && accepted == [] && stops == []
      requires !systemSeen && !AtRest(Snapshot()) && NoSystemEvents(Concat(arrivals))
      modifies this, book, policy
      ensures Ready() && Grows()
      ensures NeverRefuses(policy.rules, policy.Granted(session)) ==> !SomeDenied(verdicts)
      ensures !SomeDenied(verdicts) ==> Settled(Snapshot())
      ensures !SomeDenied(verdicts) && Wedged(Snapshot()) ==> fsm == Error || stops != []
      ensures !SomeDenied(verdicts) && fsm != Error && stops == [] ==>
        var inputs, n := Concat(arrivals), Backlog(0, arrivals);
        && n <= |inputs| && queue == inputs[|inputs| - n..]
        && Undated(accepted) == Messages(inputs[..|inputs| - n])
    {
      hide Represents, Conserved, WithinBudget, Fair, Settled, Wedged, Undated, AllKept, NoneLost, Messages, Backlog,
           DrawnFrom, SomeEvent, Concat, NoSystemEvents, NeverRefuses, AtRest, SomeDenied, Emitted;
      ghost var handled, at := RunLoop(arrivals);
      assert [] + Concat(arrivals) == Concat(arrivals);
      NoEventHandled(handled, at, Concat(arrivals), queue);
      if NeverRefuses(policy.rules, policy.Granted(session)) {
        NothingRefused(policy.rules, policy.Granted(session), verdicts);
      }
      NothingUndated();
    }

    /** Some observations arrive, then one iteration; the log of the run is continued. */
    method Arrive(
      more: seq<Observation>, ghost handled: seq<Handled>, ghost at: seq<nat>, ghost inputs: seq<Observation>)
      returns (ghost handled': seq<Handled>, ghost at': seq<nat>)
      requires Ready() && InOrder(handled, at, inputs, queue + more) && (SomeEvent(handled) ==> systemSeen)
      modifies this, book, policy
      ensures Ready() && Grows() && Rests()
      ensures InOrder(handled', at', inputs, queue)
      ensures (systemSeen <==> old(systemSeen) || SomeEvent(handled')) && (SomeEvent(handled) ==> SomeEvent(handled'))
      ensures stops == old(stops) ==> |queue| == Less(|old(queue) + more|)
      ensures stops == old(stops) && |handled| + |old(queue) + more| == |inputs| ==> |handled'| + |queue| == |inputs|
      ensures NoneLost(handled) && Clean() && !Wedged(Snapshot()) ==> NoneLost(handled')
      ensures passthrough ==> forall start ::
        Undated(old(accepted)) == start + AllKept(handled) ==> Undated(accepted) == start + AllKept(handled')
      ensures old(Wedged(Snapshot())) ==> StillWedged()
    {
      hide Represents, Conserved, Permitted, WithinBudget, Settled, Wedged, Kept, Undated, InOrder, Answers, NothingDue,
           NoneLost, Lost, AllKept, StartsEvent, SomeEvent, AtRest;
      Enqueue(more);
      ghost var before := queue;
      ghost var now, took := LoopIteration();
      if took.Some? {
        HandledNext(handled, at, inputs, before, took.value, queue);
        AllKeptSnoc(handled, took.value);
        NoneLostSnoc(handled, took.value);
        SomeEventSnoc(handled, took.value);
        handled', at' := handled + [took.value], at + [|inputs| - |before|];
      } else {
        QueueEmptied(handled, at, inputs, before);
        handled', at' := handled, at;
      }
    }

    method Enqueue(more: seq<Observation>)
      requires Ready()
      modifies this`queue
      ensures Ready() && queue == old(queue) + more
      ensures Wedged(Snapshot()) == old(Wedged(Snapshot())) && AtRest(Snapshot()) == old(AtRest(Snapshot()))
    {
      hide Represents, Conserved, Permitted, WithinBudget;
      queue := queue + more;
    }
  }

  /** A controller with a passthrough aggregator, from its construction on, with any arrivals that hold no system
      event. If no batch was refused, its timers are settled; and if besides no stop emptied the queue and the LLM
      never failed for good, then every user message that has had its turn is accepted, in order, and nothing else,
      and only the backlog has not had its turn yet. No batch can be refused under rules that never refuse. */
  method Serve(
    cfg: Config, session: string, filter: string -> string, policy: Policy.PolicyLayer, arrivals: seq<seq<Observation>>)
    returns (c: Controller)
    requires policy.Valid() && NoSystemEvents(Concat(arrivals))
    modifies policy
    ensures c.Ready() && c.policy == policy && c.cfg == cfg && c.session == session && c.passthrough
    ensures c.HeldFrom(0) && policy.capabilities == old(policy.capabilities)
    ensures NeverRefuses(policy.rules, policy.Granted(session)) ==> !SomeDenied(c.verdicts)
    ensures !SomeDenied(c.verdicts) ==> Settled(c.Snapshot())
    ensures !SomeDenied(c.verdicts) && Wedged(c.Snapshot()) ==> c.fsm == Error || c.stops != []
    ensures !SomeDenied(c.verdicts) && c.fsm != Error && c.stops == [] ==>
      var inputs, n := Concat(arrivals), Backlog(0, arrivals);
      && n <= |inputs| && c.queue == inputs[|inputs| - n..]
      && Undated(c.accepted) == Messages(inputs[..|inputs| - n])
  {
    c := new Controller(cfg, session, filter, true, policy);
    c.RunFromStart(arrivals);
  }
}
