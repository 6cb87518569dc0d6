/** Turn-trigger correlation over arbitrary event sequences: ids are issued in strictly increasing
    order, and a verdict takes effect only for the latest id, only once, and never after an interrupt. */
module TurnTriggers {
  import opened DialogueTypes
  import opened DialogueReducer

  /** The decision starts the classification carrying this id. */
  ghost predicate Issues(d: Decision, id: nat) {
    exists o :: StartTurnTriggerClassification(id, o) in d.effects
  }

  /** The verdict event is not rejected as stale. */
  predicate Effective(s: DialogueState, e: DialogueEvent) {
    e.TurnTriggerClassified? && e.id == s.pendingTriggerId
  }

  predicate UserMessageEvent(e: DialogueEvent) {
    e.UserMessageReceived? || e.AggregationComplete? || e.AggregationTimeout?
  }

  predicate StartsTurn(s: DialogueState, e: DialogueEvent) {
    && UserMessageEvent(e)
    && s.cooldown == NoCooldown
    && (s.deliberation == AwaitingTurnTrigger || s.deliberation == Deliberation.Idle)
  }

  lemma {:induction false} IssueCharacterised(cfg: Config, s: DialogueState, e: DialogueEvent, id: nat)
    ensures Issues(Reduce(cfg, s, e), id) <==> StartsTurn(s, e) && id == s.nextTriggerId + 1
  {
    if StartsTurn(s, e) {
      NewTurnIssues(s, e.obs, e.now, id);
    } else {
      hide StartUserTurn;
      forall x | x in Reduce(cfg, s, e).effects ensures !x.StartTurnTriggerClassification? {}
    }
  }

  lemma {:induction false} NewTurnIssues(s: DialogueState, obs: Observation, now: int, id: nat)
    ensures Issues(StartUserTurn(s, obs, now), id) <==> id == s.nextTriggerId + 1
  {
    var es := StartUserTurn(s, obs, now).effects;
    assert es[|es| - 1] == StartTurnTriggerClassification(s.nextTriggerId + 1, obs);
  }

  /** What every single event does to the two id fields. */
  lemma {:induction false} IdFields(cfg: Config, s: DialogueState, e: DialogueEvent)
    ensures var n := Reduce(cfg, s, e).next;
      if StartsTurn(s, e) then n.nextTriggerId == s.nextTriggerId + 1 && n.pendingTriggerId == n.nextTriggerId
      else
        && n.nextTriggerId == s.nextTriggerId
        && n.pendingTriggerId == (if e.InterruptRequested? || Effective(s, e) then 0 else s.pendingTriggerId)
  {}

  lemma {:induction false} AfterPrefix(cfg: Config, s: DialogueState, events: seq<DialogueEvent>, i: nat)
    requires i < |events|
    ensures After(cfg, s, events[..i + 1]) == DecisionAt(cfg, s, events, i).next
  {
    hide Reduce;
    assert events[..i + 1][..i] == events[..i];
  }

  lemma {:induction false} NextIdGrows(cfg: Config, s: DialogueState, events: seq<DialogueEvent>, i: nat, j: nat)
    requires i <= j <= |events|
    ensures After(cfg, s, events[..i]).nextTriggerId <= After(cfg, s, events[..j]).nextTriggerId
    decreases j
  {
    hide Reduce, After, StartsTurn, Effective;
    if i < j {
      NextIdGrows(cfg, s, events, i, j - 1);
      AfterPrefix(cfg, s, events, j - 1);
      IdFields(cfg, After(cfg, s, events[..j - 1]), events[j - 1]);
    }
  }

  /** Classification ids are issued in strictly increasing order, whatever the events and the start state. */
  lemma {:induction false} IssuedIdsIncrease(
    cfg: Config, s: DialogueState, events: seq<DialogueEvent>, i: nat, j: nat, a: nat, b: nat)
    requires i < j < |events|
    requires Issues(DecisionAt(cfg, s, events, i), a) && Issues(DecisionAt(cfg, s, events, j), b)
    ensures a < b
  {
    hide Reduce, After, StartsTurn, Issues;
    IssueCharacterised(cfg, After(cfg, s, events[..i]), events[i], a);
    IssueCharacterised(cfg, After(cfg, s, events[..j]), events[j], b);
    AfterPrefix(cfg, s, events, i);
    IdFields(cfg, After(cfg, s, events[..i]), events[i]);
    NextIdGrows(cfg, s, events, i + 1, j);
  }

  /** Event i issued this id and nothing in (i, j) issued another, interrupted, or consumed the id. */
  ghost predicate FreshSince(cfg: Config, s: DialogueState, events: seq<DialogueEvent>, i: nat, j: nat, id: nat)
    requires i < j <= |events|
  {
    && Issues(DecisionAt(cfg, s, events, i), id)
    && forall m :: i < m < j ==>
         && !StartsTurn(After(cfg, s, events[..m]), events[m])
         && !events[m].InterruptRequested?
         && !Effective(After(cfg, s, events[..m]), events[m])
  }

  lemma {:induction false} FreshAtOnce(cfg: Config, s: DialogueState, events: seq<DialogueEvent>, i: nat, id: nat)
    requires i < |events| && Issues(DecisionAt(cfg, s, events, i), id)
    ensures FreshSince(cfg, s, events, i, i + 1, id)
  {}

  lemma {:induction false} FreshStill(
    cfg: Config, s: DialogueState, events: seq<DialogueEvent>, i: nat, j: nat, id: nat)
    requires i < j < |events| && FreshSince(cfg, s, events, i, j, id)
    requires var t := After(cfg, s, events[..j]);
      !StartsTurn(t, events[j]) && !events[j].InterruptRequested? && !Effective(t, events[j])
    ensures FreshSince(cfg, s, events, i, j + 1, id)
  {
    hide After, StartsTurn, Effective, Issues, Reduce;
  }

  lemma {:induction false} PendingWasIssued(cfg: Config, events: seq<DialogueEvent>, j: nat) returns (i: nat)
    requires j <= |events|
    requires After(cfg, INITIAL_STATE, events[..j]).pendingTriggerId != 0
    ensures i < j
    ensures FreshSince(cfg, INITIAL_STATE, events, i, j, After(cfg, INITIAL_STATE, events[..j]).pendingTriggerId)
    decreases j
  {
    assert j != 0 by { assert events[..0] == []; }
    hide Reduce, After, StartsTurn, Effective, Issues, FreshSince;
    var before := After(cfg, INITIAL_STATE, events[..j - 1]);
    AfterPrefix(cfg, INITIAL_STATE, events, j - 1);
    IdFields(cfg, before, events[j - 1]);
    if StartsTurn(before, events[j - 1]) {
      i := j - 1;
      IssueCharacterised(cfg, before, events[j - 1], before.nextTriggerId + 1);
      FreshAtOnce(cfg, INITIAL_STATE, events, i, before.nextTriggerId + 1);
    } else {
      i := PendingWasIssued(cfg, events, j - 1);
      FreshStill(cfg, INITIAL_STATE, events, i, j - 1, before.pendingTriggerId);
    }
  }

  /** A verdict with a nonzero id that takes effect was issued earlier in the run, is the latest issued,
      and has been neither interrupted nor consumed since. */
  lemma {:induction false} EffectiveVerdictIsFresh(cfg: Config, events: seq<DialogueEvent>, j: nat) returns (i: nat)
    requires j < |events|
    requires Effective(After(cfg, INITIAL_STATE, events[..j]), events[j]) && events[j].id != 0
    ensures i < j && FreshSince(cfg, INITIAL_STATE, events, i, j, events[j].id)
  {
    hide After, FreshSince;
    i := PendingWasIssued(cfg, events, j);
  }

  /** No id takes effect twice. */
  lemma {:induction false} VerdictTakesEffectOnce(cfg: Config, events: seq<DialogueEvent>, i: nat, j: nat)
    requires i < |events| && j < |events|
    requires Effective(After(cfg, INITIAL_STATE, events[..i]), events[i])
    requires Effective(After(cfg, INITIAL_STATE, events[..j]), events[j])
    requires events[i].id == events[j].id != 0
    ensures i == j
  {
    hide After, Reduce, Issues, StartsTurn;
    if i != j {
      var lo, hi := if i < j then i else j, if i < j then j else i;
      var a := EffectiveVerdictIsFresh(cfg, events, lo);
      var b := EffectiveVerdictIsFresh(cfg, events, hi);
      var id := events[i].id;
      if a < b { IssuedIdsIncrease(cfg, INITIAL_STATE, events, a, b, id, id); }
      if b < a { IssuedIdsIncrease(cfg, INITIAL_STATE, events, b, a, id, id); }
    }
  }

  /** Id 0 is outside that guarantee: with nothing pending, a verdict carrying 0 starts the LLM. */
  lemma {:induction false} ZeroVerdictStartsLlm(cfg: Config, now: int)
    ensures var d := Reduce(cfg, INITIAL_STATE, TurnTriggerClassified(0, RespondNow, now));
      d.next.deliberation == Deliberation.Thinking && StartLlm(Trigger("turn_trigger", now)) in d.effects
  {}

  /** Shape every reachable reducer state has. */
  ghost predicate Coherent(s: DialogueState) {
    && (s.deliberation == AwaitingTurnTrigger ==> 0 < s.pendingTriggerId)
    && (s.pendingTriggerId == 0 || s.pendingTriggerId == s.nextTriggerId)
    && (s.deliberation == AwaitingToolResults ==> s.pendingCallIds != [])
    && s.workspace.partial == None
  }

  predicate NamesCalls(e: DialogueEvent) {
    e.LlmCompleted? && e.candidate.kind == CallTools ==> e.candidate.toolCalls != []
  }

  lemma {:induction false} CoherentStep(cfg: Config, s: DialogueState, e: DialogueEvent)
    requires Coherent(s) && NamesCalls(e)
    ensures Coherent(Reduce(cfg, s, e).next)
  {
    IdFields(cfg, s, e);
  }

  /** Over every event sequence whose tool-call completions name at least one call: a pending
      classification is the latest issued, awaiting results means some call is pending,
      and no assistant partial is ever set. */
  lemma {:induction false} ReachableCoherent(cfg: Config, events: seq<DialogueEvent>)
    requires forall e :: e in events ==> NamesCalls(e)
    ensures Coherent(After(cfg, INITIAL_STATE, events))
    decreases |events|
  {
    hide Coherent, Reduce, NamesCalls;
    if events == [] {
      InitialCoherent();
    } else {
      var last := |events| - 1;
      ReachableCoherent(cfg, events[..last]);
      assert events[last] in events;
      CoherentStep(cfg, After(cfg, INITIAL_STATE, events[..last]), events[last]);
    }
  }

  lemma InitialCoherent()
    ensures Coherent(INITIAL_STATE)
  {}
}
