/** One tool cycle at the reducer: from a tool-call completion to the moment thinking resumes. */
module ToolCycle {
  import opened DialogueTypes
  import opened DialogueReducer

  ghost predicate AllResults(events: seq<DialogueEvent>) {
    forall e :: e in events ==> e.ToolResultReceived?
  }

  ghost function ReceivedIds(events: seq<DialogueEvent>): set<string>
    requires AllResults(events)
  {
    set e | e in events :: e.obs.source
  }

  function IdSet(ids: seq<string>): set<string> {
    set id | id in ids
  }

  predicate StartsLlm(e: Effect) {
    e.StartLlm? || e.StartLlmContinuation?
  }

  /** How many times a list of effects starts the LLM. */
  function Starts(effects: seq<Effect>): nat {
    if effects == [] then 0 else (if StartsLlm(effects[0]) then 1 else 0) + Starts(effects[1..])
  }

  function RunStarts(cfg: Config, s: DialogueState, events: seq<DialogueEvent>): nat {
    if events == [] then 0
    else
      var last := |events| - 1;
      RunStarts(cfg, s, events[..last]) + Starts(DecisionAt(cfg, s, events, last).effects)
  }

  /** Some prefix of the results, of length at least one, already covers every id. */
  ghost predicate CompleteWithin(ids: seq<string>, events: seq<DialogueEvent>)
    requires AllResults(events)
  {
    exists k :: 1 <= k <= |events| && IdSet(ids) <= ReceivedIds(events[..k])
  }

  lemma {:induction false} CompleteWithinPrefix(ids: seq<string>, events: seq<DialogueEvent>, n: nat)
    requires AllResults(events) && n <= |events| && !CompleteWithin(ids, events)
    ensures !CompleteWithin(ids, events[..n])
  {
    forall k | 1 <= k <= n ensures events[..n][..k] == events[..k] {}
  }

  /** The state just after the LLM asked for the tools of c. */
  function Asked(cfg: Config, s: DialogueState, c: Candidate, prompt: int, completion: int, now: int): DialogueState {
    Reduce(cfg, s, LlmCompleted(c, prompt, completion, now)).next
  }

  lemma {:induction false} ReceivedExtends(events: seq<DialogueEvent>)
    requires AllResults(events) && events != []
    ensures var last := |events| - 1;
      ReceivedIds(events) == ReceivedIds(events[..last]) + {events[last].obs.source}
  {
    var last := |events| - 1;
    assert events == events[..last] + [events[last]];
  }

  /** While some call is still unanswered the cycle only collects: the wanted ids stay, the keys of
      the collected results are the ids received, and the LLM is not started. */
  lemma {:induction false} Collecting(
    cfg: Config, s: DialogueState, c: Candidate, prompt: int, completion: int, now: int,
    events: seq<DialogueEvent>)
    requires c.kind == CallTools && AllResults(events)
    requires !CompleteWithin(CallIds(c.toolCalls), events)
    ensures var s0 := Asked(cfg, s, c, prompt, completion, now);
      var t := After(cfg, s0, events);
      && t.deliberation == AwaitingToolResults
      && t.pendingCallIds == CallIds(c.toolCalls)
      && t.pendingResults.Keys == ReceivedIds(events)
      && RunStarts(cfg, s0, events) == 0
    decreases |events|
  {
    hide CompleteWithin, ReceivedIds, HandleToolResult;
    if events == [] {
      NothingReceived();
    } else {
      var ids := CallIds(c.toolCalls);
      var last := |events| - 1;
      var s0 := Asked(cfg, s, c, prompt, completion, now);
      CompleteWithinPrefix(ids, events, last);
      Collecting(cfg, s, c, prompt, completion, now, events[..last]);
      ReceivedExtends(events);
      Uncovered(ids, events);
      assert events[last].ToolResultReceived?;
      ResultStep(After(cfg, s0, events[..last]), events[last].obs, events[last].now);
    }
  }

  lemma NothingReceived()
    ensures ReceivedIds([]) == {}
  {}

  lemma Uncovered(ids: seq<string>, events: seq<DialogueEvent>)
    requires AllResults(events) && events != [] && !CompleteWithin(ids, events)
    ensures !(IdSet(ids) <= ReceivedIds(events))
  {
    assert events[..|events|] == events;
  }

  /** One result: the LLM is started exactly if every wanted id is now covered. */
  lemma {:induction false} ResultStep(s: DialogueState, obs: Observation, now: int)
    ensures var d := HandleToolResult(s, obs, now);
      var received := s.pendingResults.Keys + {obs.source};
      if IdSet(s.pendingCallIds) <= received then
        && d.next.deliberation == Deliberation.Thinking && Starts(d.effects) == 1
        && CancelTimer(TOOL_TIMER) in d.effects
      else
        && d.next.deliberation == s.deliberation && d.next.pendingCallIds == s.pendingCallIds
        && d.next.pendingResults.Keys == received && Starts(d.effects) == 0
  {
    var d := HandleToolResult(s, obs, now);
    var results := s.pendingResults[obs.source := obs.content];
    assert results.Keys == s.pendingResults.Keys + {obs.source};
    assert (forall id :: id in s.pendingCallIds ==> id in results) <==> IdSet(s.pendingCallIds) <= results.Keys;
    if IdSet(s.pendingCallIds) <= results.Keys {
      assert d.effects == [RecordToolResult(obs), CancelTimer(TOOL_TIMER),
        StartLlm(Trigger("tool_results_complete", now))];
      assert CancelTimer(TOOL_TIMER) == d.effects[1];
      assert d.effects[1..][1..] == [StartLlm(Trigger("tool_results_complete", now))];
      assert Starts(d.effects) == Starts(d.effects[1..]) == Starts(d.effects[1..][1..]) == 1;
    } else {
      assert d.effects == [RecordToolResult(obs)];
      assert Starts(d.effects) == 0 + Starts([]);
    }
  }

  /** Up to and including the first result after which every requested id has been received, the LLM is started on
      exactly that result. */
  lemma {:induction false} ResumesOnCompletion(
    cfg: Config, s: DialogueState, c: Candidate, prompt: int, completion: int, now: int,
    events: seq<DialogueEvent>)
    requires c.kind == CallTools && AllResults(events) && events != []
    requires !CompleteWithin(CallIds(c.toolCalls), events[..|events| - 1])
    ensures var s0 := Asked(cfg, s, c, prompt, completion, now);
      var done := IdSet(CallIds(c.toolCalls)) <= ReceivedIds(events);
      && RunStarts(cfg, s0, events) == (if done then 1 else 0)
      && (done <==> After(cfg, s0, events).deliberation == Deliberation.Thinking)
      && (done ==> CancelTimer(TOOL_TIMER) in DecisionAt(cfg, s0, events, |events| - 1).effects)
  {
    hide CompleteWithin, ReceivedIds, HandleToolResult, IdSet, Starts;
    var last := |events| - 1;
    var s0 := Asked(cfg, s, c, prompt, completion, now);
    Collecting(cfg, s, c, prompt, completion, now, events[..last]);
    ReceivedExtends(events);
    assert events[last].ToolResultReceived?;
    ResultStep(After(cfg, s0, events[..last]), events[last].obs, events[last].now);
  }

  /** The first k results are the shortest prefix that covers every requested id. */
  ghost predicate FirstCover(ids: seq<string>, events: seq<DialogueEvent>, k: nat)
    requires AllResults(events)
  {
    1 <= k <= |events| && IdSet(ids) <= ReceivedIds(events[..k]) && !CompleteWithin(ids, events[..k - 1])
  }

  lemma {:induction false} CoverExists(ids: seq<string>, events: seq<DialogueEvent>) returns (k: nat)
    requires AllResults(events) && CompleteWithin(ids, events)
    ensures FirstCover(ids, events, k)
    decreases |events|
  {
    hide ReceivedIds, IdSet;
    var j: nat :| 1 <= j <= |events| && IdSet(ids) <= ReceivedIds(events[..j]);
    if CompleteWithin(ids, events[..j - 1]) {
      k := CoverExists(ids, events[..j - 1]);
      assert events[..j - 1][..k] == events[..k] && events[..j - 1][..k - 1] == events[..k - 1];
    } else {
      k := j;
    }
  }

  /** With nothing pending any more, a further result starts the LLM again. */
  lemma {:induction false} LateResultStarts(s: DialogueState, obs: Observation, now: int)
    requires s.pendingCallIds == []
    ensures var d := HandleToolResult(s, obs, now);
      d.next.pendingCallIds == [] && d.next.deliberation == Deliberation.Thinking && Starts(d.effects) == 1
  {
    hide HandleToolResult, Starts;
    ResultStep(s, obs, now);
    CompletionClears(s, obs, now);
    assert IdSet(s.pendingCallIds) == {};
  }

  lemma {:induction false} CompletionClears(s: DialogueState, obs: Observation, now: int)
    requires IdSet(s.pendingCallIds) <= s.pendingResults.Keys + {obs.source}
    ensures HandleToolResult(s, obs, now).next.pendingCallIds == []
  {
    forall id | id in s.pendingCallIds ensures id in s.pendingResults[obs.source := obs.content] {
      assert id in IdSet(s.pendingCallIds);
    }
  }

  /** From the completing result on, every result starts the LLM once: the reducer does not look at the phase. */
  lemma {:induction false} StartsFromCompletion(
    cfg: Config, s: DialogueState, c: Candidate, prompt: int, completion: int, now: int, events: seq<DialogueEvent>,
    k: nat)
    requires c.kind == CallTools && AllResults(events) && FirstCover(CallIds(c.toolCalls), events, k)
    ensures var s0 := Asked(cfg, s, c, prompt, completion, now);
      RunStarts(cfg, s0, events) == |events| - k + 1 && After(cfg, s0, events).pendingCallIds == []
    decreases |events|
  {
    hide CompleteWithin, ReceivedIds, IdSet, Starts, HandleToolResult, Asked;
    var s0 := Asked(cfg, s, c, prompt, completion, now);
    var last := |events| - 1;
    var e := events[last];
    assert e.ToolResultReceived?;
    if k == |events| {
      assert events[..k] == events;
      ResumesOnCompletion(cfg, s, c, prompt, completion, now, events);
      Collecting(cfg, s, c, prompt, completion, now, events[..last]);
      ReceivedExtends(events);
      CompletionClears(After(cfg, s0, events[..last]), e.obs, e.now);
    } else {
      assert events[..last][..k] == events[..k] && events[..last][..k - 1] == events[..k - 1];
      StartsFromCompletion(cfg, s, c, prompt, completion, now, events[..last], k);
      LateResultStarts(After(cfg, s0, events[..last]), e.obs, e.now);
    }
  }

  /** For every sequence of results, of any order and duplication: the LLM is never started if they do not cover
      the requested ids; otherwise once for the first completing result and once more for every later one. So it
      is started exactly once if and only if the completing result is the last one handed to the reducer. */
  lemma {:induction false} StartsCounted(
    cfg: Config, s: DialogueState, c: Candidate, prompt: int, completion: int, now: int, events: seq<DialogueEvent>)
    requires c.kind == CallTools && AllResults(events)
    ensures var ids, starts := CallIds(c.toolCalls), RunStarts(cfg, Asked(cfg, s, c, prompt, completion, now), events);
      && (starts == 0 <==> !CompleteWithin(ids, events))
      && (forall k :: FirstCover(ids, events, k) ==> starts == |events| - k + 1)
      && (starts == 1 <==> FirstCover(ids, events, |events|))
  {
    hide RunStarts, Asked, CompleteWithin, FirstCover;
    var ids := CallIds(c.toolCalls);
    if CompleteWithin(ids, events) {
      var k := CoverExists(ids, events);
      CoverFits(ids, events, k);
      forall j: nat | FirstCover(ids, events, j)
        ensures RunStarts(cfg, Asked(cfg, s, c, prompt, completion, now), events) == |events| - j + 1
      {
        StartsFromCompletion(cfg, s, c, prompt, completion, now, events, j);
      }
    } else {
      Collecting(cfg, s, c, prompt, completion, now, events);
      forall j: nat | FirstCover(ids, events, j) ensures false { CoverFits(ids, events, j); }
    }
  }

  lemma CoverFits(ids: seq<string>, events: seq<DialogueEvent>, k: nat)
    requires AllResults(events) && FirstCover(ids, events, k)
    ensures 1 <= k <= |events| && CompleteWithin(ids, events)
  {}

  /** A duplicate of the only result is enough: the LLM is started twice. */
  lemma {:induction false} DuplicateStartsTwice(
    cfg: Config, s: DialogueState, call: ToolCall, prompt: int, completion: int, now: int, obs: Observation)
    requires obs.source == call.id
    ensures var twice := [ToolResultReceived(obs, now), ToolResultReceived(obs, now)];
      RunStarts(cfg, Asked(cfg, s, Candidate(CallTools, "", [call]), prompt, completion, now), twice) == 2
  {
    hide RunStarts, Asked;
    var e := ToolResultReceived(obs, now);
    var twice := [e, e];
    var ids := CallIds([call]);
    assert twice[..1] == [e] && twice[..0] == [] && ids == [call.id];
    assert obs.source in ReceivedIds([e]) by { assert e in [e]; }
    assert FirstCover(ids, twice, 1);
    StartsFromCompletion(cfg, s, Candidate(CallTools, "", [call]), prompt, completion, now, twice, 1);
  }

  lemma {:induction false} MissingIds(ids: seq<string>, results: map<string, string>)
    ensures IdSet(Missing(ids, results)) == IdSet(ids) - results.Keys
    ensures (forall i, j :: 0 <= i < j < |ids| ==> ids[i] != ids[j]) ==>
              var m := Missing(ids, results); forall i, j :: 0 <= i < j < |m| ==> m[i] != m[j]
  {
    if ids != [] {
      MissingIds(ids[1..], results);
      var m := Missing(ids[1..], results);
      forall id ensures id in Missing(ids, results) <==> id in ids && id !in results {
        assert id in ids <==> id == ids[0] || id in ids[1..];
        assert id in m <==> id in IdSet(m);
        assert id in ids[1..] <==> id in IdSet(ids[1..]);
      }
      if forall i, j :: 0 <= i < j < |ids| ==> ids[i] != ids[j] {
        forall k | 0 <= k < |m| ensures m[k] != ids[0] {
          assert m[k] in IdSet(m);
          assert m[k] in ids[1..];
        }
      }
    }
  }

  lemma {:induction false} MissingKeepsOrder(ids: seq<string>, results: map<string, string>, a: nat, b: nat)
    requires a < b < |ids| && ids[a] !in results && ids[b] !in results
    ensures exists i, j :: 0 <= i < j < |Missing(ids, results)|
                           && Missing(ids, results)[i] == ids[a] && Missing(ids, results)[j] == ids[b]
  {
    var m := Missing(ids, results);
    var rest := Missing(ids[1..], results);
    if a == 0 {
      MissingIds(ids[1..], results);
      assert ids[b] == ids[1..][b - 1] && ids[b] in IdSet(ids[1..]);
      assert ids[b] in IdSet(rest);
      var j :| 0 <= j < |rest| && rest[j] == ids[b];
      assert m[0] == ids[a] && m[j + 1] == ids[b];
    } else {
      MissingKeepsOrder(ids[1..], results, a - 1, b - 1);
      var i, j :| 0 <= i < j < |rest| && rest[i] == ids[a] && rest[j] == ids[b];
      var k := |m| - |rest|;
      assert m[k + i] == ids[a] && m[k + j] == ids[b];
    }
  }

  /** If the timeout fires first, the ids reported missing and the requested ids received partition
      the requested ids, and thinking resumes with one LLM start. */
  lemma {:induction false} TimeoutPartitions(
    cfg: Config, s: DialogueState, c: Candidate, prompt: int, completion: int, now: int,
    events: seq<DialogueEvent>, t: DialogueState, fired: int)
    requires c.kind == CallTools && AllResults(events)
    requires !CompleteWithin(CallIds(c.toolCalls), events)
    requires t == After(cfg, Asked(cfg, s, c, prompt, completion, now), events)
    ensures var missing := Missing(CallIds(c.toolCalls), t.pendingResults);
      && Reduce(cfg, t, TimerExpired(TimerKind.ToolCallTimeout, TOOL_TIMER, fired)).effects
         == [RecordTimeoutResults(missing), StartLlm(Trigger("tool_call_timeout", fired))]
      && IdSet(missing) == IdSet(CallIds(c.toolCalls)) - ReceivedIds(events)
  {
    hide CompleteWithin, ReceivedIds, IdSet, After, Asked, Missing;
    Collecting(cfg, s, c, prompt, completion, now, events);
    MissingIds(t.pendingCallIds, t.pendingResults);
  }
}
