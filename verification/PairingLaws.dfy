/** What repairing a greedy selection guarantees about tool calls and their results. */
module PairingLaws {
  import opened Numbers
  import opened DialogueTypes
  import opened MemoryStore
  import opened ContextStrategy

  predicate Tool(e: MemoryEntry) {
    e.kind == ToolCallEntry || e.kind == ToolResultEntry
  }

  /** The entry has a partner it can be brought in with or dropped for. */
  predicate HasPartner(entries: seq<MemoryEntry>, i: nat)
    requires i < |entries|
  {
    || (entries[i].kind == ToolResultEntry && CallFor(entries, i).Some?)
    || (entries[i].kind == ToolCallEntry && ResultFor(entries, i).Some?)
  }

  /** A check changes only the entry itself, downwards, or its partner, upwards. */
  lemma {:induction false} RepairTouches(entries: seq<MemoryEntry>, budget: int, s: Selection, i: nat, x: nat)
    requires |s.included| == |entries| && i < |entries| && x < |entries|
    requires RepairAt(entries, budget, s, i).included[x] != s.included[x]
    ensures entries[x].toolCallId == entries[i].toolCallId && HasPartner(entries, x) && HasPartner(entries, i)
    ensures s.included[i] && (x == i <==> s.included[x])
    ensures x != i ==>
              || (entries[i].kind == ToolResultEntry && CallFor(entries, i) == Some(x))
              || (entries[i].kind == ToolCallEntry && ResultFor(entries, i) == Some(x))
  {
    hide EntryTokens;
  }

  /** Entries that are not tool entries, or have no partner, stay as the greedy pass left them. */
  lemma {:induction false} UnpairedKept(entries: seq<MemoryEntry>, budget: int, s: Selection, k: nat, x: nat)
    requires |s.included| == |entries| && k <= |entries| && x < |entries| && !HasPartner(entries, x)
    ensures Repaired(entries, budget, s, k).included[x] == s.included[x]
    decreases k
  {
    hide HasPartner, RepairAt;
    if k > 0 {
      UnpairedKept(entries, budget, s, k - 1, x);
      var was := Repaired(entries, budget, s, k - 1);
      if RepairAt(entries, budget, was, k - 1).included[x] != was.included[x] {
        RepairTouches(entries, budget, was, k - 1, x);
      }
    }
  }

  /** An included result that has been checked has its nearest earlier call included. */
  ghost predicate ResultsPaired(entries: seq<MemoryEntry>, s: Selection, k: nat)
    requires |s.included| == |entries| && k <= |entries|
  {
    forall r :: 0 <= r < k && entries[r].kind == ToolResultEntry && s.included[r] && CallFor(entries, r).Some? ==>
      s.included[CallFor(entries, r).value]
  }

  lemma {:induction false} PairedAfterCheck(entries: seq<MemoryEntry>, budget: int, s: Selection, i: nat)
    requires |s.included| == |entries| && i < |entries| && entries[i].kind == ToolResultEntry
    requires CallFor(entries, i).Some?
    ensures var after := RepairAt(entries, budget, s, i);
      after.included[i] ==> after.included[CallFor(entries, i).value]
  {
    hide EntryTokens;
  }

  lemma {:induction false} ResultsStayPaired(entries: seq<MemoryEntry>, budget: int, s: Selection, k: nat)
    requires |s.included| == |entries| && k <= |entries|
    ensures ResultsPaired(entries, Repaired(entries, budget, s, k), k)
    decreases k
  {
    hide RepairAt, HasPartner, CallFor, ResultFor;
    if k > 0 {
      ResultsStayPaired(entries, budget, s, k - 1);
      var was, i := Repaired(entries, budget, s, k - 1), k - 1;
      var after := RepairAt(entries, budget, was, i);
      forall r | 0 <= r < k && entries[r].kind == ToolResultEntry && after.included[r] && CallFor(entries, r).Some?
        ensures after.included[CallFor(entries, r).value]
      {
        var c := CallFor(entries, r).value;
        if r == i {
          PairedAfterCheck(entries, budget, was, i);
        } else {
          if after.included[r] != was.included[r] {
            RepairTouches(entries, budget, was, i, r);
            LaterResult(entries, i, r);
          }
          if after.included[c] != was.included[c] { RepairTouches(entries, budget, was, i, c); }
        }
      }
    }
  }

  /** A check brings in no result that was checked before. */
  lemma LaterResult(entries: seq<MemoryEntry>, i: nat, r: nat)
    requires r < i < |entries| && entries[r].kind == ToolResultEntry
    ensures !(entries[i].kind == ToolResultEntry && CallFor(entries, i) == Some(r))
    ensures !(entries[i].kind == ToolCallEntry && ResultFor(entries, i) == Some(r))
  {}

  // ---------- a call and the result that answers it ----------

  /** r is the one result whose nearest earlier call is c. */
  ghost predicate AnsweredOnlyBy(entries: seq<MemoryEntry>, c: nat, r: nat) {
    && c < r < |entries| && entries[c].kind == ToolCallEntry && entries[r].kind == ToolResultEntry
    && CallFor(entries, r) == Some(c)
    && forall x :: 0 <= x < |entries| && entries[x].kind == ToolResultEntry && CallFor(entries, x) == Some(c) ==> x == r
  }

  /** Then it is also the call's nearest later result. */
  lemma {:induction false} AnswerIsNearest(entries: seq<MemoryEntry>, c: nat, r: nat)
    requires AnsweredOnlyBy(entries, c, r)
    ensures ResultFor(entries, c) == Some(r)
  {
    hide LastCall, FirstResult, CallFor, ResultFor;
    var j := ResultFor(entries, c);
    assert IsResult(entries[r], entries[c].toolCallId);
    assert j.Some? && j.value <= r;
    forall k | c < k < j.value ensures !IsCall(entries[k], entries[c].toolCallId) {
      assert !IsCall(entries[k], entries[r].toolCallId);
    }
    CallForIs(entries, j.value, c);
  }

  lemma CallForIs(entries: seq<MemoryEntry>, i: nat, j: nat)
    requires j < i < |entries| && IsCall(entries[j], entries[i].toolCallId)
    requires forall k :: j < k < i ==> !IsCall(entries[k], entries[i].toolCallId)
    ensures CallFor(entries, i) == Some(j)
  {
    hide LastCall;
  }

  /** After the call's own check, no check of another entry touches the pair. */
  lemma {:induction false} OthersLeavePair(entries: seq<MemoryEntry>, budget: int, s: Selection, i: nat, c: nat, r: nat)
    requires |s.included| == |entries| && c < i < |entries| && AnsweredOnlyBy(entries, c, r) && i != r
    ensures var after := RepairAt(entries, budget, s, i);
      after.included[c] == s.included[c] && after.included[r] == s.included[r]
  {
    hide RepairAt;
    var after := RepairAt(entries, budget, s, i);
    if after.included[c] != s.included[c] { RepairTouches(entries, budget, s, i, c); }
    if after.included[r] != s.included[r] { RepairTouches(entries, budget, s, i, r); }
  }

  lemma {:induction false} CallChecked(entries: seq<MemoryEntry>, budget: int, s: Selection, c: nat, r: nat)
    requires |s.included| == |entries| && AnsweredOnlyBy(entries, c, r)
    ensures var after := RepairAt(entries, budget, s, c); after.included[c] ==> after.included[r]
  {
    hide EntryTokens, CallFor, ResultFor;
    AnswerIsNearest(entries, c, r);
  }

  lemma {:induction false} ResultChecked(entries: seq<MemoryEntry>, budget: int, s: Selection, c: nat, r: nat)
    requires |s.included| == |entries| && AnsweredOnlyBy(entries, c, r) && (s.included[c] ==> s.included[r])
    ensures var after := RepairAt(entries, budget, s, r); after.included[c] == after.included[r]
  {
    hide EntryTokens, CallFor, ResultFor;
  }

  lemma {:induction false} PairChecked(entries: seq<MemoryEntry>, budget: int, s: Selection, k: nat, c: nat, r: nat)
    requires AnsweredOnlyBy(entries, c, r) && |s.included| == |entries| && c < k <= |entries|
    ensures var after := Repaired(entries, budget, s, k);
      && (after.included[c] ==> after.included[r])
      && (k > r ==> after.included[c] == after.included[r])
    decreases k
  {
    hide AnsweredOnlyBy, RepairAt;
    var was := Repaired(entries, budget, s, k - 1);
    if k - 1 == c {
      CallChecked(entries, budget, was, c, r);
      PairOrdered(entries, c, r);
    } else {
      PairChecked(entries, budget, s, k - 1, c, r);
      if k - 1 == r {
        ResultChecked(entries, budget, was, c, r);
      } else {
        OthersLeavePair(entries, budget, was, k - 1, c, r);
      }
    }
  }

  lemma PairOrdered(entries: seq<MemoryEntry>, c: nat, r: nat)
    requires AnsweredOnlyBy(entries, c, r)
    ensures c < r < |entries|
  {}

  // ---------- when everything fits ----------

  lemma {:induction false} AllStay(entries: seq<MemoryEntry>, budget: int, s: Selection, k: nat)
    requires |s.included| == |entries| && k <= |entries| && forall i :: 0 <= i < |entries| ==> s.included[i]
    ensures Repaired(entries, budget, s, k) == s
    decreases k
  {
    if k > 0 { AllStay(entries, budget, s, k - 1); }
  }

  function TotalTokens(entries: seq<MemoryEntry>, from: nat): nat
    requires from <= |entries|
    decreases |entries| - from
  {
    if from == |entries| then 0 else EntryTokens(entries[from]) + TotalTokens(entries, from + 1)
  }

  lemma {:induction false} AllTaken(entries: seq<MemoryEntry>, budget: int, i: nat)
    requires i <= |entries| && TotalTokens(entries, i) <= budget
    ensures Used(entries, budget, i) == TotalTokens(entries, i)
    ensures forall k :: i <= k < |entries| ==> Fits(entries, budget, k)
    decreases |entries| - i
  {
    hide EntryTokens;
    if i < |entries| { AllTaken(entries, budget, i + 1); }
  }

  // ---------- the choice as a whole ----------

  /** Every included result has its nearest earlier call included, if there is one. */
  lemma {:induction false} IncludedResultsHaveCalls(entries: seq<MemoryEntry>, maxTokens: int, fixedTokens: nat, r: nat)
    requires r < |entries| && entries[r].kind == ToolResultEntry && CallFor(entries, r).Some?
    ensures var s := Choose(entries, maxTokens, fixedTokens);
      s.included[r] ==> s.included[CallFor(entries, r).value]
  {
    hide Repaired, Greedy, CallFor;
    var budget := Max(maxTokens - fixedTokens, 0);
    ResultsStayPaired(entries, budget, Greedy(entries, budget), |entries|);
  }

  /** A call and the one result that resolves to it are both included or both left out. */
  lemma {:induction false} PairsTogether(entries: seq<MemoryEntry>, maxTokens: int, fixedTokens: nat, c: nat, r: nat)
    requires AnsweredOnlyBy(entries, c, r)
    ensures var s := Choose(entries, maxTokens, fixedTokens);
      s.included[c] == s.included[r]
  {
    hide Repaired, Greedy;
    var budget := Max(maxTokens - fixedTokens, 0);
    PairChecked(entries, budget, Greedy(entries, budget), |entries|, c, r);
  }

  /** In particular when no other tool entry has their id. */
  lemma UniqueIdIsAnswered(entries: seq<MemoryEntry>, c: nat, r: nat)
    requires c < r < |entries|
    requires IsCall(entries[c], entries[c].toolCallId) && IsResult(entries[r], entries[c].toolCallId)
    requires forall x :: 0 <= x < |entries| && x != c && x != r && Tool(entries[x]) ==>
      entries[x].toolCallId != entries[c].toolCallId
    ensures AnsweredOnlyBy(entries, c, r)
  {}

  /** An entry without a partner is included if and only if it fits beside the newer entries taken before it. */
  lemma {:induction false} OthersAreGreedy(entries: seq<MemoryEntry>, maxTokens: int, fixedTokens: nat, x: nat)
    requires x < |entries| && !HasPartner(entries, x)
    ensures Choose(entries, maxTokens, fixedTokens).included[x] == Fits(entries, Max(maxTokens - fixedTokens, 0), x)
  {
    hide Repaired, Fits, HasPartner;
    var budget := Max(maxTokens - fixedTokens, 0);
    UnpairedKept(entries, budget, Greedy(entries, budget), |entries|, x);
  }

  /** If all the fetched history fits, all of it is included. */
  lemma {:induction false} AllIncluded(entries: seq<MemoryEntry>, maxTokens: int, fixedTokens: nat)
    requires TotalTokens(entries, 0) + fixedTokens <= maxTokens
    ensures Selected(entries, Choose(entries, maxTokens, fixedTokens).included) == entries
  {
    hide Repaired, Used, Fits, Selected, TotalTokens;
    var budget := Max(maxTokens - fixedTokens, 0);
    AllTaken(entries, budget, 0);
    AllStay(entries, budget, Greedy(entries, budget), |entries|);
    AllSelected(entries, Greedy(entries, budget).included);
  }

  lemma {:induction false} AllSelected(entries: seq<MemoryEntry>, included: seq<bool>)
    requires |included| == |entries| && forall i :: 0 <= i < |entries| ==> included[i]
    ensures Selected(entries, included) == entries
  {
    if entries != [] { AllSelected(entries[..|entries| - 1], included[..|entries| - 1]); }
  }

  /** The converse of IncludedResultsHaveCalls can fail when an id is used twice: the result is dropped for its
      nearest call, which does not fit, and the earlier call stays without it. */
  lemma {:induction false} ReusedIdLosesResult(
    first: MemoryEntry, second: MemoryEntry, result: MemoryEntry, budget: int)
    requires IsCall(first, first.toolCallId) && IsCall(second, first.toolCallId) && IsResult(result, first.toolCallId)
    requires EntryTokens(first) + EntryTokens(result) <= budget < EntryTokens(second) + EntryTokens(result)
    ensures var entries := [first, second, result];
      && ResultFor(entries, 0) == Some(2)
      && Repaired(entries, budget, Greedy(entries, budget), 3).included == [true, false, false]
  {
    hide EntryTokens;
    var entries := [first, second, result];
    assert Used(entries, budget, 3) == 0;
    assert Used(entries, budget, 2) == EntryTokens(result);
    assert Used(entries, budget, 1) == EntryTokens(result);
    var s := Greedy(entries, budget);
    assert s.included == [true, false, true] && s.total == EntryTokens(first) + EntryTokens(result);
    OnlyResult(entries);
    assert RepairAt(entries, budget, s, 0) == s;
    assert RepairAt(entries, budget, s, 1) == s;
    LastCallIsSecond(entries);
    assert RepairAt(entries, budget, s, 2).included == [true, false, false];
    assert Repaired(entries, budget, s, 1) == s;
    assert Repaired(entries, budget, s, 2) == s;
  }

  lemma OnlyResult(entries: seq<MemoryEntry>)
    requires |entries| == 3 && IsCall(entries[0], entries[0].toolCallId) && IsCall(entries[1], entries[0].toolCallId)
    requires IsResult(entries[2], entries[0].toolCallId)
    ensures ResultFor(entries, 0) == Some(2)
  {}

  lemma LastCallIsSecond(entries: seq<MemoryEntry>)
    requires |entries| == 3 && IsCall(entries[1], entries[2].toolCallId)
    ensures CallFor(entries, 2) == Some(1)
  {}
}
