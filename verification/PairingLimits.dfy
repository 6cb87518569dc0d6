/** How far pairing goes: a call and a result are kept together for all entry sizes and limits if and only if the
    result is the one that resolves to the call. */
module PairingLimits {
  import opened DialogueTypes
  import opened MemoryStore
  import opened ContextStrategy
  import opened PairingLaws

  /** The same kinds and ids; everything else may differ. */
  ghost predicate SameShape(a: seq<MemoryEntry>, b: seq<MemoryEntry>) {
    |a| == |b| && forall i :: 0 <= i < |a| ==> a[i].kind == b[i].kind && a[i].toolCallId == b[i].toolCallId
  }

  lemma {:induction false} LastCallByShape(a: seq<MemoryEntry>, b: seq<MemoryEntry>, id: string, before: nat)
    requires SameShape(a, b) && before <= |a|
    ensures LastCall(a, id, before) == LastCall(b, id, before)
  {
    if before > 0 { LastCallByShape(a, b, id, before - 1); }
  }

  lemma {:induction false} FirstResultByShape(a: seq<MemoryEntry>, b: seq<MemoryEntry>, id: string, from: nat)
    requires SameShape(a, b) && from <= |a|
    ensures FirstResult(a, id, from) == FirstResult(b, id, from)
    decreases |a| - from
  {
    if from < |a| { FirstResultByShape(a, b, id, from + 1); }
  }

  /** Which entries pair up depends on kinds and ids only. */
  lemma {:induction false} PartnersByShape(a: seq<MemoryEntry>, b: seq<MemoryEntry>, i: nat)
    requires SameShape(a, b) && i < |a|
    ensures CallFor(a, i) == CallFor(b, i) && ResultFor(a, i) == ResultFor(b, i)
  {
    LastCallByShape(a, b, a[i].toolCallId, i);
    FirstResultByShape(a, b, a[i].toolCallId, i + 1);
  }

  lemma {:induction false} AnsweredByShape(a: seq<MemoryEntry>, b: seq<MemoryEntry>, c: nat, r: nat)
    requires SameShape(a, b) && AnsweredOnlyBy(a, c, r)
    ensures AnsweredOnlyBy(b, c, r)
  {
    hide CallFor, ResultFor;
    PartnersByShape(a, b, r);
    forall x | 0 <= x < |b| && b[x].kind == ToolResultEntry && CallFor(b, x) == Some(c) ensures x == r {
      PartnersByShape(a, b, x);
    }
  }

  // ---------- sizes that break a pair ----------

  function Sized(e: MemoryEntry, free: bool): MemoryEntry {
    e.(content := if free then "" else "size", toolCallsJson := "", itemJson := "")
  }

  /** The call c and the result z cost nothing, every other entry one token. */
  function OnlyFree(entries: seq<MemoryEntry>, c: nat, z: nat): (r: seq<MemoryEntry>)
    ensures SameShape(entries, r)
  {
    seq(|entries|, i requires 0 <= i < |entries| => Sized(entries[i], i == c || i == z))
  }

  lemma {:induction false} FreeCost(entries: seq<MemoryEntry>, c: nat, z: nat, i: nat)
    requires i < |entries|
    ensures EntryTokens(OnlyFree(entries, c, z)[i]) == if i == c || i == z then 0 else 1
  {}

  /** With no budget at all, exactly the two free entries are taken. */
  lemma {:induction false} GreedyTakesFree(entries: seq<MemoryEntry>, c: nat, z: nat, i: nat)
    requires i <= |entries|
    ensures var es := OnlyFree(entries, c, z);
      Used(es, 0, i) == 0 && forall k :: i <= k < |entries| ==> (Fits(es, 0, k) <==> k == c || k == z)
    decreases |entries| - i
  {
    hide EntryTokens, Sized;
    if i < |entries| {
      GreedyTakesFree(entries, c, z, i + 1);
      FreeCost(entries, c, z, i);
    }
  }

  /** Nothing but the free entries is ever included, and nothing is spent. */
  ghost predicate FreeOnly(s: Selection, c: nat, z: nat) {
    s.total == 0 && forall i :: 0 <= i < |s.included| && s.included[i] ==> i == c || i == z
  }

  lemma {:induction false} RepairStaysFree(entries: seq<MemoryEntry>, s: Selection, c: nat, z: nat, i: nat)
    requires |s.included| == |entries| && i < |entries| && FreeOnly(s, c, z)
    ensures FreeOnly(RepairAt(OnlyFree(entries, c, z), 0, s, i), c, z)
  {
    hide EntryTokens, CallFor, ResultFor, Sized;
    forall k: nat | k < |entries| ensures EntryTokens(OnlyFree(entries, c, z)[k]) == if k == c || k == z then 0 else 1 {
      FreeCost(entries, c, z, k);
    }
  }

  /** Only the two free entries' own checks can do anything. */
  lemma {:induction false} TwoChecks(entries: seq<MemoryEntry>, s: Selection, c: nat, z: nat, k: nat)
    requires c < z < |entries| && k <= |entries| && |s.included| == |entries| && FreeOnly(s, c, z)
    ensures var es := OnlyFree(entries, c, z);
      && FreeOnly(Repaired(es, 0, s, k), c, z)
      && Repaired(es, 0, s, k) ==
           (if k <= c then s
            else if k <= z then RepairAt(es, 0, s, c)
            else RepairAt(es, 0, RepairAt(es, 0, s, c), z))
    decreases k
  {
    hide RepairAt, OnlyFree, FreeOnly;
    if k > 0 {
      TwoChecks(entries, s, c, z, k - 1);
      var es := OnlyFree(entries, c, z);
      RepairStaysFree(entries, Repaired(es, 0, s, k - 1), c, z, k - 1);
      if k - 1 != c && k - 1 != z {
        OthersNotIncluded(Repaired(es, 0, s, k - 1), c, z, k - 1);
        NotIncludedNotChecked(es, Repaired(es, 0, s, k - 1), k - 1);
      }
    }
  }

  lemma OthersNotIncluded(s: Selection, c: nat, z: nat, i: nat)
    requires FreeOnly(s, c, z) && i < |s.included| && i != c && i != z
    ensures !s.included[i]
  {}

  lemma NotIncludedNotChecked(entries: seq<MemoryEntry>, s: Selection, i: nat)
    requires |s.included| == |entries| && i < |entries| && !s.included[i]
    ensures RepairAt(entries, 0, s, i) == s
  {}

  /** The outcome with c and z free: the two checks of the initial choice. */
  lemma {:induction false} FreeOutcome(entries: seq<MemoryEntry>, c: nat, z: nat) returns (s: Selection)
    requires c < z < |entries|
    ensures s.total == 0 && |s.included| == |entries|
    ensures forall i :: 0 <= i < |entries| ==> s.included[i] == (i == c || i == z)
    ensures var es := OnlyFree(entries, c, z);
      Choose(es, 0, 0) == RepairAt(es, 0, RepairAt(es, 0, s, c), z)
  {
    hide RepairAt, Repaired, OnlyFree;
    var es := OnlyFree(entries, c, z);
    GreedyTakesFree(entries, c, z, 0);
    s := Greedy(es, 0);
    TwoChecks(entries, s, c, z, |entries|);
  }

  /** With the call's nearest result free, the call stays; any other result, and one of another call, is out. */
  lemma {:induction false} NearestFree(entries: seq<MemoryEntry>, c: nat, r: nat)
    requires c < r < |entries| && IsCall(entries[c], entries[r].toolCallId) && entries[r].kind == ToolResultEntry
    requires ResultFor(entries, c) != Some(r) || CallFor(entries, r) != Some(c)
    ensures ResultFor(entries, c).Some?
    ensures var s := Choose(OnlyFree(entries, c, ResultFor(entries, c).value), 0, 0); s.included[c] && !s.included[r]
  {
    hide RepairAt, OnlyFree, Choose, CallFor, ResultFor;
    assert IsResult(entries[r], entries[c].toolCallId);
    var z := ResultFor(entries, c).value;
    var es := OnlyFree(entries, c, z);
    var s := FreeOutcome(entries, c, z);
    PartnersByShape(entries, es, c);
    PartnersByShape(entries, es, z);
    IncludedPartner(es, s, c, z);
    if CallFor(entries, z) == Some(c) {
      IncludedPartner(es, s, z, c);
    } else {
      assert IsCall(entries[c], entries[z].toolCallId);
      FreeCost(entries, c, z, CallFor(entries, z).value);
      FreeCost(entries, c, z, z);
      CostlyPartner(es, s, z, CallFor(entries, z).value);
    }
  }

  lemma IncludedPartner(entries: seq<MemoryEntry>, s: Selection, i: nat, j: nat)
    requires |s.included| == |entries| && i < |entries| && j < |entries| && s.included[j]
    requires entries[i].kind == ToolResultEntry ==> CallFor(entries, i) == Some(j)
    requires entries[i].kind == ToolCallEntry ==> ResultFor(entries, i) == Some(j)
    ensures RepairAt(entries, 0, s, i) == s
  {
    hide CallFor, ResultFor;
  }

  /** A partner that does not fit costs the entry its own place. */
  lemma CostlyPartner(entries: seq<MemoryEntry>, s: Selection, i: nat, j: nat)
    requires |s.included| == |entries| && i < |entries| && j < |entries| && s.included[i] && !s.included[j]
    requires s.total == 0 && EntryTokens(entries[j]) > 0
    requires Tool(entries[i])
    requires entries[i].kind == ToolResultEntry ==> CallFor(entries, i) == Some(j)
    requires entries[i].kind == ToolCallEntry ==> ResultFor(entries, i) == Some(j)
    ensures RepairAt(entries, 0, s, i) == Selection(s.included[i := false], 0 - EntryTokens(entries[i]))
  {
    hide CallFor, ResultFor, EntryTokens;
  }

  lemma FreePartner(entries: seq<MemoryEntry>, s: Selection, i: nat, j: nat)
    requires |s.included| == |entries| && i < |entries| && j < |entries| && s.included[i] && !s.included[j]
    requires s.total == 0 && EntryTokens(entries[j]) == 0
    requires entries[i].kind == ToolResultEntry && CallFor(entries, i) == Some(j)
    ensures RepairAt(entries, 0, s, i) == Selection(s.included[j := true], 0)
  {
    hide CallFor, ResultFor, EntryTokens;
  }

  /** With another result of the call free instead, the call is dropped for its nearest result and then brought
      back by the other one. */
  lemma {:induction false} OtherFree(entries: seq<MemoryEntry>, c: nat, r: nat, z: nat)
    requires c < r < |entries| && c < z < |entries| && z != r && entries[c].kind == ToolCallEntry
    requires ResultFor(entries, c) == Some(r) && entries[z].kind == ToolResultEntry && CallFor(entries, z) == Some(c)
    ensures var s := Choose(OnlyFree(entries, c, z), 0, 0); s.included[c] && !s.included[r]
  {
    hide RepairAt, OnlyFree, Choose, CallFor, ResultFor, EntryTokens;
    var es := OnlyFree(entries, c, z);
    var s := FreeOutcome(entries, c, z);
    PartnersByShape(entries, es, c);
    PartnersByShape(entries, es, z);
    FreeCost(entries, c, z, r);
    FreeCost(entries, c, z, c);
    CostlyPartner(es, s, c, r);
    var t := RepairAt(es, 0, s, c);
    FreePartner(es, t, z, c);
  }

  /** Sizes for which the pair is broken, whenever r is not the one result that resolves to c. */
  lemma {:induction false} BreakingSizes(entries: seq<MemoryEntry>, c: nat, r: nat) returns (es: seq<MemoryEntry>)
    requires c < r < |entries| && IsCall(entries[c], entries[r].toolCallId) && entries[r].kind == ToolResultEntry
    requires !AnsweredOnlyBy(entries, c, r)
    ensures SameShape(entries, es)
    ensures Choose(es, 0, 0).included[c] && !Choose(es, 0, 0).included[r]
  {
    hide OnlyFree, Choose, CallFor, ResultFor;
    if ResultFor(entries, c) != Some(r) || CallFor(entries, r) != Some(c) {
      NearestFree(entries, c, r);
      es := OnlyFree(entries, c, ResultFor(entries, c).value);
    } else {
      var z :| 0 <= z < |entries| && entries[z].kind == ToolResultEntry && CallFor(entries, z) == Some(c) && z != r;
      OtherFree(entries, c, r, z);
      es := OnlyFree(entries, c, z);
    }
  }

  /** A call and a later result with its id are included or left out together, whatever the entries' sizes and
      the limit, if and only if the result is the one whose nearest earlier call this is. */
  lemma {:induction false} PairsTogetherIff(entries: seq<MemoryEntry>, c: nat, r: nat)
    requires c < r < |entries| && IsCall(entries[c], entries[r].toolCallId) && entries[r].kind == ToolResultEntry
    ensures (forall es, maxTokens, fixedTokens: nat :: SameShape(entries, es) ==>
               var s := Choose(es, maxTokens, fixedTokens); s.included[c] == s.included[r])
       <==> AnsweredOnlyBy(entries, c, r)
  {
    hide Choose, AnsweredOnlyBy;
    if AnsweredOnlyBy(entries, c, r) {
      forall es, maxTokens, fixedTokens: nat | SameShape(entries, es)
        ensures var s := Choose(es, maxTokens, fixedTokens); s.included[c] == s.included[r]
      {
        AnsweredByShape(entries, es, c, r);
        PairsTogether(es, maxTokens, fixedTokens, c, r);
      }
    } else {
      var es := BreakingSizes(entries, c, r);
    }
  }
}
