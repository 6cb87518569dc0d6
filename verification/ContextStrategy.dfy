/** Choosing which history entries go into a prompt. */
module ContextStrategy {
  import opened Numbers
  import opened DialogueTypes
  import opened MemoryStore

  datatype ContextMessage = ContextMessage(
    role: string, content: string, toolCallId: string, name: string, toolCallsJson: string)

  datatype ContextWindow = ContextWindow(messages: seq<ContextMessage>, estimatedTokens: int)

  /** item is the observation's conversation item as rendered for the model, if it has one. */
  datatype CurrentObservation = CurrentObservation(kind: ObservationKind, content: string, item: Option<ContextMessage>)

  const MAX_FETCH: nat := 512

  function EntryTokens(e: MemoryEntry): nat {
    (|e.content| + |e.toolCallsJson| + |e.itemJson|) / 4
  }

  /** Which entries are included, and the running total. */
  datatype Selection = Selection(included: seq<bool>, total: int)

  function TokensOf(entries: seq<MemoryEntry>, included: seq<bool>): nat
    requires |included| == |entries|
  {
    if entries == [] then 0
    else
      var n := |entries| - 1;
      TokensOf(entries[..n], included[..n]) + if included[n] then EntryTokens(entries[n]) else 0
  }

  // ---------- newest first, whatever fits ----------

  /** Tokens taken by the entries from i on. */
  function Used(entries: seq<MemoryEntry>, budget: int, i: nat): int
    requires i <= |entries|
    decreases |entries| - i
  {
    if i == |entries| then 0
    else
      var newer := Used(entries, budget, i + 1);
      if newer + EntryTokens(entries[i]) <= budget then newer + EntryTokens(entries[i]) else newer
  }

  /** An entry is taken if it fits beside the newer entries taken before it. */
  predicate Fits(entries: seq<MemoryEntry>, budget: int, i: nat)
    requires i < |entries|
  {
    Used(entries, budget, i + 1) + EntryTokens(entries[i]) <= budget
  }

  function Greedy(entries: seq<MemoryEntry>, budget: int): (s: Selection)
    ensures |s.included| == |entries|
  {
    Selection(seq(|entries|, i requires 0 <= i < |entries| => Fits(entries, budget, i)), Used(entries, budget, 0))
  }

  method SelectGreedily(entries: seq<MemoryEntry>, budget: int) returns (s: Selection)
    ensures s == Greedy(entries, budget)
  {
    var included := seq(|entries|, _ => false);
    var total: int := 0;
    var i := |entries|;
    while i > 0
      invariant 0 <= i <= |entries| && |included| == |entries|
      invariant total == Used(entries, budget, i)
      invariant forall k :: 0 <= k < |entries| ==> included[k] == (k >= i && Fits(entries, budget, k))
    {
      i := i - 1;
      if total + EntryTokens(entries[i]) <= budget {
        included := included[i := true];
        total := total + EntryTokens(entries[i]);
      }
    }
    s := Selection(included, total);
  }

  // ---------- keeping calls and results together ----------

  predicate IsCall(e: MemoryEntry, id: string) {
    e.kind == ToolCallEntry && e.toolCallId == id
  }

  predicate IsResult(e: MemoryEntry, id: string) {
    e.kind == ToolResultEntry && e.toolCallId == id
  }

  /** The nearest earlier call with the same id as the result at i. */
  function CallFor(entries: seq<MemoryEntry>, i: nat): (j: Option<nat>)
    requires i < |entries|
    ensures j.Some? ==> j.value < i && IsCall(entries[j.value], entries[i].toolCallId)
    ensures j.Some? ==> forall k :: j.value < k < i ==> !IsCall(entries[k], entries[i].toolCallId)
    ensures j.None? ==> forall k :: 0 <= k < i ==> !IsCall(entries[k], entries[i].toolCallId)
  {
    LastCall(entries, entries[i].toolCallId, i)
  }

  function LastCall(entries: seq<MemoryEntry>, id: string, before: nat): (j: Option<nat>)
    requires before <= |entries|
    ensures j.Some? ==> j.value < before && IsCall(entries[j.value], id)
    ensures j.Some? ==> forall k :: j.value < k < before ==> !IsCall(entries[k], id)
    ensures j.None? ==> forall k :: 0 <= k < before ==> !IsCall(entries[k], id)
  {
    if before == 0 then None
    else if IsCall(entries[before - 1], id) then Some(before - 1)
    else LastCall(entries, id, before - 1)
  }

  /** The nearest later result with the same id as the call at i. */
  function ResultFor(entries: seq<MemoryEntry>, i: nat): (j: Option<nat>)
    requires i < |entries|
    ensures j.Some? ==> i < j.value < |entries| && IsResult(entries[j.value], entries[i].toolCallId)
    ensures j.Some? ==> forall k :: i < k < j.value ==> !IsResult(entries[k], entries[i].toolCallId)
    ensures j.None? ==> forall k :: i < k < |entries| ==> !IsResult(entries[k], entries[i].toolCallId)
  {
    FirstResult(entries, entries[i].toolCallId, i + 1)
  }

  function FirstResult(entries: seq<MemoryEntry>, id: string, from: nat): (j: Option<nat>)
    requires from <= |entries|
    ensures j.Some? ==> from <= j.value < |entries| && IsResult(entries[j.value], id)
    ensures j.Some? ==> forall k :: from <= k < j.value ==> !IsResult(entries[k], id)
    ensures j.None? ==> forall k :: from <= k < |entries| ==> !IsResult(entries[k], id)
    decreases |entries| - from
  {
    if from == |entries| then None
    else if IsResult(entries[from], id) then Some(from)
    else FirstResult(entries, id, from + 1)
  }

  /** Bring in the partner j of the included entry i if it fits, and drop i if it does not. */
  function Paired(entries: seq<MemoryEntry>, budget: int, s: Selection, i: nat, partner: Option<nat>): (r: Selection)
    requires |s.included| == |entries| && i < |entries| && (partner.Some? ==> partner.value < |entries|)
    ensures |r.included| == |entries|
  {
    if partner.None? || s.included[partner.value] then s
    else if s.total + EntryTokens(entries[partner.value]) <= budget then
      Selection(s.included[partner.value := true], s.total + EntryTokens(entries[partner.value]))
    else
      Selection(s.included[i := false], s.total - EntryTokens(entries[i]))
  }

  /** The two checks made for entry i. */
  function RepairAt(entries: seq<MemoryEntry>, budget: int, s: Selection, i: nat): (r: Selection)
    requires |s.included| == |entries| && i < |entries|
    ensures |r.included| == |entries|
  {
    if !s.included[i] then s
    else if entries[i].kind == ToolResultEntry then Paired(entries, budget, s, i, CallFor(entries, i))
    else if entries[i].kind == ToolCallEntry then Paired(entries, budget, s, i, ResultFor(entries, i))
    else s
  }

  /** The selection after the first k entries were checked. */
  function Repaired(entries: seq<MemoryEntry>, budget: int, s: Selection, k: nat): (r: Selection)
    requires |s.included| == |entries| && k <= |entries|
    ensures |r.included| == |entries|
  {
    if k == 0 then s else RepairAt(entries, budget, Repaired(entries, budget, s, k - 1), k - 1)
  }

  method FindCall(entries: seq<MemoryEntry>, i: nat) returns (j: int)
    requires i < |entries|
    ensures -1 <= j && CallFor(entries, i) == if j == -1 then None else Some(j)
  {
    j := i - 1;
    while j >= 0
      invariant -1 <= j < i
      invariant CallFor(entries, i) == LastCall(entries, entries[i].toolCallId, j + 1)
    {
      if IsCall(entries[j], entries[i].toolCallId) { return; }
      j := j - 1;
    }
  }

  method FindResult(entries: seq<MemoryEntry>, i: nat) returns (j: nat)
    requires i < |entries|
    ensures i < j <= |entries| && ResultFor(entries, i) == if j == |entries| then None else Some(j)
  {
    j := i + 1;
    while j < |entries|
      invariant i < j <= |entries|
      invariant ResultFor(entries, i) == FirstResult(entries, entries[i].toolCallId, j)
    {
      if IsResult(entries[j], entries[i].toolCallId) { return; }
      j := j + 1;
    }
  }

  method RepairPairs(entries: seq<MemoryEntry>, budget: int, s: Selection) returns (r: Selection)
    requires |s.included| == |entries|
    ensures r == Repaired(entries, budget, s, |entries|)
  {
    hide CallFor, ResultFor;
    var included, total := s.included, s.total;
    for i := 0 to |entries|
      invariant |included| == |entries|
      invariant Selection(included, total) == Repaired(entries, budget, s, i)
    {
      if entries[i].kind == ToolResultEntry && included[i] {
        var j := FindCall(entries, i);
        if j >= 0 && !included[j] {
          var pairTokens := EntryTokens(entries[j]);
          if total + pairTokens <= budget {
            included := included[j := true];
            total := total + pairTokens;
          } else {
            included := included[i := false];
            total := total - EntryTokens(entries[i]);
          }
        }
      }
      if entries[i].kind == ToolCallEntry && included[i] {
        var j := FindResult(entries, i);
        if j < |entries| && !included[j] {
          var pairTokens := EntryTokens(entries[j]);
          if total + pairTokens <= budget {
            included := included[j := true];
            total := total + pairTokens;
          } else {
            included := included[i := false];
            total := total - EntryTokens(entries[i]);
          }
        }
      }
    }
    r := Selection(included, total);
  }

  // ---------- the window ----------

  function Selected(entries: seq<MemoryEntry>, included: seq<bool>): seq<MemoryEntry>
    requires |included| == |entries|
  {
    if entries == [] then []
    else
      var n := |entries| - 1;
      Selected(entries[..n], included[..n]) + if included[n] then [entries[n]] else []
  }

  /** A stored item, when it parses, is rendered instead of the legacy fields. */
  function EntryMessage(e: MemoryEntry, parse: string -> Option<ContextMessage>): ContextMessage {
    var item := parse(e.itemJson);
    if item.Some? then item.value else ContextMessage(e.role, e.content, e.toolCallId, e.source, e.toolCallsJson)
  }

  function EntryMessages(entries: seq<MemoryEntry>, parse: string -> Option<ContextMessage>): seq<ContextMessage> {
    seq(|entries|, i requires 0 <= i < |entries| => EntryMessage(entries[i], parse))
  }

  function ObservationMessage(o: CurrentObservation): ContextMessage {
    if o.item.Some? then o.item.value
    else
      var role := match o.kind
        case UserMessage => "user"
        case ToolResult => "tool"
        case SystemEvent => "user"
        case Interruption => "system"
        case Continuation => "";
      ContextMessage(role, o.content, "", "", "")
  }

  /** What follows the history: the observation, unless it only continues the turn. */
  function Tail(o: CurrentObservation): seq<ContextMessage> {
    if o.kind == Continuation then [] else [ObservationMessage(o)]
  }

  function FixedTokens(instruction: string, o: CurrentObservation): nat {
    |instruction| / 4 + if o.kind == Continuation then 0 else |ObservationMessage(o).content| / 4
  }

  /** The entries chosen from the fetched history. */
  function Choose(entries: seq<MemoryEntry>, maxTokens: int, fixedTokens: nat): (s: Selection)
    ensures |s.included| == |entries|
  {
    var budget := Max(maxTokens - fixedTokens, 0);
    Repaired(entries, budget, Greedy(entries, budget), |entries|)
  }

  class ContextBuilder {
    const maxContextTokens: int
    const summarizationThreshold: int
    const defaultInstruction: string
    const parse: string -> Option<ContextMessage>
    const store: InMemoryStore
    var systemInstructions: map<string, string>

    constructor (maxContextTokens: int, summarizationThreshold: int, defaultInstruction: string,
                 parse: string -> Option<ContextMessage>, store: InMemoryStore)
      ensures this.maxContextTokens == maxContextTokens && this.summarizationThreshold == summarizationThreshold
      ensures this.defaultInstruction == defaultInstruction && this.parse == parse && this.store == store
      ensures systemInstructions == map[]
    {
      this.maxContextTokens, this.summarizationThreshold := maxContextTokens, summarizationThreshold;
      this.defaultInstruction, this.parse, this.store := defaultInstruction, parse, store;
      systemInstructions := map[];
    }

    function InstructionOf(session: string): string
      reads this
    {
      if session in systemInstructions then systemInstructions[session] else defaultInstruction
    }

    method InitSession(session: string, instruction: string)
      modifies this
      ensures systemInstructions ==
        old(systemInstructions)[session := if instruction == "" then defaultInstruction else instruction]
    {
      if instruction == "" {
        systemInstructions := systemInstructions[session := defaultInstruction];
      } else {
        systemInstructions := systemInstructions[session := instruction];
      }
    }

    method SetSystemInstruction(session: string, instruction: string)
      modifies this
      ensures systemInstructions == old(systemInstructions)[session := instruction]
    {
      systemInstructions := systemInstructions[session := instruction];
    }

    method ReleaseSession(session: string)
      modifies this
      ensures systemInstructions == old(systemInstructions) - {session}
    {
      systemInstructions := systemInstructions - {session};
    }

    /** The included entries, rendered in order. */
    method Assemble(entries: seq<MemoryEntry>, included: seq<bool>) returns (messages: seq<ContextMessage>)
      requires |included| == |entries|
      ensures messages == EntryMessages(Selected(entries, included), parse)
    {
      hide EntryMessage;
      messages := [];
      for i := 0 to |entries|
        invariant messages == EntryMessages(Selected(entries[..i], included[..i]), parse)
      {
        assert entries[..i + 1][..i] == entries[..i] && included[..i + 1][..i] == included[..i];
        if included[i] {
          messages := messages + [EntryMessage(entries[i], parse)];
        }
      }
      assert entries[..|entries|] == entries && included[..|entries|] == included;
    }

    /** System message, the chosen entries in order, the observation; within the budget unless the fixed parts
        alone exceed it. */
    method BuildContext(session: string, o: CurrentObservation) returns (window: ContextWindow)
      ensures var entries, instruction := Recent(store.Of(session), MAX_FETCH), InstructionOf(session);
        var fixedTokens := FixedTokens(instruction, o);
        var s := Choose(entries, maxContextTokens, fixedTokens);
        && window.messages == [ContextMessage("system", instruction, "", "", "")]
             + EntryMessages(Selected(entries, s.included), parse) + Tail(o)
        && window.estimatedTokens == fixedTokens + TokensOf(entries, s.included)
        && window.estimatedTokens <= Max(maxContextTokens, fixedTokens)
    {
      hide Greedy, Repaired, TokensOf, ObservationMessage, EntryMessages, Selected, Recent;
      var instruction := InstructionOf(session);
      var append := o.kind != Continuation;
      var message := ObservationMessage(o);
      var systemTokens := |instruction| / 4;
      var observationTokens := if append then |message.content| / 4 else 0;
      var budget := maxContextTokens - systemTokens - observationTokens;
      if budget < 0 { budget := 0; }
      var entries := store.GetRecent(session, MAX_FETCH);
      var s := SelectGreedily(entries, budget);
      s := RepairPairs(entries, budget, s);
      WithinBudget(entries, budget);
      var history := Assemble(entries, s.included);
      var messages := [ContextMessage("system", instruction, "", "", "")] + history;
      if append { messages := messages + [message]; }
      window := ContextWindow(messages, systemTokens + s.total + observationTokens);
    }

    /** Append the entry, and summarize the older half when the history has outgrown the threshold. */
    method RecordTurn(session: string, entry: MemoryEntry)
      modifies store
      ensures store.Of(session) == Recorded(old(store.Of(session)), entry, summarizationThreshold)
      ensures forall s :: s != session ==> store.Of(s) == old(store.Of(s))
    {
      store.Append(session, entry);
      MaybeSummarize(session);
    }

    method MaybeSummarize(session: string)
      modifies store
      ensures var all := old(store.Of(session));
        store.Of(session) ==
          if |all| <= summarizationThreshold || |all| / 2 == 0 then all else [SummaryOf(|all| / 2)] + all[|all| / 2..]
      ensures forall s :: s != session ==> store.Of(s) == old(store.Of(s))
    {
      hide SummaryOf;
      var total := store.Count(session);
      if total <= summarizationThreshold { return; }
      var half := total / 2;
      if half == 0 { return; }
      store.Summarize(session, 0, half, SummaryOf(half));
    }

    method InjectContext(session: string, entry: MemoryEntry)
      modifies store
      ensures store.Of(session) == old(store.Of(session)) + [entry]
      ensures forall s :: s != session ==> store.Of(s) == old(store.Of(s))
    {
      store.Append(session, entry);
    }
  }

  // ---------- the running total ----------

  lemma {:induction false} TokensChange(entries: seq<MemoryEntry>, included: seq<bool>, i: nat, b: bool)
    requires |included| == |entries| && i < |entries| && included[i] != b
    ensures TokensOf(entries, included[i := b]) ==
              TokensOf(entries, included) + (if b then 1 else -1) * EntryTokens(entries[i])
    decreases |entries|
  {
    hide EntryTokens;
    var n := |entries| - 1;
    if i == n {
      assert included[i := b][..n] == included[..n];
    } else {
      assert included[i := b][..n] == included[..n][i := b];
      TokensChange(entries[..n], included[..n], i, b);
    }
  }

  /** The total is the sum over the included entries, and within the budget. */
  predicate Accounted(entries: seq<MemoryEntry>, budget: int, s: Selection)
    requires |s.included| == |entries|
  {
    s.total == TokensOf(entries, s.included) && s.total <= budget
  }

  lemma {:induction false} PairedAccounted(
    entries: seq<MemoryEntry>, budget: int, s: Selection, i: nat, partner: Option<nat>)
    requires |s.included| == |entries| && i < |entries| && (partner.Some? ==> partner.value < |entries|)
    requires Accounted(entries, budget, s) && s.included[i]
    ensures Accounted(entries, budget, Paired(entries, budget, s, i, partner))
  {
    hide EntryTokens, TokensOf;
    if partner.Some? && !s.included[partner.value] {
      TokensChange(entries, s.included, partner.value, true);
      TokensChange(entries, s.included, i, false);
    }
  }

  lemma {:induction false} RepairAccounted(entries: seq<MemoryEntry>, budget: int, s: Selection, k: nat)
    requires |s.included| == |entries| && k <= |entries| && Accounted(entries, budget, s)
    ensures Accounted(entries, budget, Repaired(entries, budget, s, k))
    decreases k
  {
    hide Accounted, Paired, CallFor, ResultFor;
    if k > 0 {
      RepairAccounted(entries, budget, s, k - 1);
      var was, i := Repaired(entries, budget, s, k - 1), k - 1;
      if was.included[i] {
        PairedAccounted(entries, budget, was, i, CallFor(entries, i));
        PairedAccounted(entries, budget, was, i, ResultFor(entries, i));
      }
    }
  }

  lemma {:induction false} NothingCounted(entries: seq<MemoryEntry>, included: seq<bool>)
    requires |included| == |entries| && forall i :: 0 <= i < |entries| ==> !included[i]
    ensures TokensOf(entries, included) == 0
    decreases |entries|
  {
    if entries != [] { NothingCounted(entries[..|entries| - 1], included[..|entries| - 1]); }
  }

  /** The greedy choice restricted to the entries from i on. */
  function TakenFrom(entries: seq<MemoryEntry>, budget: int, i: nat): (r: seq<bool>)
    requires i <= |entries|
    ensures |r| == |entries|
  {
    seq(|entries|, k requires 0 <= k < |entries| => k >= i && Fits(entries, budget, k))
  }

  lemma {:induction false} UsedIsSum(entries: seq<MemoryEntry>, budget: int, i: nat)
    requires i <= |entries| && budget >= 0
    ensures Used(entries, budget, i) == TokensOf(entries, TakenFrom(entries, budget, i))
    ensures Used(entries, budget, i) <= budget
    decreases |entries| - i
  {
    hide EntryTokens, TokensOf;
    if i == |entries| {
      NothingCounted(entries, TakenFrom(entries, budget, i));
    } else {
      UsedIsSum(entries, budget, i + 1);
      var newer := TakenFrom(entries, budget, i + 1);
      if Fits(entries, budget, i) {
        assert TakenFrom(entries, budget, i) == newer[i := true];
        TokensChange(entries, newer, i, true);
      } else {
        assert TakenFrom(entries, budget, i) == newer;
      }
    }
  }

  /** After greedy selection and repair the total is the token sum of what is included, and within the budget. */
  lemma {:induction false} WithinBudget(entries: seq<MemoryEntry>, budget: int)
    requires budget >= 0
    ensures Accounted(entries, budget, Repaired(entries, budget, Greedy(entries, budget), |entries|))
  {
    hide Repaired, Used, Fits, TokensOf;
    UsedIsSum(entries, budget, 0);
    assert Greedy(entries, budget).included == TakenFrom(entries, budget, 0);
    RepairAccounted(entries, budget, Greedy(entries, budget), |entries|);
  }
}
