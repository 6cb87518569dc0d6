/** The in-memory history of each session. */
module MemoryStore {
  import opened Numbers

  datatype EntryKind = UserEntry | AssistantEntry | ToolCallEntry | ToolResultEntry | SummaryEntry | ExternalEntry

  datatype MemoryEntry = MemoryEntry(
    kind: EntryKind, role: string, content: string, source: string,
    toolCallId: string, toolCallsJson: string, itemJson: string, estimatedTokens: int)

  /** The last `count` entries, or all of them if there are fewer. */
  function Recent(all: seq<MemoryEntry>, count: nat): seq<MemoryEntry> {
    if count >= |all| then all else all[|all| - count..]
  }

  /** Replacing a range by one entry; an empty or impossible range changes nothing. */
  function Replaced(all: seq<MemoryEntry>, from: nat, to: nat, summary: MemoryEntry): seq<MemoryEntry> {
    if from >= |all| || to > |all| || from >= to then all else all[..from] + [summary] + all[to..]
  }

  class InMemoryStore {
    var entries: map<string, seq<MemoryEntry>>

    constructor ()
      ensures entries == map[]
    {
      entries := map[];
    }

    function Of(session: string): seq<MemoryEntry>
      reads this
    {
      if session in entries then entries[session] else []
    }

    method Append(session: string, entry: MemoryEntry)
      modifies this
      ensures entries == old(entries)[session := old(Of(session)) + [entry]]
    {
      entries := entries[session := Of(session) + [entry]];
    }

    method GetRecent(session: string, count: nat) returns (recent: seq<MemoryEntry>)
      ensures recent == Recent(Of(session), count)
    {
      if session !in entries { return []; }
      var all := entries[session];
      if count >= |all| { return all; }
      return all[|all| - count..];
    }

    method Count(session: string) returns (n: nat)
      ensures n == |Of(session)|
    {
      if session !in entries { return 0; }
      return |entries[session]|;
    }

    method Summarize(session: string, from: nat, to: nat, summary: MemoryEntry)
      modifies this
      ensures forall s :: s in entries <==> s in old(entries)
      ensures forall s :: s in entries && s != session ==> entries[s] == old(entries)[s]
      ensures Of(session) == if session in old(entries) then Replaced(old(Of(session)), from, to, summary) else []
    {
      if session !in entries { return; }
      var all := entries[session];
      if from >= |all| || to > |all| || from >= to { return; }
      all := all[..from] + all[to..];
      all := all[..from] + [summary] + all[from..];
      entries := entries[session := all];
    }

    method Clear(session: string)
      modifies this
      ensures entries == old(entries) - {session}
    {
      entries := entries - {session};
    }
  }

  // ---------- recording a turn ----------

  function Digit(d: nat): char
    requires d < 10
  {
    ('0' as int + d) as char
  }

  function Decimal(n: nat): string {
    if n < 10 then [Digit(n)] else Decimal(n / 10) + [Digit(n % 10)]
  }

  function SummaryOf(half: nat): (summary: MemoryEntry)
    ensures summary.kind == SummaryEntry
  {
    var content := "Summary of " + Decimal(half) + " entries";
    MemoryEntry(SummaryEntry, "system", content, "", "", "", "", |content| / 4)
  }

  /** Append, then halve the history if it has grown past the threshold. */
  function Recorded(store: seq<MemoryEntry>, entry: MemoryEntry, threshold: int): seq<MemoryEntry> {
    var grown := store + [entry];
    var half := |grown| / 2;
    if |grown| <= threshold || half == 0 then grown else [SummaryOf(half)] + grown[half..]
  }

  /** The store after recording a whole log into an empty session. */
  function RecordedAll(log: seq<MemoryEntry>, threshold: int): seq<MemoryEntry> {
    if log == [] then [] else Recorded(RecordedAll(log[..|log| - 1], threshold), log[|log| - 1], threshold)
  }

  /** The store is the whole log, or one summary and then an unchanged end of the log. */
  predicate LogOrSummary(store: seq<MemoryEntry>, log: seq<MemoryEntry>) {
    store == log ||
    (store != [] && store[0].kind == SummaryEntry && |store| - 1 <= |log| && store[1..] == log[|log| - (|store| - 1)..])
  }

  lemma {:induction false} GrowKeepsShape(store: seq<MemoryEntry>, log: seq<MemoryEntry>, e: MemoryEntry)
    requires LogOrSummary(store, log)
    ensures LogOrSummary(store + [e], log + [e])
  {
    if store != log {
      assert (store + [e])[1..] == store[1..] + [e];
      assert (log + [e])[|log| - (|store| - 1)..] == log[|log| - (|store| - 1)..] + [e];
    }
  }

  lemma {:induction false} HalvingKeepsShape(
    store: seq<MemoryEntry>, log: seq<MemoryEntry>, half: nat, summary: MemoryEntry)
    requires LogOrSummary(store, log) && 0 < half <= |store| && summary.kind == SummaryEntry
    ensures LogOrSummary([summary] + store[half..], log)
  {
    var after := [summary] + store[half..];
    assert after[1..] == store[half..];
    if store != log { assert store[half..] == store[1..][half - 1..]; }
  }

  /** Halving what has outgrown the threshold by one brings it back within. */
  lemma HalfIsEnough(n: nat, threshold: int)
    requires n - 1 <= Max(threshold, 3) && n > threshold && n / 2 > 0
    ensures n - n / 2 + 1 <= Max(threshold, 3)
  {}

  /** What one recorded turn keeps of the history. */
  ghost predicate GoodHistory(store: seq<MemoryEntry>, log: seq<MemoryEntry>, threshold: int) {
    LogOrSummary(store, log) && |store| <= Max(threshold, 3)
  }

  lemma {:induction false} HalvedStep(grown: seq<MemoryEntry>, log: seq<MemoryEntry>, e: MemoryEntry, threshold: int,
                                      half: nat, summary: MemoryEntry)
    requires LogOrSummary(grown, log) && |grown| - 1 <= Max(threshold, 3) && |grown| > threshold
    requires half == |grown| / 2 > 0 && grown[|grown| - 1] == e && summary.kind == SummaryEntry
    ensures var after := [summary] + grown[half..];
      GoodHistory(after, log, threshold) && after != [] && after[|after| - 1] == e
  {
    hide LogOrSummary, Max;
    HalvingKeepsShape(grown, log, half, summary);
    HalfIsEnough(|grown|, threshold);
    Kept(grown, e, half, summary);
  }

  lemma {:induction false} GrownStep(store: seq<MemoryEntry>, log: seq<MemoryEntry>, e: MemoryEntry, threshold: int)
    requires GoodHistory(store, log, threshold)
    ensures LogOrSummary(store + [e], log + [e]) && |store + [e]| - 1 <= Max(threshold, 3)
    ensures |store + [e]| <= threshold || |store + [e]| / 2 == 0 ==> |store + [e]| <= Max(threshold, 3)
  {
    hide LogOrSummary;
    GrowKeepsShape(store, log, e);
  }

  lemma {:induction false} RecordStep(store: seq<MemoryEntry>, log: seq<MemoryEntry>, e: MemoryEntry, threshold: int)
    requires GoodHistory(store, log, threshold)
    ensures var after := Recorded(store, e, threshold);
      GoodHistory(after, log + [e], threshold) && after != [] && after[|after| - 1] == e
  {
    hide LogOrSummary, SummaryOf, Max;
    var grown := store + [e];
    GrownStep(store, log, e, threshold);
    if |grown| > threshold && |grown| / 2 != 0 {
      HalvedStep(grown, log + [e], e, threshold, |grown| / 2, SummaryOf(|grown| / 2));
    }
  }

  lemma Kept(grown: seq<MemoryEntry>, e: MemoryEntry, half: nat, summary: MemoryEntry)
    requires half < |grown| && grown[|grown| - 1] == e
    ensures var after := [summary] + grown[half..];
      |after| == |grown| - half + 1 && after[|after| - 1] == e
  {}

  lemma EmptyHistory()
    ensures LogOrSummary([], [])
  {}

  /** In every run, the history stays within the threshold, or three entries if that is more; the newest entry is
      last; and nothing but a leading summary ever stands for the part of the log that is gone. */
  lemma {:induction false} HistoryBounded(log: seq<MemoryEntry>, threshold: int)
    ensures var store := RecordedAll(log, threshold);
      && |store| <= Max(threshold, 3)
      && LogOrSummary(store, log)
      && (log != [] ==> store != [] && store[|store| - 1] == log[|log| - 1])
    decreases |log|
  {
    hide Recorded, LogOrSummary;
    if log == [] {
      EmptyHistory();
    } else {
      var before, e := log[..|log| - 1], log[|log| - 1];
      HistoryBounded(before, threshold);
      RecordStep(RecordedAll(before, threshold), before, e, threshold);
      assert before + [e] == log;
    }
  }

  /** Up to the threshold nothing is summarized. */
  lemma {:induction false} ShortLogKept(log: seq<MemoryEntry>, threshold: int)
    requires |log| <= threshold
    ensures RecordedAll(log, threshold) == log
    decreases |log|
  {
    hide Recorded;
    if log != [] {
      var before, e := log[..|log| - 1], log[|log| - 1];
      ShortLogKept(before, threshold);
      NothingToHalve(before, e, threshold);
      assert before + [e] == log;
    }
  }

  lemma NothingToHalve(store: seq<MemoryEntry>, e: MemoryEntry, threshold: int)
    requires |store| < threshold
    ensures Recorded(store, e, threshold) == store + [e]
  {
    hide SummaryOf;
  }
}
