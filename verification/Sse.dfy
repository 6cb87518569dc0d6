/** Reading a streamed completion: bytes arrive in arbitrary chunks and are cut into lines again. */
module Sse {
  import opened DialogueTypes
  import opened Text
  import opened ResponseFilter
  import opened StreamParser
  import opened StreamLaws

  const NL := "\n"

  /** What has been assembled, the bytes not yet consumed, and whether the end marker was met. */
  datatype Reading = Reading(acc: Acc, rest: string, done: bool)

  predicate Skipped(line: string) {
    line == "" || line == "\r"
  }

  /** Consuming complete lines up to and including the first end marker. */
  function Run(acc: Acc, bytes: string, parse: string -> Payload): Reading
    decreases |bytes|
  {
    var end := Find(bytes, NL, 0);
    if end == None then Reading(acc, bytes, false)
    else
      var line, rest := bytes[..end.value], bytes[end.value + 1..];
      if Skipped(line) then Run(acc, rest, parse)
      else
        var m := Read(line, parse);
        if m.Done? then Reading(Absorb(acc, m), rest, true) else Run(Absorb(acc, m), rest, parse)
  }

  /** One chunk: a later chunk is still consumed after the end marker. */
  function Feed(r: Reading, chunk: string, parse: string -> Payload): Reading {
    var n := Run(r.acc, r.rest + chunk, parse);
    n.(done := r.done || n.done)
  }

  function FeedAll(chunks: seq<string>, parse: string -> Payload): Reading {
    if chunks == [] then Reading(START, "", false)
    else Feed(FeedAll(chunks[..|chunks| - 1], parse), chunks[|chunks| - 1], parse)
  }

  /** What was assembled when the end marker was first met. */
  function AtFirstDone(chunks: seq<string>, parse: string -> Payload): Option<Acc> {
    if chunks == [] then None
    else
      var before := AtFirstDone(chunks[..|chunks| - 1], parse);
      var after := FeedAll(chunks, parse);
      if before.Some? then before else if after.done then Some(after.acc) else None
  }

  // ---------- the class ----------

  class SseReader {
    const accumulator: StreamAccumulator
    const parse: string -> Payload
    var lineBuffer: string
    var streamDone: bool
    var prevContentLen: nat
    var delivered: seq<string>
    ghost var chunks: seq<string>

    ghost predicate Delivered()
      reads this`prevContentLen, this`delivered, accumulator
    {
      prevContentLen == |accumulator.content| && Concat(delivered) == accumulator.content
    }

    ghost predicate Valid()
      reads this, accumulator
    {
      Delivered() && Reading(accumulator.Snapshot(), lineBuffer, streamDone) == FeedAll(chunks, parse)
    }

    constructor (accumulator: StreamAccumulator, parse: string -> Payload)
      requires accumulator.Snapshot() == START
      ensures this.accumulator == accumulator && this.parse == parse && chunks == [] && delivered == [] && Valid()
    {
      this.accumulator, this.parse := accumulator, parse;
      lineBuffer, streamDone, prevContentLen, delivered, chunks := "", false, 0, [], [];
    }

    /** Hand on whatever content has been added. */
    method Deliver()
      requires prevContentLen <= |accumulator.content| && Concat(delivered) == accumulator.content[..prevContentLen]
      modifies this`prevContentLen, this`delivered
      ensures Delivered()
    {
      hide Concat;
      var content := accumulator.content;
      if |content| > prevContentLen {
        var delta := content[prevContentLen..];
        ConcatSnoc(delivered, delta);
        assert content[..prevContentLen] + delta == content;
        prevContentLen := |content|;
        delivered := delivered + [delta];
      } else {
        assert content[..prevContentLen] == content;
      }
    }

    /** One complete line. */
    method OnLine(line: string) returns (isDone: bool)
      requires Delivered()
      modifies this`prevContentLen, this`delivered, accumulator
      ensures Delivered()
      ensures var m := Read(line, parse);
        accumulator.Snapshot() == Absorb(old(accumulator.Snapshot()), m) && isDone == m.Done?
    {
      hide Read, Absorb, Concat;
      ghost var was := accumulator.Snapshot();
      var used;
      used, isDone := accumulator.ParseStreamChunk(line, parse);
      AbsorbGrows(was, Read(line, parse));
      if used {
        Deliver();
      } else {
        UnusedChangesNothing(was, Read(line, parse));
        assert accumulator.content == was.content by { assert accumulator.Snapshot() == was; }
      }
    }

    method OnData(chunk: string)
      requires Valid()
      modifies this, accumulator
      ensures Valid() && chunks == old(chunks) + [chunk] && (old(streamDone) ==> streamDone)
    {
      hide Find, Read, Absorb, Concat, Delivered, OccursAt;
      FedAppended(chunks, chunk, parse);
      ghost var goal := FeedAll(chunks + [chunk], parse);
      ghost var was := streamDone;
      chunks := chunks + [chunk];
      lineBuffer := lineBuffer + chunk;
      while true
        invariant Delivered() && streamDone == was && chunks == old(chunks) + [chunk]
        invariant var rest := Run(accumulator.Snapshot(), lineBuffer, parse); goal == rest.(done := was || rest.done)
        decreases |lineBuffer|
      {
        var pos := Find(lineBuffer, NL, 0);
        if pos == None { return; }
        OccursFits(lineBuffer, NL, pos.value);
        var line := lineBuffer[..pos.value];
        lineBuffer := lineBuffer[pos.value + 1..];
        if Skipped(line) { continue; }
        var isDone := OnLine(line);
        if isDone {
          streamDone := true;
          return;
        }
      }
    }

    /** A whole stream, ended by the end marker or by the server closing the connection. */
    method Submit(stream: seq<string>)
      requires Valid() && chunks == []
      modifies this, accumulator
      ensures Concat(delivered) == accumulator.content && chunks == stream
      ensures var r := Run(START, Concat(stream), parse);
        && streamDone == r.done
        && (r.done ==> AtFirstDone(stream, parse) == Some(r.acc))
        && (!r.done ==> accumulator.Snapshot() == Built(r.acc))
    {
      hide Concat, Run, Feed, FeedAll, AtFirstDone, Built;
      for i := 0 to |stream|
        invariant Valid() && chunks == stream[..i]
      {
        OnData(stream[i]);
        assert stream[..i] + [stream[i]] == stream[..i + 1];
      }
      assert stream[..|stream|] == stream;
      ChunkingIrrelevant(stream, parse);
      if !streamDone {
        BuildKeepsContent(accumulator.Snapshot());
        accumulator.Build();
      }
    }
  }

  lemma BuildKeepsContent(acc: Acc)
    ensures Built(acc).content == acc.content
  {}

  lemma AbsorbGrows(acc: Acc, m: Message)
    ensures acc.content <= Absorb(acc, m).content
  {
    hide AbsorbCalls, InThink, NeedOpen, Built;
    BuildKeepsContent(acc.(content := Closed(acc.content)));
  }

  lemma UnusedChangesNothing(acc: Acc, m: Message)
    requires m.Blank? || m == Json(Malformed)
    ensures Absorb(acc, m) == acc
  {}

  lemma {:induction false} FedAppended(chunks: seq<string>, chunk: string, parse: string -> Payload)
    ensures FeedAll(chunks + [chunk], parse) == Feed(FeedAll(chunks, parse), chunk, parse)
  {
    hide Feed;
    assert (chunks + [chunk])[..|chunks|] == chunks;
  }

  // ---------- chunking ----------

  /** A line found in the first part is found in the whole. */
  lemma {:induction false} FindInFirst(a: string, b: string)
    requires Find(a, NL, 0).Some?
    ensures Find(a + b, NL, 0) == Find(a, NL, 0)
  {
    var at := Find(a, NL, 0).value;
    forall k | 0 <= k <= at ensures OccursAt(a + b, NL, k) <==> OccursAt(a, NL, k) { Extend(a, b, NL, k); }
    FindIs(a + b, NL, 0, at);
  }

  /** Consuming more bytes continues from what consuming the first part left. */
  lemma {:induction false} RunExtends(acc: Acc, a: string, b: string, parse: string -> Payload)
    ensures var r := Run(acc, a, parse);
      Run(acc, a + b, parse) == if r.done then Reading(r.acc, r.rest + b, true) else Run(r.acc, r.rest + b, parse)
    decreases |a|
  {
    hide Find, OccursAt, Read, Absorb;
    var end := Find(a, NL, 0);
    if end.Some? {
      FindInFirst(a, b);
      OccursFits(a, NL, end.value);
      var rest := a[end.value + 1..];
      assert (a + b)[end.value + 1..] == rest + b;
      assert (a + b)[..end.value] == a[..end.value];
      var m := Read(a[..end.value], parse);
      RunExtends(acc, rest, b, parse);
      RunExtends(Absorb(acc, m), rest, b, parse);
    }
  }

  lemma NothingToRead(acc: Acc, parse: string -> Payload)
    ensures Run(acc, "", parse) == Reading(acc, "", false)
  {}

  /** Up to the first end marker only the concatenated bytes matter: whether there is one, what was assembled
      when it was met, and otherwise everything. */
  lemma {:induction false} ChunkingIrrelevant(chunks: seq<string>, parse: string -> Payload)
    ensures var r := Run(START, Concat(chunks), parse);
      && FeedAll(chunks, parse).done == r.done
      && AtFirstDone(chunks, parse) == (if r.done then Some(r.acc) else None)
      && (!r.done ==> FeedAll(chunks, parse) == r)
    decreases |chunks|
  {
    hide Run;
    if chunks == [] {
      NothingToRead(START, parse);
    } else {
      var before := chunks[..|chunks| - 1];
      ChunkingIrrelevant(before, parse);
      RunExtends(START, Concat(before), chunks[|chunks| - 1], parse);
    }
  }

  /** After the end marker the chunking shows: a line that follows it in the same chunk is left in the buffer,
      and one that comes in a later chunk is taken in. */
  lemma {:induction false} TrailingLinesDepend(parse: string -> Payload, n: int)
    requires parse("x") == Usage(Some(n), None) && n != 0
    ensures FeedAll(["data: [DONE]\n" + "x\n"], parse).acc.prompt == 0
    ensures FeedAll(["data: [DONE]\n", "x\n"], parse).acc.prompt == n
  {
    hide Find, OccursAt, Run;
    var a, b := "data: [DONE]\n", "x\n";
    assert Data("data: [DONE]") == "[DONE]";
    OneLine(START, "data: [DONE]", "", parse);
    OneLine(START, "data: [DONE]", b, parse);
    assert "data: [DONE]" + NL + "" == a && "data: [DONE]" + NL + b == a + b;
    var done := Absorb(START, Done);
    assert Data("x") == "x";
    OneLine(done, "x", "", parse);
    assert "x" + NL + "" == b;
    NothingToRead(Absorb(done, Json(Usage(Some(n), None))), parse);
    FedTwo(a, b, parse);
    FedAppended([], a + b, parse);
    assert "" + b == b && "" + (a + b) == a + b && [] + [a + b] == [a + b];
  }

  lemma {:induction false} RestIsSuffix(acc: Acc, bytes: string, parse: string -> Payload)
    ensures var n := Run(acc, bytes, parse); |n.rest| <= |bytes| && n.rest == bytes[|bytes| - |n.rest|..]
    decreases |bytes|
  {
    hide Find, OccursAt, Read, Absorb;
    var end := Find(bytes, NL, 0);
    if end.Some? {
      OccursFits(bytes, NL, end.value);
      var rest, m := bytes[end.value + 1..], Read(bytes[..end.value], parse);
      RestIsSuffix(acc, rest, parse);
      RestIsSuffix(Absorb(acc, m), rest, parse);
    }
  }

  lemma {:induction false} RunStep(acc: Acc, bytes: string, parse: string -> Payload, at: nat)
    requires Find(bytes, NL, 0) == Some(at) && at < |bytes|
    ensures var rest, m := bytes[at + 1..], Read(bytes[..at], parse);
      Run(acc, bytes, parse) ==
        if Skipped(bytes[..at]) then Run(acc, rest, parse)
        else if m.Done? then Reading(Absorb(acc, m), rest, true)
        else Run(Absorb(acc, m), rest, parse)
  {
    hide Find, OccursAt, Read, Absorb;
  }

  lemma DoneHasLine(acc: Acc, bytes: string, parse: string -> Payload)
    requires Run(acc, bytes, parse).done
    ensures Find(bytes, NL, 0).Some?
  {}

  /** The bytes up to the end marker are consumed to the same result on their own. */
  lemma {:induction false} RestShrinks(acc: Acc, bytes: string, parse: string -> Payload)
    requires Run(acc, bytes, parse).done
    ensures var n := Run(acc, bytes, parse);
      |n.rest| <= |bytes| && Run(acc, bytes[..|bytes| - |n.rest|], parse) == n.(rest := "")
    decreases |bytes|
  {
    hide Run, Find, OccursAt, Read, Absorb, Skipped;
    DoneHasLine(acc, bytes, parse);
    var at := Find(bytes, NL, 0).value;
    OccursFits(bytes, NL, at);
    var line, rest := bytes[..at], bytes[at + 1..];
    var m := Read(line, parse);
    RunStep(acc, bytes, parse, at);
    var next := if Skipped(line) then acc else Absorb(acc, m);
    RestIsSuffix(next, rest, parse);
    var n := Run(acc, bytes, parse);
    assert |n.rest| <= |rest|;
    var cut := |bytes| - |n.rest|;
    CutKeepsLine(bytes, cut);
    RunStep(acc, bytes[..cut], parse, at);
    assert bytes[..cut][at + 1..] == rest[..|rest| - |n.rest|] && bytes[..cut][..at] == line;
    if Skipped(line) || !m.Done? { RestShrinks(next, rest, parse); }
  }

  lemma {:induction false} CutKeepsLine(bytes: string, cut: nat)
    requires cut <= |bytes| && Find(bytes, NL, 0).Some? && Find(bytes, NL, 0).value + 1 <= cut
    ensures Find(bytes[..cut], NL, 0) == Find(bytes, NL, 0)
  {
    var at := Find(bytes, NL, 0).value;
    assert bytes[..cut] + bytes[cut..] == bytes;
    forall k | 0 <= k <= at ensures OccursAt(bytes[..cut], NL, k) <==> OccursAt(bytes, NL, k) {
      Extend(bytes[..cut], bytes[cut..], NL, k);
    }
    FindIs(bytes[..cut], NL, 0, at);
  }

  /** Consuming up to an end marker leaves fewer bytes. */
  lemma {:induction false} DoneShrinks(acc: Acc, bytes: string, parse: string -> Payload)
    requires Run(acc, bytes, parse).done
    ensures |Run(acc, bytes, parse).rest| < |bytes|
    decreases |bytes|
  {
    hide Run, Find, OccursAt, Read, Absorb, Skipped;
    DoneHasLine(acc, bytes, parse);
    var at := Find(bytes, NL, 0).value;
    OccursFits(bytes, NL, at);
    RunStep(acc, bytes, parse, at);
    var line, rest := bytes[..at], bytes[at + 1..];
    RestIsSuffix(if Skipped(line) then acc else Absorb(acc, Read(line, parse)), rest, parse);
  }

  /** Where reading can stand once an end marker has left r: there, or having consumed further, up to any later end
      marker or to the last complete line. */
  ghost predicate Reachable(r: Reading, f: Reading, parse: string -> Payload)
    decreases |r.rest|
  {
    || (f.acc == r.acc && f.rest == r.rest)
    || (var n := Run(r.acc, r.rest, parse);
        if n.done then DoneShrinks(r.acc, r.rest, parse); Reachable(n, f, parse)
          else f.acc == n.acc && f.rest == n.rest)
  }

  lemma {:induction false} ReachableIs(r: Reading, f: Reading, parse: string -> Payload)
    ensures var n := Run(r.acc, r.rest, parse);
      Reachable(r, f, parse) <==>
        || (f.acc == r.acc && f.rest == r.rest)
        || (n.done && Reachable(n, f, parse))
        || (!n.done && f.acc == n.acc && f.rest == n.rest)
  {
    hide Run;
  }

  /** One more chunk keeps reading within what is reachable. */
  lemma {:induction false} ReachOn(r: Reading, f: Reading, chunk: string, parse: string -> Payload)
    requires Reachable(r, f, parse)
    ensures Reachable(r.(rest := r.rest + chunk), Feed(f, chunk, parse), parse)
    decreases |r.rest|
  {
    hide Run, Reachable;
    var n, r', f' := Run(r.acc, r.rest, parse), r.(rest := r.rest + chunk), Feed(f, chunk, parse);
    var n' := Run(r.acc, r.rest + chunk, parse);
    RunExtends(r.acc, r.rest, chunk, parse);
    ReachableIs(r, f, parse);
    ReachableIs(r', f', parse);
    if f.acc == r.acc && f.rest == r.rest {
      ReachableIs(n', f', parse);
    } else if n.done {
      DoneShrinks(r.acc, r.rest, parse);
      ReachOn(n, f, chunk, parse);
    } else {
      ReachableIs(n', f', parse);
    }
  }

  /** However a stream is cut, after its first end marker it stands somewhere reachable. */
  lemma {:induction false} StandsReachable(chunks: seq<string>, parse: string -> Payload)
    requires Run(START, Concat(chunks), parse).done
    ensures Reachable(Run(START, Concat(chunks), parse), FeedAll(chunks, parse), parse)
    decreases |chunks|
  {
    hide Run, Reachable;
    if chunks == [] {
      NothingToRead(START, parse);
    } else {
      var before, chunk := chunks[..|chunks| - 1], chunks[|chunks| - 1];
      var was, r := Run(START, Concat(before), parse), Run(START, Concat(chunks), parse);
      ChunkingIrrelevant(before, parse);
      RunExtends(START, Concat(before), chunk, parse);
      if was.done {
        StandsReachable(before, parse);
        ReachOn(was, FeedAll(before, parse), chunk, parse);
      } else {
        ReachableIs(r, FeedAll(chunks, parse), parse);
      }
    }
  }

  /** Consuming what is left changes nothing, at every further end marker and at the end. */
  ghost predicate TailInert(r: Reading, parse: string -> Payload)
    decreases |r.rest|
  {
    var n := Run(r.acc, r.rest, parse);
    n.acc == r.acc && (if n.done then DoneShrinks(r.acc, r.rest, parse); TailInert(n, parse) else true)
  }

  lemma {:induction false} TailInertIs(r: Reading, parse: string -> Payload)
    ensures var n := Run(r.acc, r.rest, parse);
      TailInert(r, parse) <==> n.acc == r.acc && (n.done ==> TailInert(n, parse))
  {
    hide Run;
  }

  lemma {:induction false} InertStays(r: Reading, f: Reading, parse: string -> Payload)
    requires TailInert(r, parse) && Reachable(r, f, parse)
    ensures f.acc == r.acc
    decreases |r.rest|
  {
    hide Run, TailInert, Reachable;
    TailInertIs(r, parse);
    ReachableIs(r, f, parse);
    var n := Run(r.acc, r.rest, parse);
    if n.done && Reachable(n, f, parse) {
      DoneShrinks(r.acc, r.rest, parse);
      InertStays(n, f, parse);
    }
  }

  /** `cut` has been fed, consumed what r has consumed, and left nothing unread. */
  ghost predicate FedUpTo(cut: seq<string>, r: Reading, parse: string -> Payload) {
    FeedAll(cut, parse).acc == r.acc && FeedAll(cut, parse).rest == ""
  }

  lemma {:induction false} FeedRest(cut: seq<string>, r: Reading, parse: string -> Payload)
    requires FedUpTo(cut, r, parse)
    ensures FeedAll(cut + [r.rest], parse).acc == Run(r.acc, r.rest, parse).acc
    ensures Concat(cut + [r.rest]) == Concat(cut) + r.rest
  {
    hide Run, FeedAll, Concat;
    FedAppended(cut, r.rest, parse);
    ConcatSnoc(cut, r.rest);
    assert "" + r.rest == r.rest;
  }

  /** The bytes up to the next end marker, as one more chunk. */
  lemma {:induction false} FeedToMarker(cut: seq<string>, r: Reading, parse: string -> Payload) returns (head: string)
    requires FedUpTo(cut, r, parse) && Run(r.acc, r.rest, parse).done
    ensures var n := Run(r.acc, r.rest, parse);
      FedUpTo(cut + [head], n, parse) && Concat(cut + [head]) + n.rest == Concat(cut) + r.rest
  {
    hide Run, FeedAll, Concat;
    var n := Run(r.acc, r.rest, parse);
    RestIsSuffix(r.acc, r.rest, parse);
    RestShrinks(r.acc, r.rest, parse);
    head := r.rest[..|r.rest| - |n.rest|];
    assert head + n.rest == r.rest && "" + head == head;
    FedAppended(cut, head, parse);
    ConcatSnoc(cut, head);
    Associate(Concat(cut), head, n.rest);
  }

  /** If the tail is not inert, chunks that end at each marker show it. */
  lemma {:induction false} TailShows(
    cut: seq<string>, r: Reading, parse: string -> Payload) returns (chunks: seq<string>)
    requires !TailInert(r, parse) && FedUpTo(cut, r, parse)
    ensures Concat(chunks) == Concat(cut) + r.rest && FeedAll(chunks, parse).acc != r.acc
    decreases |r.rest|
  {
    hide Run, TailInert, Concat, FeedAll, FedUpTo;
    TailInertIs(r, parse);
    var n := Run(r.acc, r.rest, parse);
    if n.acc != r.acc {
      FeedRest(cut, r, parse);
      chunks := cut + [r.rest];
    } else {
      DoneShrinks(r.acc, r.rest, parse);
      var head := FeedToMarker(cut, r, parse);
      chunks := TailShows(cut + [head], n, parse);
    }
  }

  /** When a stream has an end marker, every chunking ends with what was assembled at the first one if and only if
      consuming what follows would change nothing, up to each further marker and at the end. */
  lemma {:induction false} TailDecides(bytes: string, parse: string -> Payload)
    requires Run(START, bytes, parse).done
    ensures var r := Run(START, bytes, parse);
      (forall chunks :: Concat(chunks) == bytes ==> FeedAll(chunks, parse).acc == r.acc) <==> TailInert(r, parse)
  {
    hide Run, FeedAll, Concat, TailInert, Reachable;
    var r := Run(START, bytes, parse);
    if TailInert(r, parse) {
      forall chunks | Concat(chunks) == bytes ensures FeedAll(chunks, parse).acc == r.acc {
        StandsReachable(chunks, parse);
        InertStays(r, FeedAll(chunks, parse), parse);
      }
    } else {
      RestIsSuffix(START, bytes, parse);
      RestShrinks(START, bytes, parse);
      var head := bytes[..|bytes| - |r.rest|];
      FedOne(head, parse);
      var chunks := TailShows([head], r, parse);
      assert head + r.rest == bytes;
    }
  }

  /** With a single end marker that is one comparison. */
  lemma {:induction false} OneMarkerDecides(bytes: string, parse: string -> Payload)
    requires var r := Run(START, bytes, parse);
      r.done && !Run(r.acc, r.rest, parse).done
    ensures var r := Run(START, bytes, parse);
      (forall chunks :: Concat(chunks) == bytes ==> FeedAll(chunks, parse).acc == r.acc)
        <==> Run(r.acc, r.rest, parse).acc == r.acc
  {
    hide Run, FeedAll, Concat, TailInert;
    TailDecides(bytes, parse);
    TailInertIs(Run(START, bytes, parse), parse);
  }

  lemma {:induction false} FedOne(a: string, parse: string -> Payload)
    ensures FeedAll([a], parse).acc == Run(START, a, parse).acc && FeedAll([a], parse).rest == Run(START, a, parse).rest
    ensures Concat([a]) == a
  {
    hide Run;
    FedAppended([], a, parse);
    ConcatSnoc([], a);
    assert [] + [a] == [a] && "" + a == a;
  }

  lemma {:induction false} FedTwo(a: string, b: string, parse: string -> Payload)
    ensures FeedAll([a, b], parse) == Feed(Run(START, a, parse), b, parse)
  {
    hide Run;
    FedAppended([a], b, parse);
    FedAppended([], a, parse);
    assert [a] + [b] == [a, b] && [] + [a] == [a] && "" + a == a;
  }

  lemma {:induction false} OneLine(acc: Acc, line: string, rest: string, parse: string -> Payload)
    requires '\n' !in line && !Skipped(line)
    ensures var m := Read(line, parse);
      Run(acc, line + NL + rest, parse) == if m.Done? then Reading(Absorb(acc, m), rest, true)
        else Run(Absorb(acc, m), rest, parse)
  {
    hide Find, Read, Absorb;
    var t := line + NL + rest;
    assert t[|line|..|line| + 1] == NL;
    forall k | 0 <= k < |line| ensures !OccursAt(t, NL, k) {
      assert t[k] == line[k];
      Mismatch(t, NL, k, 0);
    }
    FindIs(t, NL, 0, |line|);
    assert t[..|line|] == line && t[|line| + 1..] == rest;
  }

  // ---------- the whole reply ----------

  /** The deltas of the lines up to the first end marker. */
  function DeltasOf(bytes: string, parse: string -> Payload): seq<Delta>
    decreases |bytes|
  {
    var end := Find(bytes, NL, 0);
    if end == None then []
    else
      var line, rest := bytes[..end.value], bytes[end.value + 1..];
      if Skipped(line) then DeltasOf(rest, parse)
      else
        match Read(line, parse)
        case Done => []
        case Json(Chunk(d)) => [d] + DeltasOf(rest, parse)
        case _ => DeltasOf(rest, parse)
  }

  function CallsIn(deltas: seq<Delta>): seq<CallDelta> {
    if deltas == [] then [] else CallsIn(deltas[..|deltas| - 1]) + deltas[|deltas| - 1].calls
  }

  lemma {:induction false} CallsAppend(slots: seq<Slot>, a: seq<CallDelta>, b: seq<CallDelta>)
    ensures AbsorbCalls(slots, a + b) == AbsorbCalls(AbsorbCalls(slots, a), b)
    decreases |b|
  {
    hide AbsorbCall;
    if b == [] {
      assert a + b == a;
    } else {
      CallsAppend(slots, a, b[..|b| - 1]);
      assert (a + b)[..|a + b| - 1] == a + b[..|b| - 1];
    }
  }

  /** The accumulator after some deltas. */
  ghost predicate Holds(acc: Acc, deltas: seq<Delta>, closed: bool) {
    && acc.content == (if closed then Closed(ContentAfter(deltas)) else ContentAfter(deltas))
    && acc.slots == AbsorbCalls([], CallsIn(deltas))
  }

  lemma {:induction false} AbsorbHolds(acc: Acc, m: Message, deltas: seq<Delta>)
    requires Holds(acc, deltas, false)
    ensures match m
      case Done => Holds(Absorb(acc, m), deltas, true)
      case Json(Chunk(d)) => Holds(Absorb(acc, m), deltas + [d], false)
      case _ => Holds(Absorb(acc, m), deltas, false)
  {
    hide Closed, WithContent, WithReasoning, CallsOf;
    match m
    case Json(Chunk(d)) =>
      assert (deltas + [d])[..|deltas|] == deltas;
      CallsAppend([], CallsIn(deltas), d.calls);
    case _ =>
  }

  lemma {:induction false} RunHolds(acc: Acc, bytes: string, parse: string -> Payload, deltas: seq<Delta>)
    requires Holds(acc, deltas, false)
    ensures var r := Run(acc, bytes, parse);
      Holds(r.acc, deltas + DeltasOf(bytes, parse), r.done)
    decreases |bytes|
  {
    hide Find, OccursAt, Read, Absorb, Holds;
    assert deltas + [] == deltas;
    var end := Find(bytes, NL, 0);
    if end.Some? {
      OccursFits(bytes, NL, end.value);
      var line, rest := bytes[..end.value], bytes[end.value + 1..];
      if Skipped(line) {
        RunHolds(acc, rest, parse, deltas);
      } else {
        var m := Read(line, parse);
        AbsorbHolds(acc, m, deltas);
        match m
        case Done =>
        case Json(Chunk(d)) =>
          RunHolds(Absorb(acc, m), rest, parse, deltas + [d]);
          assert deltas + [d] + DeltasOf(rest, parse) == deltas + ([d] + DeltasOf(rest, parse));
        case _ =>
          RunHolds(Absorb(acc, m), rest, parse, deltas);
      }
    }
  }

  /** End to end: whatever the chunking, filtering what was assembled up to the end marker, or so far if there is
      none, gives exactly the content fields of the stream, and each call is made of its own fragments. */
  lemma {:induction false} WholeReply(chunks: seq<string>, parse: string -> Payload, j: nat)
    requires TagFree(DeltasOf(Concat(chunks), parse))
    ensures var deltas := DeltasOf(Concat(chunks), parse);
      var acc := if AtFirstDone(chunks, parse).Some? then AtFirstDone(chunks, parse).value
        else FeedAll(chunks, parse).acc;
      && Filtered(acc.content) == Said(deltas)
      && (j < |acc.slots| ==> MadeOf(acc.slots[j], Only(CallsIn(deltas), j)))
      && (j >= |acc.slots| ==> Only(CallsIn(deltas), j) == [])
  {
    hide Filtered, Said, ContentAfter, Closed, MadeOf, Only, Run, DeltasOf, CallsIn, AbsorbCalls, FeedAll,
         AtFirstDone, Concat;
    var bytes := Concat(chunks);
    var deltas := DeltasOf(bytes, parse);
    ChunkingIrrelevant(chunks, parse);
    StartHolds();
    RunHolds(START, bytes, parse, []);
    assert [] + deltas == deltas;
    StripUndoesWrap(deltas);
    OwnFragments(CallsIn(deltas), j);
  }

  lemma StartHolds()
    ensures Holds(START, [], false)
  {}
}
