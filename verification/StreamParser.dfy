/** Assembling a streamed completion: reasoning is wrapped in think tags as it arrives, and each tool call is
    put together from its fragments. */
module StreamParser {
  import opened DialogueTypes
  import opened Text
  import opened ResponseFilter

  /** The "function" object of a tool call, or of a fragment of one. */
  datatype FunctionPart = FunctionPart(name: Option<string>, arguments: Option<string>)

  datatype Slot = Slot(id: Option<string>, kind: Option<string>, fn: Option<FunctionPart>)

  datatype CallDelta = CallDelta(index: Option<nat>, part: Slot)

  /** One delta object; None stands for a field that is absent or null. */
  datatype Delta = Delta(reasoning: Option<string>, content: Option<string>, calls: seq<CallDelta>)

  datatype Payload =
    | Malformed
    | Usage(prompt: Option<int>, completion: Option<int>)
    | NoDelta
    | Chunk(delta: Delta)

  datatype Message = Blank | Done | Json(payload: Payload)

  datatype CandidateKind = ContinueKind | ResponseKind | ToolCallKind

  /** A call without an id is given a generated one. */
  datatype Call = Call(id: Option<string>, name: string, arguments: string)

  datatype StreamCandidate = StreamCandidate(kind: CandidateKind, text: string, calls: seq<Call>)

  datatype Acc = Acc(content: string, slots: seq<Slot>, prompt: int, completion: int, candidate: StreamCandidate)

  const EMPTY_SLOT := Slot(None, None, None)
  const START := Acc("", [], 0, 0, StreamCandidate(ContinueKind, "", []))

  // ---------- reading a line ----------

  function Trim(data: string): string {
    if data != "" && (data[|data| - 1] == '\n' || data[|data| - 1] == '\r' || data[|data| - 1] == ' ')
    then Trim(data[..|data| - 1]) else data
  }

  function Data(line: string): string {
    Trim(if "data: " <= line then line[6..] else line)
  }

  function Read(line: string, parse: string -> Payload): Message {
    var data := Data(line);
    if data == "" then Blank else if data == "[DONE]" then Done else Json(parse(data))
  }

  // ---------- think tags ----------

  /** The last position of pat in t that is below `bound`. */
  function RFindBelow(t: string, pat: string, bound: nat): (r: Option<nat>)
    ensures r.Some? ==> r.value < bound && OccursAt(t, pat, r.value)
    ensures r.Some? ==> forall k :: r.value < k < bound ==> !OccursAt(t, pat, k)
    ensures r.None? ==> forall k :: 0 <= k < bound ==> !OccursAt(t, pat, k)
  {
    if bound == 0 then None else if OccursAt(t, pat, bound - 1) then Some(bound - 1) else RFindBelow(t, pat, bound - 1)
  }

  function RFind(t: string, pat: string): Option<nat> {
    RFindBelow(t, pat, |t| + 1)
  }

  /** The last opening tag has no closing tag after it. */
  predicate InThink(t: string) {
    var open, close := RFind(t, OPEN), RFind(t, CLOSE);
    open.Some? && (close.None? || close.value < open.value)
  }

  predicate NeedOpen(t: string) {
    var open, close := RFind(t, OPEN), RFind(t, CLOSE);
    open.None? || (close.Some? && close.value > open.value)
  }

  function Closed(content: string): string {
    if content != "" && InThink(content) then content + CLOSE else content
  }

  function WithReasoning(content: string, reasoning: Option<string>): string {
    if reasoning.None? || reasoning.value == "" then content
    else content + (if NeedOpen(content) then OPEN else "") + reasoning.value
  }

  function WithContent(content: string, delta: Option<string>): string {
    if delta.None? || delta.value == "" then content else Closed(content) + delta.value
  }

  // ---------- tool calls ----------

  function IndexOf(c: CallDelta): nat {
    if c.index.Some? then c.index.value else 0
  }

  function Later(was: Option<string>, now: Option<string>): Option<string> {
    if now.Some? then now else was
  }

  function Joined(was: Option<string>, more: Option<string>): Option<string> {
    if more.None? then was else Some((if was.Some? then was.value else "") + more.value)
  }

  function MergeFunction(was: Option<FunctionPart>, more: Option<FunctionPart>): Option<FunctionPart> {
    if more.None? then was
    else
      var f := if was.Some? then was.value else FunctionPart(None, None);
      Some(FunctionPart(Joined(f.name, more.value.name), Joined(f.arguments, more.value.arguments)))
  }

  function MergeSlot(s: Slot, part: Slot): Slot {
    Slot(Later(s.id, part.id), Later(s.kind, part.kind), MergeFunction(s.fn, part.fn))
  }

  function Padded(slots: seq<Slot>, index: nat): (r: seq<Slot>)
    ensures |r| == if |slots| > index then |slots| else index + 1
    ensures slots <= r && forall k :: |slots| <= k < |r| ==> r[k] == EMPTY_SLOT
    decreases index + 1 - |slots|
  {
    if |slots| > index then slots else Padded(slots + [EMPTY_SLOT], index)
  }

  function AbsorbCall(slots: seq<Slot>, c: CallDelta): seq<Slot> {
    var index := IndexOf(c);
    var padded := Padded(slots, index);
    padded[index := MergeSlot(padded[index], c.part)]
  }

  function AbsorbCalls(slots: seq<Slot>, calls: seq<CallDelta>): seq<Slot> {
    if calls == [] then slots else AbsorbCall(AbsorbCalls(slots, calls[..|calls| - 1]), calls[|calls| - 1])
  }

  function CallOf(s: Slot): Call {
    Call(
      if s.id.Some? && s.id.value != "" then s.id else None,
      if s.fn.Some? && s.fn.value.name.Some? then s.fn.value.name.value else "",
      if s.fn.Some? && s.fn.value.arguments.Some? then s.fn.value.arguments.value else "")
  }

  function CallsOf(slots: seq<Slot>): seq<Call> {
    if slots == [] then []
    else
      var rest, last := slots[..|slots| - 1], slots[|slots| - 1];
      CallsOf(rest) + if last == EMPTY_SLOT then [] else [CallOf(last)]
  }

  /** The candidate built when the stream ends; calls are added to whatever an earlier end left. */
  function Built(acc: Acc): Acc {
    if acc.slots != [] && acc.slots[0] != EMPTY_SLOT then
      acc.(candidate := acc.candidate.(kind := ToolCallKind, calls := acc.candidate.calls + CallsOf(acc.slots)))
    else if acc.content != "" then
      acc.(candidate := acc.candidate.(kind := ResponseKind, text := acc.content))
    else
      acc.(candidate := acc.candidate.(kind := ContinueKind))
  }

  function Absorb(acc: Acc, m: Message): Acc {
    match m
    case Blank => acc
    case Done => Built(acc.(content := Closed(acc.content)))
    case Json(Malformed) => acc
    case Json(Usage(p, c)) =>
      acc.(prompt := if p.Some? then p.value else acc.prompt, completion := if c.Some? then c.value else acc.completion)
    case Json(NoDelta) => acc
    case Json(Chunk(d)) =>
      acc.(content := WithContent(WithReasoning(acc.content, d.reasoning), d.content),
           slots := AbsorbCalls(acc.slots, d.calls))
  }

  class StreamAccumulator {
    var content: string
    var slots: seq<Slot>
    var prompt: int
    var completion: int
    var candidate: StreamCandidate

    constructor ()
      ensures Snapshot() == START
    {
      content, slots, prompt, completion, candidate := "", [], 0, 0, StreamCandidate(ContinueKind, "", []);
    }

    function Snapshot(): Acc
      reads this
    {
      Acc(content, slots, prompt, completion, candidate)
    }

    method AddCalls(calls: seq<CallDelta>)
      modifies this`slots
      ensures slots == AbsorbCalls(old(slots), calls)
    {
      hide MergeSlot;
      for i := 0 to |calls|
        invariant slots == AbsorbCalls(old(slots), calls[..i])
      {
        var index := IndexOf(calls[i]);
        ghost var was := slots;
        while |slots| <= index
          invariant Padded(slots, index) == Padded(was, index)
        {
          slots := slots + [EMPTY_SLOT];
        }
        slots := slots[index := MergeSlot(slots[index], calls[i].part)];
        assert calls[..i + 1][..i] == calls[..i];
      }
      assert calls[..|calls|] == calls;
    }

    method Build()
      modifies this`candidate
      ensures Snapshot() == Built(old(Snapshot()))
    {
      hide CallOf;
      if slots != [] && slots[0] != EMPTY_SLOT {
        candidate := candidate.(kind := ToolCallKind);
        ghost var was := candidate.calls;
        for i := 0 to |slots|
          invariant candidate == old(candidate).(kind := ToolCallKind, calls := was + CallsOf(slots[..i]))
        {
          assert slots[..i + 1][..i] == slots[..i];
          if slots[i] != EMPTY_SLOT {
            candidate := candidate.(calls := candidate.calls + [CallOf(slots[i])]);
          }
        }
        assert slots[..|slots|] == slots;
      } else if content != "" {
        candidate := candidate.(kind := ResponseKind, text := content);
      } else {
        candidate := candidate.(kind := ContinueKind);
      }
    }

    /** Take in one line; `used` is false for a blank or malformed line. */
    method ParseStreamChunk(line: string, parse: string -> Payload) returns (used: bool, isDone: bool)
      modifies this
      ensures var m := Read(line, parse);
        && Snapshot() == Absorb(old(Snapshot()), m)
        && isDone == m.Done?
        && used == !(m.Blank? || m == Json(Malformed))
    {
      hide Closed, WithReasoning, WithContent, AbsorbCalls, Built, Data;
      isDone := false;
      var data := Data(line);
      if data == "" { return false, false; }
      if data == "[DONE]" {
        content := Closed(content);
        Build();
        return true, true;
      }
      match parse(data)
      case Malformed =>
        return false, false;
      case Usage(p, c) =>
        if p.Some? { prompt := p.value; }
        if c.Some? { completion := c.value; }
        return true, false;
      case NoDelta =>
        return true, false;
      case Chunk(d) =>
        content := WithReasoning(content, d.reasoning);
        content := WithContent(content, d.content);
        AddCalls(d.calls);
        return true, false;
    }
  }
}
