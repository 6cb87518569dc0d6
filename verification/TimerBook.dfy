/** The generation-tagged, lazily cleaned timer heap, and the plain map from id to timer it refines. */
module TimerBooks {
  import opened DialogueTypes

  datatype Timer = Timer(kind: TimerKind, deadline: int)

  datatype TimerEntry = TimerEntry(kind: TimerKind, id: string, generation: nat, deadline: int)

  type Timers = map<string, Timer>

  /** The timers still pending once everything due at `now` is gone. */
  function Remaining(m: Timers, now: int): Timers {
    map id | id in m && m[id].deadline > now :: m[id]
  }

  /** `fired` lists exactly the timers of m that are due, each once, in non-decreasing deadline order. */
  ghost predicate Fired(m: Timers, now: int, fired: seq<TimerEntry>) {
    && (forall e :: e in fired ==> e.id in m && m[e.id] == Timer(e.kind, e.deadline) && e.deadline <= now)
    && (forall id :: id in m && m[id].deadline <= now ==> exists k :: 0 <= k < |fired| && fired[k].id == id)
    && (forall i, j :: 0 <= i < j < |fired| ==> fired[i].id != fired[j].id && fired[i].deadline <= fired[j].deadline)
  }

  /** d is the smallest deadline of m. */
  ghost predicate Earliest(m: Timers, d: int) {
    && (exists id :: id in m && m[id].deadline == d)
    && (forall id :: id in m ==> d <= m[id].deadline)
  }

  /** Mid-harvest: m is what is left of m0 after firing `fired`. */
  ghost predicate Harvesting(m0: Timers, m: Timers, now: int, fired: seq<TimerEntry>) {
    && (forall e :: e in fired ==>
          e.id in m0 && m0[e.id] == Timer(e.kind, e.deadline) && e.deadline <= now && e.id !in m)
    && (forall i, j :: 0 <= i < j < |fired| ==> fired[i].id != fired[j].id && fired[i].deadline <= fired[j].deadline)
    && (forall id :: id in m ==> id in m0 && m[id] == m0[id])
    && (forall id :: id in m0 && id !in m ==> exists k :: 0 <= k < |fired| && fired[k].id == id)
  }

  lemma HarvestOne(m0: Timers, m: Timers, now: int, fired: seq<TimerEntry>, top: TimerEntry)
    requires Harvesting(m0, m, now, fired)
    requires top.id in m && m[top.id] == Timer(top.kind, top.deadline) && top.deadline <= now
    requires forall e :: e in fired ==> e.deadline <= top.deadline
    ensures Harvesting(m0, m - {top.id}, now, fired + [top])
  {
    var more := fired + [top];
    forall id | id in m0 && id !in m - {top.id} ensures exists k :: 0 <= k < |more| && more[k].id == id {
      if id == top.id { assert more[|fired|].id == id; }
      else {
        var k :| 0 <= k < |fired| && fired[k].id == id;
        assert more[k].id == id;
      }
    }
    forall i | 0 <= i < |fired| ensures fired[i].id != top.id { assert fired[i] in fired; }
  }

  lemma HarvestDone(m0: Timers, m: Timers, now: int, fired: seq<TimerEntry>)
    requires Harvesting(m0, m, now, fired)
    requires forall id :: id in m ==> m[id].deadline > now
    ensures m == Remaining(m0, now) && Fired(m0, now, fired)
  {
    forall k | 0 <= k < |fired| ensures m0[fired[k].id].deadline <= now {
      assert fired[k] in fired;
    }
  }

  datatype TimerOp =
    | Schedule(kind: TimerKind, id: string, deadline: int)
    | Cancel(id: string)
    | PopExpired(now: int)
    | Peek

  function Step(m: Timers, op: TimerOp): Timers {
    match op
    case Schedule(kind, id, deadline) => m[id := Timer(kind, deadline)]
    case Cancel(id) => m - {id}
    case PopExpired(now) => Remaining(m, now)
    case Peek => m
  }

  function Steps(m: Timers, ops: seq<TimerOp>): Timers {
    if ops == [] then m else Step(Steps(m, ops[..|ops| - 1]), ops[|ops| - 1])
  }

  /** No two entries carry the same id and generation. */
  ghost predicate Distinct(heap: seq<TimerEntry>) {
    forall i, j :: 0 <= i < j < |heap| ==> heap[i].id != heap[j].id || heap[i].generation != heap[j].generation
  }

  function RemoveAt(heap: seq<TimerEntry>, k: nat): seq<TimerEntry>
    requires k < |heap|
  {
    heap[..k] + heap[k + 1..]
  }

  lemma RemoveAtKeeps(heap: seq<TimerEntry>, k: nat)
    requires k < |heap| && Distinct(heap)
    ensures Distinct(RemoveAt(heap, k))
    ensures forall e :: e in RemoveAt(heap, k) <==> e in heap && e != heap[k]
    ensures forall e :: e in RemoveAt(heap, k) ==> e.id != heap[k].id || e.generation != heap[k].generation
  {
    var rest := RemoveAt(heap, k);
    forall i | 0 <= i < |rest| ensures rest[i] == heap[if i < k then i else i + 1] {}
    forall i | 0 <= i < |heap| && i != k ensures heap[i] in rest {
      assert heap[i] == rest[if i < k then i else i - 1];
    }
  }

  /** The entry carries its id's latest generation. */
  predicate Current(generations: map<string, nat>, e: TimerEntry) {
    e.id in generations && generations[e.id] == e.generation
  }

  /** The current entries are exactly the pending timers, at most one per id. */
  ghost predicate Represents(heap: seq<TimerEntry>, generations: map<string, nat>, m: Timers) {
    && (forall e :: e in heap ==> e.id in generations && e.generation <= generations[e.id])
    && Distinct(heap)
    && (forall e :: e in heap && Current(generations, e) ==> e.id in m && m[e.id] == Timer(e.kind, e.deadline))
    && (forall id :: id in m ==> exists e :: e in heap && e.id == id && Current(generations, e))
  }

  lemma RemovalRepresents(heap: seq<TimerEntry>, generations: map<string, nat>, m: Timers, k: nat)
    requires Represents(heap, generations, m) && k < |heap|
    ensures Represents(RemoveAt(heap, k), generations, if Current(generations, heap[k]) then m - {heap[k].id} else m)
  {
    RemoveAtKeeps(heap, k);
    hide RemoveAt;
    var rest, left := RemoveAt(heap, k), if Current(generations, heap[k]) then m - {heap[k].id} else m;
    forall id | id in left ensures exists e :: e in rest && e.id == id && Current(generations, e) {
      var e :| e in heap && e.id == id && Current(generations, e);
      assert e in rest;
    }
  }

  function NextGeneration(generations: map<string, nat>, id: string): nat {
    (if id in generations then generations[id] else 0) + 1
  }

  /** Raising an id's generation makes its entries stale. */
  lemma BumpRepresents(heap: seq<TimerEntry>, generations: map<string, nat>, m: Timers, id: string)
    requires Represents(heap, generations, m)
    ensures var next := NextGeneration(generations, id);
      && Represents(heap, generations[id := next], m - {id})
      && forall e :: e in heap && e.id == id ==> e.generation < next
  {
    var raised := generations[id := NextGeneration(generations, id)];
    forall x | x in m - {id} ensures exists e :: e in heap && e.id == x && Current(raised, e) {
      var e :| e in heap && e.id == x && Current(generations, e);
      assert Current(raised, e);
    }
  }

  lemma PushRepresents(heap: seq<TimerEntry>, generations: map<string, nat>, m: Timers, entry: TimerEntry)
    requires Represents(heap, generations, m) && Current(generations, entry) && entry.id !in m
    requires forall e :: e in heap && e.id == entry.id ==> e.generation < entry.generation
    ensures Represents(heap + [entry], generations, m[entry.id := Timer(entry.kind, entry.deadline)])
  {
    var more := heap + [entry];
    forall x | x in m || x == entry.id ensures exists e :: e in more && e.id == x && Current(generations, e) {
      if x in m {
        var e :| e in heap && e.id == x && Current(generations, e);
        assert e in more;
      } else {
        assert entry in more;
      }
    }
    forall i | 0 <= i < |heap| ensures heap[i].id != entry.id || heap[i].generation != entry.generation {
      assert heap[i] in heap;
    }
  }

  class TimerBook {
    var heap: seq<TimerEntry>
    var generations: map<string, nat>
    ghost var model: Timers

    predicate Live(e: TimerEntry)
      reads this`generations
    {
      Current(generations, e)
    }

    ghost predicate Valid()
      reads this
    {
      Represents(heap, generations, model)
    }

    constructor ()
      ensures Valid() && model == map[]
    {
      heap, generations, model := [], map[], map[];
    }

    method Schedule(kind: TimerKind, id: string, deadline: int)
      requires Valid()
      modifies this
      ensures Valid() && model == old(model)[id := Timer(kind, deadline)]
    {
      hide Represents;
      var gen := NextGeneration(generations, id);
      BumpRepresents(heap, generations, model, id);
      generations := generations[id := gen];
      var entry := TimerEntry(kind, id, gen, deadline);
      PushRepresents(heap, generations, model - {id}, entry);
      heap := heap + [entry];
      model := model[id := Timer(kind, deadline)];
      assert model == (old(model) - {id})[id := Timer(kind, deadline)];
    }

    method Cancel(id: string)
      requires Valid()
      modifies this
      ensures Valid() && model == old(model) - {id}
    {
      hide Represents;
      BumpRepresents(heap, generations, model, id);
      generations := generations[id := NextGeneration(generations, id)];
      model := model - {id};
    }

    /** An index holding a minimal deadline; which of several is left open. */
    method Top() returns (k: nat)
      requires heap != []
      ensures k < |heap|
      ensures forall e :: e in heap ==> heap[k].deadline <= e.deadline
    {
      k := 0;
      for i := 1 to |heap|
        invariant k < |heap|
        invariant forall j :: 0 <= j < i ==> heap[k].deadline <= heap[j].deadline
      {
        if heap[i].deadline < heap[k].deadline { k := i; }
      }
    }

    /** Removes entry k. A live entry takes its timer out of the model; a stale one leaves the model alone. */
    method Pop(k: nat)
      requires Valid() && k < |heap|
      modifies this`heap, this`model
      ensures Valid()
      ensures heap == RemoveAt(old(heap), k)
      ensures model == if old(Live(heap[k])) then old(model) - {old(heap)[k].id} else old(model)
    {
      hide Represents, RemoveAt;
      RemovalRepresents(heap, generations, model, k);
      ghost var gone := heap[k];
      heap := RemoveAt(heap, k);
      if Live(gone) { model := model - {gone.id}; }
    }

    method DiscardStale()
      requires Valid()
      modifies this`heap, this`model
      ensures Valid() && model == old(model)
      ensures heap != [] ==>
        exists k :: 0 <= k < |heap| && Live(heap[k]) && forall e :: e in heap ==> heap[k].deadline <= e.deadline
    {
      while heap != []
        invariant Valid() && model == old(model)
        decreases |heap|
      {
        var k := Top();
        if Live(heap[k]) { break; }
        Pop(k);
      }
    }

    /** The earliest pending deadline, or None when nothing is pending. */
    method NextDeadline() returns (r: Option<int>)
      requires Valid()
      modifies this`heap, this`model
      ensures Valid() && model == old(model)
      ensures r.None? <==> model == map[]
      ensures r.Some? ==> Earliest(model, r.value)
    {
      DiscardStale();
      if heap == [] { return None; }
      var k := Top();
      ghost var m :| 0 <= m < |heap| && Live(heap[m]) && forall e :: e in heap ==> heap[m].deadline <= e.deadline;
      assert heap[m] in heap && heap[k].deadline == heap[m].deadline && heap[m].id in model;
      return Some(heap[k].deadline);
    }

    method Empty() returns (r: bool)
      requires Valid()
      modifies this`heap, this`model
      ensures Valid() && model == old(model)
      ensures r <==> model == map[]
    {
      DiscardStale();
      r := heap == [];
      assert !r ==> exists e :: e in heap && Live(e);
    }

    /** Returns exactly the due timers in deadline order and leaves exactly the others pending. */
    method PopExpired(now: int) returns (fired: seq<TimerEntry>)
      requires Valid()
      modifies this`heap, this`model
      ensures Valid() && model == Remaining(old(model), now)
      ensures Fired(old(model), now, fired)
    {
      fired := [];
      while heap != []
        invariant Valid() && Harvesting(old(model), model, now, fired)
        invariant forall f, e :: f in fired && e in heap ==> f.deadline <= e.deadline
        decreases |heap|
      {
        var k := Top();
        var top := heap[k];
        assert top in heap;
        RemoveAtKeeps(heap, k);
        if !Live(top) {
          Pop(k);
          continue;
        }
        if top.deadline > now { break; }
        HarvestOne(old(model), model, now, fired, top);
        Pop(k);
        fired := fired + [top];
      }
      assert forall id :: id in model ==> exists e :: e in heap && e.id == id && Live(e);
      HarvestDone(old(model), model, now, fired);
    }

    /** Any sequence of operations leaves the book holding what the same operations leave in the map. */
    method Replay(ops: seq<TimerOp>)
      requires Valid()
      modifies this
      ensures Valid() && model == Steps(old(model), ops)
    {
      for i := 0 to |ops|
        invariant Valid() && model == Steps(old(model), ops[..i])
      {
        assert ops[..i + 1][..i] == ops[..i];
        match ops[i]
        case Schedule(kind, id, deadline) => Schedule(kind, id, deadline);
        case Cancel(id) => Cancel(id);
        case PopExpired(now) => var _ := PopExpired(now);
        case Peek => var _ := NextDeadline();
      }
      assert ops[..|ops|] == ops;
    }
  }

  /** The point of the generations: a timer scheduled again after a cancel fires at its new deadline only. */
  lemma RescheduledFiresOnce(
    m: Timers, kind: TimerKind, id: string, first: int, second: int, now: int, fired: seq<TimerEntry>)
    requires var ops := [TimerOp.Schedule(kind, id, first), TimerOp.Cancel(id), TimerOp.Schedule(kind, id, second)];
      Fired(Steps(m, ops), now, fired)
    ensures (exists e :: e in fired && e.id == id) <==> second <= now
    ensures forall e :: e in fired && e.id == id ==> e.deadline == second
  {
    var ops := [TimerOp.Schedule(kind, id, first), TimerOp.Cancel(id), TimerOp.Schedule(kind, id, second)];
    assert Steps(m, ops) == Step(Steps(m, ops[..2]), ops[2]);
    assert Steps(m, ops)[id] == Timer(kind, second);
    if second <= now {
      var k :| 0 <= k < |fired| && fired[k].id == id;
      assert fired[k] in fired;
    }
  }
}
