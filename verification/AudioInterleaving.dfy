/** The ring under concurrency: one thread calling Write, one calling Read, interleaved arbitrarily between
    any two atomic position accesses and any two slot accesses (sequentially consistent). The fields from
    `published` on are history: they record what happened and influence nothing. */
module AudioInterleaving {
  import opened RingArithmetic

  datatype Producer<T> =
    | WriterIdle
    | WriteEntered(data: seq<T>, count: nat)
    | WriteSawWritePos(data: seq<T>, count: nat, wp: nat)
    | WriteSized(data: seq<T>, n: nat)
    | WriteCopying(data: seq<T>, n: nat, wp: nat, i: nat)

  datatype Consumer =
    | ReaderIdle
    | ReadEntered(count: nat)
    | ReadSawWritePos(count: nat, wp: nat, seen: nat)
    | ReadSized(n: nat)
    | ReadCopying(n: nat, rp: nat, i: nat)

  datatype Ring<T> = Ring(
    capacity: nat, channels: nat, buffer: seq<T>, readPos: nat, writePos: nat,
    producer: Producer<T>, consumer: Consumer,
    published: nat, released: nat, stored: seq<T>, taken: seq<T>, sent: seq<T>)

  datatype Step<T> =
    | CallWrite(data: seq<T>, count: nat)
    | WriterStep
    | CallRead(count: nat)
    | ReaderStep

  function Min(a: nat, b: nat): nat {
    if a < b then a else b
  }

  ghost predicate RingInv<T>(s: Ring<T>) {
    && s.capacity >= 1 && s.channels >= 1 && |s.buffer| == Samples(s.capacity, s.channels) > 0
    && s.writePos == s.published % s.capacity && s.readPos == s.released % s.capacity
    && s.released <= s.published < s.released + s.capacity
    && (forall e :: Samples(s.released, s.channels) <= e < |s.stored| ==> s.buffer[e % |s.buffer|] == s.stored[e])
    && s.taken <= s.sent <= s.stored
    && |s.sent| == Samples(s.published, s.channels)
  }

  ghost predicate WriterInv<T>(s: Ring<T>) {
    match s.producer
    case WriterIdle => |s.stored| == |s.sent|
    case WriteEntered(data, count) => |s.stored| == |s.sent| && Samples(count, s.channels) <= |data|
    case WriteSawWritePos(data, count, wp) => |s.stored| == |s.sent| && Samples(count, s.channels) <= |data|
      && wp == s.writePos
    case WriteSized(data, n) =>
      |s.stored| == |s.sent| && n >= 1 && Samples(n, s.channels) <= |data| && s.published + n < s.released + s.capacity
    case WriteCopying(data, n, wp, i) =>
      && n >= 1 && Samples(n, s.channels) <= |data| && s.published + n < s.released + s.capacity
      && wp == s.writePos && i <= Samples(n, s.channels) && s.stored == s.sent + data[..i]
  }

  ghost predicate ReaderInv<T>(s: Ring<T>) {
    match s.consumer
    case ReaderIdle => |s.taken| == Samples(s.released, s.channels)
    case ReadEntered(_) => |s.taken| == Samples(s.released, s.channels)
    case ReadSawWritePos(_, wp, seen) =>
      s.capacity >= 1 && |s.taken| == Samples(s.released, s.channels) && s.released <= seen <= s.published
        && wp == seen % s.capacity
    case ReadSized(n) => |s.taken| == Samples(s.released, s.channels) && n >= 1 && s.released + n <= s.published
    case ReadCopying(n, rp, i) =>
      && n >= 1 && s.released + n <= s.published && rp == s.readPos
      && i <= Samples(n, s.channels) && |s.taken| == Samples(s.released, s.channels) + i
  }

  ghost predicate Inv<T>(s: Ring<T>) {
    RingInv(s) && WriterInv(s) && ReaderInv(s)
  }

  /** One atomic action of the thread inside Write. */
  function WriterNext<T>(s: Ring<T>): Ring<T>
    requires Inv(s)
  {
    match s.producer
    case WriterIdle => s
    case WriteEntered(data, count) => s.(producer := WriteSawWritePos(data, count, s.writePos))
    case WriteSawWritePos(data, count, wp) =>
      var room := s.capacity - 1 - Distance(wp, s.readPos, s.capacity);
      var n := if room < 0 then 0 else Min(count, room);
      if n == 0 then s.(producer := WriterIdle) else s.(producer := WriteSized(data, n))
    case WriteSized(data, n) => s.(producer := WriteCopying(data, n, s.writePos, 0))
    case WriteCopying(data, n, wp, i) =>
      if i < Samples(n, s.channels) then
        s.(buffer := s.buffer[(Samples(wp, s.channels) + i) % |s.buffer| := data[i]],
           stored := s.stored + [data[i]], producer := WriteCopying(data, n, wp, i + 1))
      else
        s.(writePos := (wp + n) % s.capacity, producer := WriterIdle,
           published := s.published + n, sent := s.stored)
  }

  /** One atomic action of the thread inside Read. */
  function ReaderNext<T>(s: Ring<T>): Ring<T>
    requires Inv(s)
  {
    match s.consumer
    case ReaderIdle => s
    case ReadEntered(count) => s.(consumer := ReadSawWritePos(count, s.writePos, s.published))
    case ReadSawWritePos(count, wp, _) =>
      var n := Min(count, Distance(wp, s.readPos, s.capacity));
      if n == 0 then s.(consumer := ReaderIdle) else s.(consumer := ReadSized(n))
    case ReadSized(n) => s.(consumer := ReadCopying(n, s.readPos, 0))
    case ReadCopying(n, rp, i) =>
      if i < Samples(n, s.channels) then
        s.(taken := s.taken + [s.buffer[(Samples(rp, s.channels) + i) % |s.buffer|]],
          consumer := ReadCopying(n, rp, i + 1))
      else
        s.(readPos := (rp + n) % s.capacity, consumer := ReaderIdle, released := s.released + n)
  }

  function Next<T>(s: Ring<T>, step: Step<T>): Ring<T>
    requires Inv(s)
  {
    match step
    case CallWrite(data, count) =>
      if s.producer.WriterIdle? && Samples(count, s.channels) <= |data|
        then s.(producer := WriteEntered(data, count)) else s
    case WriterStep => WriterNext(s)
    case CallRead(count) => if s.consumer.ReaderIdle? then s.(consumer := ReadEntered(count)) else s
    case ReaderStep => ReaderNext(s)
  }

  /** The next slot the writer stores to. */
  function WriteSlot<T>(s: Ring<T>): nat
    requires Inv(s) && s.producer.WriteCopying?
  {
    (Samples(s.producer.wp, s.channels) + s.producer.i) % |s.buffer|
  }

  /** The slot the writer stores to next is the slot of the first sample not yet stored, and no sample that is
      stored but not released sits there; so the writer stays off every slot the reader has claimed. */
  lemma WriterStaysOffUnread<T>(s: Ring<T>)
    requires Inv(s) && s.producer.WriteCopying? && s.producer.i < Samples(s.producer.n, s.channels)
    ensures WriteSlot(s) == |s.stored| % |s.buffer|
    ensures forall e :: Samples(s.released, s.channels) <= e < |s.stored| ==> e % |s.buffer| != WriteSlot(s)
  {
    hide Samples;
    var p := s.producer;
    SlotIsAbsolute(s.published, s.capacity, s.channels, p.i);
    SamplesAdd(s.published, p.n, s.channels);
    SamplesAdd(s.released, s.capacity, s.channels);
    SamplesGrow(s.published + p.n, s.released + s.capacity, s.channels);
    forall e | Samples(s.released, s.channels) <= e < |s.stored| ensures e % |s.buffer| != WriteSlot(s) {
      SlotsApart(e, |s.stored|, |s.buffer|);
    }
  }

  /** The reader takes the next unread sample, one that has been published. */
  lemma ReaderTakesPublished<T>(s: Ring<T>)
    requires Inv(s) && s.consumer.ReadCopying? && s.consumer.i < Samples(s.consumer.n, s.channels)
    ensures |s.taken| < |s.sent|
    ensures s.buffer[(Samples(s.consumer.rp, s.channels) + s.consumer.i) % |s.buffer|] == s.sent[|s.taken|]
  {
    hide Samples;
    var c := s.consumer;
    SlotIsAbsolute(s.released, s.capacity, s.channels, c.i);
    SamplesAdd(s.released, c.n, s.channels);
    SamplesGrow(s.released + c.n, s.published, s.channels);
  }

  lemma StoreKeepsInv<T>(s: Ring<T>)
    requires Inv(s) && s.producer.WriteCopying? && s.producer.i < Samples(s.producer.n, s.channels)
    ensures Inv(WriterNext(s))
  {
    hide Samples;
    var p := s.producer;
    WriterStaysOffUnread(s);
    assert p.data[..p.i] + [p.data[p.i]] == p.data[..p.i + 1];
    var t := WriterNext(s);
    assert t.stored == s.sent + p.data[..p.i + 1];
    forall e | Samples(s.released, s.channels) <= e < |t.stored| ensures t.buffer[e % |s.buffer|] == t.stored[e] {
      assert e < |s.stored| ==> t.stored[e] == s.stored[e];
    }
  }

  lemma PublishKeepsInv<T>(s: Ring<T>)
    requires Inv(s) && s.producer.WriteCopying? && s.producer.i == Samples(s.producer.n, s.channels)
    ensures Inv(WriterNext(s))
  {
    hide Samples;
    AdvanceWraps(s.published, s.producer.n, s.capacity);
    SamplesAdd(s.published, s.producer.n, s.channels);
  }

  lemma WriterKeepsInv<T>(s: Ring<T>)
    requires Inv(s)
    ensures Inv(WriterNext(s))
  {
    hide Samples;
    match s.producer
    case WriterIdle =>
    case WriteEntered(data, count) =>
    case WriteSawWritePos(data, count, wp) =>
      DistanceIsExact(s.published, s.released, s.capacity);
      var room := s.capacity - 1 - (s.published - s.released);
      SamplesGrow(Min(count, room), count, s.channels);
    case WriteSized(data, n) =>
      assert s.stored == s.sent + data[..0];
    case WriteCopying(data, n, wp, i) =>
      if i < Samples(n, s.channels) { StoreKeepsInv(s); } else { PublishKeepsInv(s); }
  }

  lemma TakeKeepsInv<T>(s: Ring<T>)
    requires Inv(s) && s.consumer.ReadCopying? && s.consumer.i < Samples(s.consumer.n, s.channels)
    ensures Inv(ReaderNext(s))
  {
    hide Samples, WriterInv;
    ReaderTakesPublished(s);
    assert WriterInv(ReaderNext(s)) by { WriterUnaffected(s, ReaderNext(s)); }
  }

  lemma ReleaseKeepsInv<T>(s: Ring<T>)
    requires Inv(s) && s.consumer.ReadCopying? && s.consumer.i == Samples(s.consumer.n, s.channels)
    ensures Inv(ReaderNext(s))
  {
    hide Samples, WriterInv;
    AdvanceWraps(s.released, s.consumer.n, s.capacity);
    SamplesAdd(s.released, s.consumer.n, s.channels);
    WriterUnaffected(s, ReaderNext(s));
  }

  lemma SizeReadKeepsInv<T>(s: Ring<T>)
    requires Inv(s) && s.consumer.ReadSawWritePos?
    ensures Inv(ReaderNext(s))
  {
    hide Samples, WriterInv;
    DistanceIsExact(s.consumer.seen, s.released, s.capacity);
    WriterUnaffected(s, ReaderNext(s));
  }

  /** The reader can only give the writer more room. */
  lemma WriterUnaffected<T>(s: Ring<T>, t: Ring<T>)
    requires WriterInv(s)
    requires t.producer == s.producer && t.stored == s.stored && t.sent == s.sent && t.published == s.published
    requires t.writePos == s.writePos && t.capacity == s.capacity && t.channels == s.channels
    requires t.released >= s.released
    ensures WriterInv(t)
  {
    hide Samples;
  }

  lemma ReaderKeepsInv<T>(s: Ring<T>)
    requires Inv(s)
    ensures Inv(ReaderNext(s))
  {
    hide Samples;
    match s.consumer
    case ReaderIdle =>
    case ReadEntered(count) => WriterUnaffected(s, ReaderNext(s));
    case ReadSawWritePos(_, _, _) => SizeReadKeepsInv(s);
    case ReadSized(n) => WriterUnaffected(s, ReaderNext(s));
    case ReadCopying(n, _, i) =>
      if i < Samples(n, s.channels) { TakeKeepsInv(s); } else { ReleaseKeepsInv(s); }
  }

  function Start<T>(capacity: nat, channels: nat, buffer: seq<T>): Ring<T> {
    Ring(capacity, channels, buffer, 0, 0, WriterIdle, ReaderIdle, 0, 0, [], [], [])
  }

  lemma StartInv<T>(capacity: nat, channels: nat, buffer: seq<T>)
    requires capacity >= 1 && channels >= 1 && |buffer| == Samples(capacity, channels)
    ensures Inv(Start(capacity, channels, buffer))
  {
    BlockPositive(capacity, channels);
    SamplesGrow(0, 0, channels);
  }

  lemma NextKeepsInv<T>(s: Ring<T>, step: Step<T>)
    requires Inv(s)
    ensures Inv(Next(s, step))
  {
    match step
    case CallWrite(_, _) =>
    case WriterStep => WriterKeepsInv(s);
    case CallRead(_) =>
    case ReaderStep => ReaderKeepsInv(s);
  }

  /** The state after a whole schedule. */
  function Run<T>(s: Ring<T>, schedule: seq<Step<T>>): (t: Ring<T>)
    requires Inv(s)
    ensures Inv(t)
  {
    if schedule == [] then s
    else
      var before := Run(s, schedule[..|schedule| - 1]);
      NextKeepsInv(before, schedule[|schedule| - 1]);
      Next(before, schedule[|schedule| - 1])
  }

  /** Safety of one state: what has been read is a prefix of what has been published, at most capacity - 1
      frames are in flight, and a writer mid-copy is about to store to a slot of no sample that is stored and not
      released; that covers every slot the reader has claimed, those it has already read included. */
  ghost predicate Safe<T>(t: Ring<T>)
    requires Inv(t)
  {
    && t.taken <= t.sent && |t.sent| - |t.taken| <= Samples(t.capacity - 1, t.channels)
    && (t.producer.WriteCopying? && t.producer.i < Samples(t.producer.n, t.channels) ==>
          forall e :: Samples(t.released, t.channels) <= e < |t.stored| ==> e % |t.buffer| != WriteSlot(t))
    && Samples(t.released, t.channels) <= |t.taken|
    && (t.consumer.ReadCopying? ==> Samples(t.released + t.consumer.n, t.channels) <= |t.sent|)
  }

  lemma InFlight<T>(t: Ring<T>)
    requires Inv(t)
    ensures Samples(t.released, t.channels) <= |t.taken| && |t.sent| - |t.taken| <= Samples(t.capacity - 1, t.channels)
  {
    hide Samples, WriterInv;
    SamplesAdd(t.released, t.published - t.released, t.channels);
    SamplesGrow(t.published - t.released, t.capacity - 1, t.channels);
  }

  lemma ClaimPublished<T>(t: Ring<T>)
    requires Inv(t) && t.consumer.ReadCopying?
    ensures Samples(t.released + t.consumer.n, t.channels) <= |t.sent|
  {
    hide Samples, WriterInv;
    SamplesGrow(t.released + t.consumer.n, t.published, t.channels);
  }

  lemma InvIsSafe<T>(t: Ring<T>)
    requires Inv(t)
    ensures Safe(t)
  {
    hide Samples, WriterInv, ReaderInv, WriteSlot;
    InFlight(t);
    if t.consumer.ReadCopying? { ClaimPublished(t); }
    if t.producer.WriteCopying? && t.producer.i < Samples(t.producer.n, t.channels) { WriterStaysOffUnread(t); }
  }

  /** Under every schedule, from an empty ring of any size, every state reached is safe. */
  lemma EveryScheduleIsFifo<T>(capacity: nat, channels: nat, buffer: seq<T>, schedule: seq<Step<T>>)
    requires capacity >= 1 && channels >= 1 && |buffer| == Samples(capacity, channels)
    ensures Inv(Start(capacity, channels, buffer)) && Safe(Run(Start(capacity, channels, buffer), schedule))
  {
    StartInv(capacity, channels, buffer);
    InvIsSafe(Run(Start(capacity, channels, buffer), schedule));
  }

  /** Steps the writer still has to make before its call returns, at most. */
  function WriterWork<T>(s: Ring<T>): nat
    requires Inv(s)
  {
    match s.producer
    case WriterIdle => 0
    case WriteEntered(data, count) => Samples(count, s.channels) + 4
    case WriteSawWritePos(data, count, _) => Samples(count, s.channels) + 3
    case WriteSized(_, n) => Samples(n, s.channels) + 2
    case WriteCopying(_, n, _, i) => Samples(n, s.channels) - i + 1
  }

  /** Wait-freedom of Write: each of its own steps brings it closer to returning, and the reader's steps
      never push it back. */
  lemma WriterNeverWaits<T>(s: Ring<T>)
    requires Inv(s)
    ensures Inv(WriterNext(s)) && Inv(ReaderNext(s))
    ensures s.producer.WriterIdle? || WriterWork(WriterNext(s)) < WriterWork(s)
    ensures WriterWork(ReaderNext(s)) == WriterWork(s)
  {
    hide Samples, Inv, WriterNext;
    WriterKeepsInv(s);
    ReaderKeepsInv(s);
    WriterAdvances(s);
  }

  lemma WriterAdvances<T>(s: Ring<T>)
    requires Inv(s) && Inv(WriterNext(s))
    ensures s.producer.WriterIdle? || WriterWork(WriterNext(s)) < WriterWork(s)
  {
    hide Samples, ReaderInv;
    if s.producer.WriteSawWritePos? {
      DistanceIsExact(s.published, s.released, s.capacity);
      var room := s.capacity - 1 - (s.published - s.released);
      SamplesGrow(Min(s.producer.count, room), s.producer.count, s.channels);
    }
  }
}
