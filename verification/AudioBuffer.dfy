/** The single-producer single-consumer sample ring. Positions are kept modulo the capacity; the absolute
    counts `published` and `released` exist only to state what the ring holds. */
module RingArithmetic {

  lemma Distribute(a: int, b: int, n: int)
    ensures (a - b) * n == a * n - b * n && (a + b) * n == a * n + b * n
  {}

  lemma AtLeastOnce(k: int, n: int)
    requires k >= 1 && n >= 0
    ensures k * n >= n
  {
    Distribute(k, 1, n);
    assert (k - 1) * n >= 0;
  }

  /** Order is kept by multiplying with a count. */
  lemma Scale(a: int, b: int, n: nat)
    requires a <= b
    ensures a * n <= b * n
    ensures a < b ==> a * n + n <= b * n
  {
    Distribute(b, a, n);
    if a < b { AtLeastOnce(b - a, n); }
  }

  /** Quotient and remainder are unique. */
  lemma DivModUnique(x: nat, n: nat, q: nat, r: nat)
    requires r < n && x == q * n + r
    ensures x / n == q && x % n == r
  {
    var p := x / n;
    assert x == p * n + x % n;
    Distribute(p, q, n);
    Distribute(q, p, n);
    if p > q { AtLeastOnce(p - q, n); }
    if q > p { AtLeastOnce(q - p, n); }
  }

  lemma AddMultiple(x: nat, q: nat, n: nat)
    requires n > 0
    ensures (x + q * n) % n == x % n
  {
    var p := x / n;
    assert x == p * n + x % n;
    Distribute(p, q, n);
    DivModUnique(x + q * n, n, p + q, x % n);
  }

  lemma BlockPositive(capacity: nat, channels: nat)
    requires capacity > 0 && channels > 0
    ensures capacity * channels >= channels > 0
  {
    AtLeastOnce(capacity, channels);
  }

  /** A slot computed from a wrapped position is the slot of the absolute sample. */
  lemma SlotOfAbsolute(frame: nat, capacity: nat, channels: nat, i: nat)
    requires capacity > 0 && channels > 0
    ensures capacity * channels > 0 && frame % capacity * channels >= 0 && frame * channels >= 0
    ensures (frame % capacity * channels + i) % (capacity * channels) == (frame * channels + i) % (capacity * channels)
  {
    var q, r := frame / capacity, frame % capacity;
    BlockPositive(capacity, channels);
    SplitFrame(q, r, capacity, channels);
    assert frame == q * capacity + r;
    AddMultiple(r * channels + i, q, capacity * channels);
  }

  lemma SplitFrame(q: nat, r: nat, capacity: nat, channels: nat)
    ensures (q * capacity + r) * channels == r * channels + q * (capacity * channels)
  {
    Distribute(q * capacity, r, channels);
    Associate(q, capacity, channels);
  }

  lemma Associate(a: int, b: int, c: int)
    ensures (a * b) * c == a * (b * c)
  {}

  /** Two different samples less than a buffer apart never share a slot. */
  lemma SlotsApart(a: nat, b: nat, n: nat)
    requires n > 0 && a < b < a + n
    ensures a % n != b % n
  {
    var p, q := a / n, b / n;
    assert a == p * n + a % n && b == q * n + b % n;
    Distribute(q, p, n);
    if q > p { AtLeastOnce(q - p, n); }
    if p > q { Distribute(p, q, n); AtLeastOnce(p - q, n); }
  }

  /** How far `write` is ahead of `read`, computed from wrapped positions. */
  function Distance(write: nat, read: nat, capacity: nat): nat
    requires read <= capacity
  {
    if write >= read then write - read else capacity - read + write
  }

  lemma DistanceIsExact(w: nat, r: nat, capacity: nat)
    requires capacity > 0 && r <= w < r + capacity
    ensures Distance(w % capacity, r % capacity, capacity) == w - r
  {
    var q, b, d := r / capacity, r % capacity, w - r;
    assert r == q * capacity + b;
    if b + d < capacity {
      DivModUnique(w, capacity, q, b + d);
    } else {
      Distribute(q, 1, capacity);
      DivModUnique(w, capacity, q + 1, b + d - capacity);
    }
  }

  lemma AdvanceWraps(x: nat, d: nat, capacity: nat)
    requires capacity > 0
    ensures (x % capacity + d) % capacity == (x + d) % capacity
  {
    assert x == (x / capacity) * capacity + x % capacity;
    AddMultiple(x % capacity + d, x / capacity, capacity);
  }

  /** How many samples some frames take. */
  function Samples(frames: nat, channels: nat): nat {
    frames * channels
  }

  lemma SamplesAdd(a: nat, b: nat, channels: nat)
    ensures Samples(a + b, channels) == Samples(a, channels) + Samples(b, channels)
  {
    Distribute(a, b, channels);
  }

  lemma NoSamples(channels: nat)
    ensures Samples(0, channels) == 0
  {}

  lemma SamplesGrow(a: nat, b: nat, channels: nat)
    requires a <= b
    ensures Samples(a, channels) <= Samples(b, channels)
    ensures a < b && channels >= 1 ==> Samples(a, channels) < Samples(b, channels)
  {
    Scale(a, b, channels);
  }

  lemma SlotIsAbsolute(frame: nat, capacity: nat, channels: nat, i: nat)
    requires capacity > 0 && channels > 0
    ensures Samples(capacity, channels) > 0
    ensures (Samples(frame % capacity, channels) + i) % Samples(capacity, channels)
         == (Samples(frame, channels) + i) % Samples(capacity, channels)
  {
    SlotOfAbsolute(frame, capacity, channels, i);
  }
}

module AudioBuffers {
  import opened RingArithmetic

  class AudioBuffer<T(0)> {
    const channels: nat
    const capacity: nat
    const buffer: array<T>
    var readPos: nat
    var writePos: nat
    ghost var released: nat       // frames read so far
    ghost var published: nat      // frames written so far
    ghost var stream: seq<T>      // every sample written so far

    /** Every sample from number `first` on is in its slot. */
    ghost predicate Holds(first: nat)
      requires buffer.Length > 0
      reads this`stream, buffer
    {
      forall e :: first <= e < |stream| ==> buffer[e % buffer.Length] == stream[e]
    }

    lemma HoldsLater(first: nat)
      requires buffer.Length > 0 && Holds(first)
      ensures forall later: nat :: first <= later ==> Holds(later)
    {}

    ghost predicate Valid()
      reads this, buffer
    {
      && channels >= 1 && capacity >= 1 && buffer.Length == Samples(capacity, channels)
      && readPos == released % capacity && writePos == published % capacity
      && released <= published < released + capacity
      && |stream| == Samples(published, channels)
      && Samples(released, channels) <= |stream|
      && buffer.Length > 0 && Holds(Samples(released, channels))
    }

    /** The queue of samples waiting to be read. */
    ghost function Queued(): seq<T>
      requires Valid()
      reads this, buffer
    {
      stream[Samples(released, channels)..]
    }

    constructor (capacitySamples: nat, channels: nat)
      requires capacitySamples >= 1 && channels >= 1
      ensures Valid() && Queued() == [] && this.channels == channels && capacity == capacitySamples && fresh(buffer)
    {
      this.channels, capacity := channels, capacitySamples;
      buffer := new T[Samples(capacitySamples, channels)];
      readPos, writePos, released, published, stream := 0, 0, 0, 0, [];
    }

    function AvailableRead(): (n: nat)
      requires Valid()
      reads this, buffer
      ensures n == published - released
    {
      DistanceIsExact(published, released, capacity);
      Distance(writePos, readPos, capacity)
    }

    function AvailableWrite(): (n: nat)
      requires Valid()
      reads this, buffer
      ensures n == capacity - 1 - (published - released)
    {
      capacity - 1 - AvailableRead()
    }

    /** The copy loop of Write, in samples: stores data[..count] at consecutive slots from `base` on. */
    method StoreSamples(data: array<T>, base: nat, count: nat, ghost first: nat, ghost frame: nat)
      requires channels >= 1 && capacity >= 1 && buffer.Length == Samples(capacity, channels) && data != buffer
      requires count <= data.Length
      requires first <= |stream| && |stream| + count <= first + buffer.Length
      requires base == Samples(frame % capacity, channels) && |stream| == Samples(frame, channels)
      requires buffer.Length > 0 && Holds(first)
      modifies this`stream, buffer
      ensures stream == old(stream) + data[..count]
      ensures Holds(first)
    {
      var size := buffer.Length;
      ghost var last := |stream|;
      for i := 0 to count
        invariant stream == old(stream) + data[..i]
        invariant forall e :: first <= e < last + i ==> buffer[e % size] == stream[e]
      {
        SlotIsAbsolute(frame, capacity, channels, i);
        forall e | first <= e < last + i ensures e % size != (last + i) % size { SlotsApart(e, last + i, size); }
        buffer[(base + i) % size] := data[i];
        stream := stream + [data[i]];
      }
    }

    /** The copy loop of Read, in samples. */
    method LoadSamples(data: array<T>, base: nat, count: nat, ghost first: nat, ghost frame: nat)
      requires channels >= 1 && capacity >= 1 && buffer.Length == Samples(capacity, channels) && data != buffer
      requires count <= data.Length && first + count <= |stream|
      requires base == Samples(frame % capacity, channels) && first == Samples(frame, channels)
      requires buffer.Length > 0 && Holds(first)
      modifies data
      ensures data[..count] == stream[first..first + count]
      ensures data[count..] == old(data[count..])
    {
      var size := buffer.Length;
      for i := 0 to count
        invariant forall k :: 0 <= k < i ==> data[k] == stream[first + k]
        invariant forall k :: i <= k < data.Length ==> data[k] == old(data[k])
      {
        SlotIsAbsolute(frame, capacity, channels, i);
        assert buffer[(first + i) % size] == stream[first + i];
        data[i] := buffer[(base + i) % size];
      }
    }

    /** Appends as many whole frames of `data` as fit; one frame of the capacity always stays free. */
    method Write(data: array<T>, sampleCount: nat) returns (n: nat)
      requires Valid() && data != buffer && Samples(sampleCount, channels) <= data.Length
      modifies this`writePos, this`published, this`stream, buffer
      ensures Valid() && Samples(n, channels) <= data.Length
      ensures n == if sampleCount <= old(AvailableWrite()) then sampleCount else old(AvailableWrite())
      ensures Queued() == old(Queued()) + data[..Samples(n, channels)]
    {
      hide Holds, Samples, Distance, AvailableRead, AvailableWrite;
      var available := AvailableWrite();
      n := if sampleCount < available then sampleCount else available;
      SamplesGrow(n, sampleCount, channels);
      if n == 0 {
        NoSamples(channels);
        return;
      }
      SamplesAdd(published, n, channels);
      SamplesAdd(released, capacity, channels);
      SamplesGrow(published + n, released + capacity, channels);
      ghost var was, first := stream, Samples(released, channels);
      StoreSamples(data, Samples(writePos, channels), Samples(n, channels), first, published);
      Publish(n);
      DropAppended(was, data[..Samples(n, channels)], first);
    }

    lemma DropAppended(a: seq<T>, b: seq<T>, i: nat)
      requires i <= |a|
      ensures (a + b)[i..] == a[i..] + b
    {}

    /** Moves the write position past n stored frames. */
    method Publish(n: nat)
      requires channels >= 1 && capacity >= 1 && buffer.Length == Samples(capacity, channels) > 0
      requires readPos == released % capacity && writePos == published % capacity
      requires released <= published && published + n < released + capacity
      requires |stream| == Samples(published + n, channels) && Samples(released, channels) <= |stream|
      requires Holds(Samples(released, channels))
      modifies this`writePos, this`published
      ensures Valid() && published == old(published) + n
    {
      hide Holds, Samples;
      AdvanceWraps(published, n, capacity);
      writePos := (writePos + n) % capacity;
      published := published + n;
    }

    /** Takes as many whole frames as are queued, oldest first. */
    method Read(data: array<T>, sampleCount: nat) returns (n: nat)
      requires Valid() && data != buffer && Samples(sampleCount, channels) <= data.Length
      modifies this`readPos, this`released, data
      ensures Valid() && Samples(n, channels) <= |old(Queued())| && Samples(n, channels) <= data.Length
      ensures n == if sampleCount <= old(AvailableRead()) then sampleCount else old(AvailableRead())
      ensures data[..Samples(n, channels)] == old(Queued())[..Samples(n, channels)]
      ensures data[Samples(n, channels)..] == old(data[Samples(n, channels)..])
      ensures Queued() == old(Queued())[Samples(n, channels)..]
    {
      HoldsLater(Samples(released, channels));
      hide Holds, Samples, Distance, AvailableRead, AvailableWrite;
      var available := AvailableRead();
      n := if sampleCount < available then sampleCount else available;
      SamplesGrow(n, sampleCount, channels);
      SamplesGrow(released + n, published, channels);
      SamplesAdd(released, n, channels);
      if n == 0 {
        NoSamples(channels);
        return;
      }
      LoadSamples(data, Samples(readPos, channels), Samples(n, channels), Samples(released, channels), released);
      AdvanceWraps(released, n, capacity);
      readPos := (readPos + n) % capacity;
      released := released + n;
    }
  }
}
