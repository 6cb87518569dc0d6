/** Realigning 16-bit samples: the bytes of a response arrive in chunks of any length. */
module Pcm {
  import opened Numbers
  import opened Text

  /** The longest prefix that is made of whole samples. */
  function WholeSamples(bytes: seq<byte>): seq<byte> {
    bytes[..|bytes| - |bytes| % 2]
  }

  predicate Aligned(payloads: seq<seq<byte>>) {
    forall p :: p in payloads ==> p != [] && |p| % 2 == 0
  }

  lemma {:induction false} AlignedLength(payloads: seq<seq<byte>>)
    requires Aligned(payloads)
    ensures |Concat(payloads)| % 2 == 0
  {
    if payloads != [] {
      AlignedLength(payloads[..|payloads| - 1]);
      assert payloads[|payloads| - 1] in payloads;
    }
  }

  lemma WholeSamplesAre(done: seq<byte>, pending: seq<byte>)
    requires |done| % 2 == 0 && |pending| <= 1
    ensures WholeSamples(done + pending) == done
  {
    assert (done + pending)[..|done|] == done;
  }

  lemma Regroup(done: seq<byte>, was: seq<byte>, buf: seq<byte>, payload: seq<byte>, pending: seq<byte>)
    requires was + buf == payload + pending
    ensures (done + was) + buf == (done + payload) + pending
  {
    assert (done + was) + buf == done + (was + buf);
  }

  lemma AlignedSnoc(payloads: seq<seq<byte>>, payload: seq<byte>)
    requires Aligned(payloads) && payload != [] && |payload| % 2 == 0
    ensures Aligned(payloads + [payload])
  {}

  class PcmAligner {
    var carry: byte
    var hasCarry: bool
    var payloads: seq<seq<byte>>
    ghost var received: seq<byte>

    function Pending(): seq<byte>
      reads this`carry, this`hasCarry
    {
      if hasCarry then [carry] else []
    }

    ghost predicate Valid()
      reads this
    {
      Aligned(payloads) && Concat(payloads) + Pending() == received && Concat(payloads) == WholeSamples(received)
    }

    constructor ()
      ensures Valid() && received == []
    {
      carry, hasCarry, payloads, received := 0, false, [], [];
    }

    /** The bytes to send now; the last odd byte is kept back. */
    method Take(buf: seq<byte>) returns (payload: seq<byte>)
      modifies this`carry, this`hasCarry
      ensures old(Pending()) + buf == payload + Pending() && |payload| % 2 == 0
    {
      payload := [];
      if |buf| == 0 { return; }
      var total := (if hasCarry then 1 else 0) + |buf|;
      var emitBytes := total - total % 2;
      var newCarry := total - emitBytes;
      if emitBytes == 0 {
        if !hasCarry { carry := buf[0]; }
        hasCarry := true;
        return;
      }
      if hasCarry { payload := [carry]; }
      var fromBuf := emitBytes - (if hasCarry then 1 else 0);
      payload := payload + buf[..fromBuf];
      hasCarry := newCarry == 1;
      if hasCarry { carry := buf[|buf| - 1]; }
    }

    /** One chunk: nothing is lost, duplicated or reordered, and every payload holds whole samples. */
    method Emit(buf: seq<byte>)
      requires Valid()
      modifies this
      ensures Valid() && received == old(received) + buf
      ensures old(payloads) <= payloads && |payloads| <= |old(payloads)| + 1
    {
      hide Concat, Aligned, WholeSamples;
      ghost var done, was := Concat(payloads), Pending();
      received := received + buf;
      var payload := Take(buf);
      Regroup(done, was, buf, payload, Pending());
      if payload != [] {
        ConcatSnoc(payloads, payload);
        AlignedSnoc(payloads, payload);
        payloads := payloads + [payload];
      } else {
        assert done + payload == done;
      }
      AlignedLength(payloads);
      WholeSamplesAre(Concat(payloads), Pending());
    }

    /** However the response is chunked, the emitted audio is the byte stream cut to whole samples. */
    method Synthesize(chunks: seq<seq<byte>>)
      requires Valid() && received == []
      modifies this
      ensures Valid() && Concat(payloads) == WholeSamples(Concat(chunks))
    {
      hide WholeSamples, Aligned;
      for i := 0 to |chunks|
        invariant Valid() && received == Concat(chunks[..i])
      {
        Emit(chunks[i]);
        ConcatSnoc(chunks[..i], chunks[i]);
        assert chunks[..i] + [chunks[i]] == chunks[..i + 1];
      }
      assert chunks[..|chunks|] == chunks;
    }
  }
}
