/**
 The streamed reply: a counting pass declares the length, a second pass cuts the
 same bytes into 16 KiB chunks (crates/tinybus/src/connection.rs). The encoder
 is proved to send the same chunks however its serializer splits its writes.
 */
module StreamEncoding {
  import opened Wrappers

  const CHUNK: nat := 16384

  const MAX_LENGTH: nat := 0xFFFF_FFFF_FFFF_FFFF

  type Byte = bv8

  /** Why a pass stops: the length does not fit in 64 bits, or the stream's receiver is gone. */
  datatype Failure = Overflow | ReceiverClosed

  // ---------------------------------------------------------------- chunks

  /** The whole chunks of `bytes`. */
  function Full(bytes: seq<Byte>): seq<seq<Byte>>
    decreases |bytes|
  {
    if |bytes| < CHUNK then [] else [bytes[..CHUNK]] + Full(bytes[CHUNK..])
  }

  /** What is left after the whole chunks. */
  function Remainder(bytes: seq<Byte>): (rest: seq<Byte>)
    ensures |rest| < CHUNK
    decreases |bytes|
  {
    if |bytes| < CHUNK then bytes else Remainder(bytes[CHUNK..])
  }

  /** The chunks of a complete reply: only the last one may be short, and none is empty. */
  function Chunks(bytes: seq<Byte>): seq<seq<Byte>> {
    Full(bytes) + (if Remainder(bytes) == [] then [] else [Remainder(bytes)])
  }

  function Concat(pieces: seq<seq<Byte>>): seq<Byte> {
    if pieces == [] then [] else pieces[0] + Concat(pieces[1..])
  }

  lemma {:induction false} ConcatAppend(a: seq<seq<Byte>>, b: seq<seq<Byte>>)
    ensures Concat(a + b) == Concat(a) + Concat(b)
    decreases |a|
  {
    if a == [] {
      assert a + b == b;
    } else {
      ConcatAppend(a[1..], b);
      assert (a + b)[1..] == a[1..] + b;
    }
  }

  lemma {:induction false} FullConcat(bytes: seq<Byte>)
    ensures Concat(Full(bytes)) + Remainder(bytes) == bytes
    decreases |bytes|
  {
    if |bytes| >= CHUNK {
      FullConcat(bytes[CHUNK..]);
      assert Full(bytes)[1..] == Full(bytes[CHUNK..]);
      assert bytes == bytes[..CHUNK] + bytes[CHUNK..];
    }
  }

  /** The chunks put back together are the bytes. */
  lemma ChunksConcat(bytes: seq<Byte>)
    ensures Concat(Chunks(bytes)) == bytes
  {
    FullConcat(bytes);
    var tail := if Remainder(bytes) == [] then [] else [Remainder(bytes)];
    ConcatAppend(Full(bytes), tail);
    assert Concat(tail) == Remainder(bytes);
  }

  /** Every chunk but the last is exactly 16 KiB, and the last is between one byte and 16 KiB. */
  lemma {:induction false} ChunkLengths(bytes: seq<Byte>, i: nat)
    requires i < |Chunks(bytes)|
    ensures 0 < |Chunks(bytes)[i]| <= CHUNK
    ensures i < |Chunks(bytes)| - 1 ==> |Chunks(bytes)[i]| == CHUNK
    decreases |bytes|
  {
    if |bytes| >= CHUNK {
      if i > 0 {
        ChunkLengths(bytes[CHUNK..], i - 1);
        assert Chunks(bytes) == [bytes[..CHUNK]] + Chunks(bytes[CHUNK..]);
      }
    }
  }

  /** Extending by at most what the open chunk can still take. */
  lemma {:induction false} Extend(bytes: seq<Byte>, more: seq<Byte>)
    requires |Remainder(bytes)| + |more| <= CHUNK
    ensures Full(bytes + more) ==
              Full(bytes) + (if |Remainder(bytes)| + |more| == CHUNK then [Remainder(bytes) + more] else [])
    ensures Remainder(bytes + more) == (if |Remainder(bytes)| + |more| == CHUNK then [] else Remainder(bytes) + more)
    decreases |bytes|
  {
    if |bytes| >= CHUNK {
      Extend(bytes[CHUNK..], more);
      assert (bytes + more)[..CHUNK] == bytes[..CHUNK];
      assert (bytes + more)[CHUNK..] == bytes[CHUNK..] + more;
    } else if |bytes| + |more| == CHUNK {
      assert (bytes + more)[..CHUNK] == bytes + more;
      assert (bytes + more)[CHUNK..] == [];
    }
  }

  lemma {:induction false} FullPrefix(bytes: seq<Byte>, more: seq<Byte>)
    ensures Full(bytes) <= Full(bytes + more)
    decreases |bytes|
  {
    if |bytes| >= CHUNK {
      FullPrefix(bytes[CHUNK..], more);
      assert (bytes + more)[..CHUNK] == bytes[..CHUNK];
      assert (bytes + more)[CHUNK..] == bytes[CHUNK..] + more;
    }
  }

  // ---------------------------------------------------------------- the counting pass

  class CountingWriter {
    var count: nat

    constructor ()
      ensures count == 0
    {
      count := 0;
    }

    method Write(bytes: seq<Byte>) returns (written: Result<nat, Failure>)
      requires count <= MAX_LENGTH
      modifies this
      ensures written == (if old(count) + |bytes| <= MAX_LENGTH then Ok(|bytes|) else Err(Overflow))
      ensures count == (if written.Ok? then old(count) + |bytes| else old(count))
    {
      if count + |bytes| > MAX_LENGTH {
        return Err(Overflow);
      }
      count := count + |bytes|;
      return Ok(|bytes|);
    }
  }

  // ---------------------------------------------------------------- the encoding pass

  /** `sent` is what the receiver took; it takes `capacity` chunks and then closes. */
  class StreamReplyEncoder {
    var buffer: seq<Byte>
    var sent: seq<seq<Byte>>
    const capacity: nat

    /** The bytes handed over so far are `bytes`, and the buffer is not full. */
    ghost predicate Holds(bytes: seq<Byte>)
      reads this
    {
      sent == Full(bytes) && buffer == Remainder(bytes)
    }

    constructor (capacity: nat)
      ensures Holds([]) && this.capacity == capacity
    {
      buffer, sent, this.capacity := [], [], capacity;
    }

    method SendBuffer() returns (sending: Result<(), Failure>)
      requires |sent| <= capacity
      modifies this
      ensures |sent| <= capacity && buffer == []
      ensures sending == (if old(buffer) == [] || old(|sent|) < capacity then Ok(()) else Err(ReceiverClosed))
      ensures sent == (if old(buffer) != [] && sending.Ok? then old(sent) + [old(buffer)] else old(sent))
    {
      if buffer == [] {
        return Ok(());
      }
      var chunk := buffer;
      buffer := [];
      if |sent| == capacity {
        return Err(ReceiverClosed);
      }
      sent := sent + [chunk];
      return Ok(());
    }

    /**
     The inner loop never meets a full buffer, so it always makes progress. A
     write succeeds exactly if the receiver takes every chunk it completes.
     */
    method Write(bytes: seq<Byte>, ghost before: seq<Byte>) returns (written: Result<nat, Failure>)
      requires Holds(before) && |sent| <= capacity
      modifies this
      ensures |sent| <= capacity
      ensures written == (if |Full(before + bytes)| <= capacity then Ok(|bytes|) else Err(ReceiverClosed))
      ensures written.Ok? ==> Holds(before + bytes)
      ensures written.Err? ==> |sent| == capacity && sent <= Full(before + bytes)
    {
      var rest := bytes;
      ghost var done := [];
      assert before + done == before;
      while rest != []
        invariant bytes == done + rest
        invariant Holds(before + done) && |sent| <= capacity
        decreases |rest|
      {
        var available := CHUNK - |buffer|;
        var take := if available < |rest| then available else |rest|;
        ghost var now := before + done;
        Extend(now, rest[..take]);
        buffer := buffer + rest[..take];
        done := done + rest[..take];
        assert before + done == now + rest[..take];
        assert bytes == done + rest[take..];
        rest := rest[take..];
        FullPrefix(before + done, rest);
        assert (before + done) + rest == before + bytes;
        if |buffer| == CHUNK {
          var sending := SendBuffer();
          if sending.Err? {
            return Err(ReceiverClosed);
          }
        }
      }
      assert done == bytes;
      return Ok(|bytes|);
    }

    method Flush() returns (flushing: Result<(), Failure>)
      requires |sent| <= capacity
      modifies this
      ensures |sent| <= capacity && buffer == []
      ensures flushing == (if old(buffer) == [] || old(|sent|) < capacity then Ok(()) else Err(ReceiverClosed))
      ensures sent == (if old(buffer) != [] && flushing.Ok? then old(sent) + [old(buffer)] else old(sent))
    {
      flushing := SendBuffer();
    }
  }

  // ---------------------------------------------------------------- the two passes over one value

  /** The declared length is the exact length of everything the serializer writes. */
  method Count(writes: seq<seq<Byte>>) returns (length: Result<nat, Failure>)
    ensures length == (if |Concat(writes)| <= MAX_LENGTH then Ok(|Concat(writes)|) else Err(Overflow))
  {
    var counter := new CountingWriter();
    var i := 0;
    assert writes[..0] == [];
    while i < |writes|
      invariant i <= |writes|
      invariant counter.count == |Concat(writes[..i])| <= MAX_LENGTH
    {
      ConcatAppend(writes[..i], [writes[i]]);
      assert writes[..i + 1] == writes[..i] + [writes[i]];
      ConcatAppend(writes[..i + 1], writes[i + 1..]);
      assert writes == writes[..i + 1] + writes[i + 1..];
      var written := counter.Write(writes[i]);
      if written.Err? {
        return Err(Overflow);
      }
      i := i + 1;
    }
    assert writes[..i] == writes;
    return Ok(counter.count);
  }

  /**
   The chunks sent depend on the bytes alone, not on how they were written: all of
   them if the receiver stays, otherwise exactly the first `capacity`.
   */
  method Encode(writes: seq<seq<Byte>>, capacity: nat) returns (ok: bool, sent: seq<seq<Byte>>)
    ensures ok == (|Chunks(Concat(writes))| <= capacity)
    ensures ok ==> sent == Chunks(Concat(writes))
    ensures !ok ==> sent == Chunks(Concat(writes))[..capacity]
  {
    var encoder := new StreamReplyEncoder(capacity);
    var i := 0;
    assert writes[..0] == [];
    while i < |writes|
      invariant i <= |writes|
      invariant encoder.capacity == capacity && |encoder.sent| <= capacity
      invariant encoder.Holds(Concat(writes[..i]))
    {
      ConcatAppend(writes[..i], [writes[i]]);
      assert writes[..i + 1] == writes[..i] + [writes[i]];
      ConcatAppend(writes[..i + 1], writes[i + 1..]);
      assert writes == writes[..i + 1] + writes[i + 1..];
      FullPrefix(Concat(writes[..i + 1]), Concat(writes[i + 1..]));
      assert Concat([writes[i]]) == writes[i];
      var written := encoder.Write(writes[i], Concat(writes[..i]));
      if written.Err? {
        return false, encoder.sent;
      }
      i := i + 1;
    }
    assert writes[..i] == writes;
    var flushing := encoder.Flush();
    return flushing.Ok?, encoder.sent;
  }

  /** The declared length is the total length of the chunks that are sent. */
  lemma {:induction false} DeclaredLengthMatches(bytes: seq<Byte>)
    ensures TotalLength(Chunks(bytes)) == |bytes|
  {
    ChunksConcat(bytes);
    TotalIsConcat(Chunks(bytes));
  }

  function TotalLength(chunks: seq<seq<Byte>>): nat {
    if chunks == [] then 0 else |chunks[0]| + TotalLength(chunks[1..])
  }

  lemma {:induction false} TotalIsConcat(chunks: seq<seq<Byte>>)
    ensures TotalLength(chunks) == |Concat(chunks)|
    decreases |chunks|
  {
    if chunks != [] { TotalIsConcat(chunks[1..]); }
  }
}
