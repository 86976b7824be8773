/** The command ring in shared memory: a byte buffer addressed by ever-growing 64-bit counters,
    written by the guest drivers in at most two chunks and read by the backend either as one
    slice or byte by byte across the wrap. */
module Ring {
  import opened Wrappers
  import opened Bytes
  import opened Framing
  import opened Arithmetic

  // ---- Counters and slots -----------------------------------------------------------------

  /** The bytes that a reader sees at n consecutive counter values. */
  function Window(ring: seq<byte>, from: int, n: nat): (r: seq<byte>)
    requires 0 < |ring|
    ensures |r| == n
  {
    seq(n, k => ring[(from + k) % |ring|])
  }

  /** Counters closer than the ring's size never share a slot. */
  lemma SlotsDiffer(i: int, j: int, size: int)
    requires 0 < size && i < j < i + size
    ensures i % size != j % size
  {
    var d := j / size - i / size;
    assert d * size == j - j % size - (i - i % size);
    Multiples(d, size);
  }

  lemma SlotBeforeWrap(at: int, k: int, size: int)
    requires 0 < size && 0 <= k && at % size + k < size
    ensures (at + k) % size == at % size + k
  {
    DivideUniquely(at + k, size, at / size, at % size + k);
  }

  lemma SlotAfterWrap(at: int, k: int, size: int)
    requires 0 < size && k <= size && size <= at % size + k
    ensures (at + k) % size == at % size + k - size
  {
    assert at == (at / size) * size + at % size;
    DivideUniquely(at + k, size, at / size + 1, at % size + k - size);
  }

  // ---- What a write does to the ring ------------------------------------------------------

  /** The bytes of data are at the counters from at on; every other slot, named by the counters
      one turn before the end of data, is as it was. */
  ghost predicate Written(before: seq<byte>, after: seq<byte>, at: int, data: seq<byte>) {
    && |after| == |before| && 0 < |before| && |data| <= |before|
    && Window(after, at, |data|) == data
    && (forall i | at + |data| - |before| <= i < at :: after[i % |before|] == before[i % |before|])
  }

  /** A write that leaves room for the unread bytes appends to what the reader will see: nothing
      unread is overwritten. */
  lemma WriteAppends(before: seq<byte>, after: seq<byte>, consumer: nat, at: nat, data: seq<byte>)
    requires Written(before, after, at, data) && consumer <= at && at + |data| <= consumer + |before|
    ensures Window(after, consumer, at - consumer + |data|) == Window(before, consumer, at - consumer) + data
  {
    var all := Window(after, consumer, at - consumer + |data|);
    forall k | 0 <= k < |all| ensures all[k] == (Window(before, consumer, at - consumer) + data)[k] {
      if k >= at - consumer {
        assert all[k] == Window(after, at, |data|)[k - (at - consumer)];
      }
    }
  }

  // ---- What a read finds ------------------------------------------------------------------

  datatype RingData = Contiguous(data: seq<byte>) | Wrapped(data: seq<byte>)

  function Pending(producer: nat, consumer: nat): nat {
    if producer <= consumer then 0 else producer - consumer
  }

  predicate FitsBeforeWrap(size: nat, consumer: nat, pending: nat)
    requires 0 < size
  {
    pending <= size - consumer % size
  }

  /** What the backend is handed, in terms of the pending bytes alone and of whether they cross
      the wrap. */
  function Handed(bytes: seq<byte>, crosses: bool): Option<RingData> {
    if bytes == [] then None
    else if !crosses then Some(Contiguous(bytes))
    else if |bytes| < HEADER_SIZE then None
    else
      var size := CommandSize(bytes);
      if size > |bytes| || size < HEADER_SIZE then None else Some(Wrapped(bytes[..size]))
  }

  /** The command that is dispatched next from the pending bytes, if any. */
  function Next(bytes: seq<byte>, crosses: bool): Option<Cut> {
    var handed :- Handed(bytes, crosses);
    Some(Take(handed.data))
  }

  /** The command at the front of the pending bytes is complete and at least a header long. */
  predicate Complete(bytes: seq<byte>) {
    HEADER_SIZE <= |bytes| && HEADER_SIZE <= CommandSize(bytes) <= |bytes|
  }

  /** What is dispatched does not depend on where in the ring the pending bytes lie, if and only
      if a complete command leads them. */
  lemma ReadingIsPositionIndependent(bytes: seq<byte>)
    requires bytes != []
    ensures Next(bytes, false) == Next(bytes, true) <==> Complete(bytes)
    ensures Complete(bytes) ==> Next(bytes, true) == Some(Taken(bytes[..CommandSize(bytes)]))
  {
    if Complete(bytes) {
      var size := CommandSize(bytes);
      assert bytes[..size][..size] == bytes[..size];
      assert CommandSize(bytes[..size]) == size;
    }
  }

  // ---- Shared memory as the backend maps it -----------------------------------------------

  class SharedMemory {
    const ring: array<byte>
    var producer: nat
    var consumer: nat
    var hostFenceCompleted: nat

    constructor (size: nat)
      requires 0 < size
      ensures fresh(ring) && ring.Length == size && ring[..] == Zeros(size)
      ensures producer == 0 && consumer == 0 && hostFenceCompleted == 0
    {
      ring := new byte[size](_ => 0);
      producer, consumer, hostFenceCompleted := 0, 0, 0;
      new;
      assert forall k | 0 <= k < size :: ring[k] == 0;
    }

    /** The unread bytes in the order of their counters. */
    function Unread(): (r: seq<byte>)
      requires 0 < ring.Length
      reads this, ring
      ensures |r| == Pending(producer, consumer)
    {
      Window(ring[..], consumer, Pending(producer, consumer))
    }

    method ReadPendingCommands() returns (r: Option<Pair<RingData, nat>>)
      requires 0 < ring.Length
      ensures r.Some? <==> Handed(Unread(), !FitsBeforeWrap(ring.Length, consumer, |Unread()|)).Some?
      ensures r.Some? ==>
        && Some(r.value.first) == Handed(Unread(), !FitsBeforeWrap(ring.Length, consumer, |Unread()|))
        && r.value.second == |Unread()|
    {
      var pending := if producer <= consumer then 0 else producer - consumer;
      if pending == 0 {
        return None;
      }
      var offset := consumer % ring.Length;
      var contiguous := ring.Length - offset;
      if pending <= contiguous {
        ContiguousIsWindow(ring[..], consumer, pending);
        return Some(Pair(Contiguous(ring[offset..offset + pending]), pending));
      }
      if pending < HEADER_SIZE {
        return None;
      }
      var header := CopyOut(offset, 8);
      assert header == Unread()[..8];
      var size := CommandSize(header);
      if size > pending || size < HEADER_SIZE {
        return None;
      }
      var command := CopyOut(offset, size);
      assert command == Unread()[..size];
      return Some(Pair(Wrapped(command), pending));
    }

    /** Copy bytes out one by one, wrapping at the end of the ring. */
    method CopyOut(offset: nat, n: nat) returns (r: seq<byte>)
      requires 0 < ring.Length && offset == consumer % ring.Length
      ensures r == Window(ring[..], consumer, n)
    {
      ghost var window := Window(ring[..], consumer, n);
      var buf := new byte[n](_ => 0);
      var i := 0;
      while i < n
        invariant 0 <= i <= n && buf[..i] == window[..i]
      {
        OffsetByte(ring[..], consumer, n, i);
        buf[i] := ring[(offset + i) % ring.Length];
        i := i + 1;
      }
      r := buf[..];
    }

    method AdvanceConsumer(bytes: nat)
      modifies this`consumer
      ensures consumer == old(consumer) + bytes
    {
      consumer := consumer + bytes;
    }

    method CompleteFence(value: nat)
      modifies this`hostFenceCompleted
      ensures hostFenceCompleted == value
    {
      hostFenceCompleted := value;
    }
  }

  lemma SlotOfOffset(at: int, k: int, size: int)
    requires 0 < size
    ensures (at % size + k) % size == (at + k) % size
  {
    var x := at % size + k;
    assert at == (at / size) * size + at % size && x == (x / size) * size + x % size;
    assert at + k == (at / size + x / size) * size + x % size;
    DivideUniquely(at + k, size, at / size + x / size, x % size);
  }

  /** The byte that the copy loop reads is the one the logical stream has there. */
  lemma OffsetByte(ring: seq<byte>, consumer: nat, n: nat, i: nat)
    requires 0 < |ring| && i < n
    ensures ring[(consumer % |ring| + i) % |ring|] == Window(ring, consumer, n)[i]
  {
    SlotOfOffset(consumer, i, |ring|);
  }

  lemma ContiguousIsWindow(ring: seq<byte>, consumer: nat, n: nat)
    requires 0 < |ring| && consumer % |ring| + n <= |ring|
    ensures ring[consumer % |ring|..consumer % |ring| + n] == Window(ring, consumer, n)
  {
    var offset := consumer % |ring|;
    forall k | 0 <= k < n ensures ring[offset..offset + n][k] == Window(ring, consumer, n)[k] {
      SlotBeforeWrap(consumer, k, |ring|);
    }
  }
}
