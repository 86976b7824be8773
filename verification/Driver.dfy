/** The guest drivers' side of the ring: the user-mode driver stages padded commands and flushes
    them; the kernel-mode driver submits one command at a time. Both wait for, or demand, room
    for the whole write before they touch the ring. */
module Driver {
  import opened Bytes
  import opened Ring
  import opened Arithmetic

  const STAGING_SIZE: nat := 0x4_0000

  /** CopyMemory between two buffers. */
  method CopyMemory(target: array<byte>, to: nat, source: array<byte>, from: nat, n: nat)
    requires target != source && to + n <= target.Length && from + n <= source.Length
    modifies target
    ensures forall j | 0 <= j < target.Length ::
      target[j] == if to <= j < to + n then source[from + (j - to)] else old(target[j])
  {
    forall k | 0 <= k < n {
      target[to + k] := source[from + k];
    }
  }

  /** Copy n bytes into the ring at counter at, in two chunks if they cross the wrap. */
  method CopyIntoRing(ring: array<byte>, at: nat, source: array<byte>, n: nat)
    requires ring != source && 0 < ring.Length && n <= ring.Length && n <= source.Length
    modifies ring
    ensures Written(old(ring[..]), ring[..], at, source[..n])
  {
    var writeOffset := at % ring.Length;
    CopyChunks(ring, writeOffset, source, n);
    ChunksWrite(old(ring[..]), ring[..], at, source[..n]);
  }

  method CopyChunks(ring: array<byte>, writeOffset: nat, source: array<byte>, n: nat)
    requires ring != source && writeOffset < ring.Length && n <= ring.Length && n <= source.Length
    modifies ring
    ensures Chunked(old(ring[..]), ring[..], writeOffset, source[..n])
  {
    if writeOffset + n <= ring.Length {
      CopyMemory(ring, writeOffset, source, 0, n);
    } else {
      var firstChunk := ring.Length - writeOffset;
      CopyMemory(ring, writeOffset, source, 0, firstChunk);
      CopyMemory(ring, 0, source, firstChunk, n - firstChunk);
    }
  }

  /** What the one or two chunks leave in the ring. */
  predicate Chunked(before: seq<byte>, after: seq<byte>, w: nat, data: seq<byte>)
    requires |before| == |after| && w < |before| && |data| <= |before|
  {
    forall j | 0 <= j < |before| ::
      after[j] ==
        if w <= j < w + |data| then data[j - w]
        else if j + |before| < w + |data| then data[j + |before| - w]
        else before[j]
  }

  lemma ChunksWrite(before: seq<byte>, after: seq<byte>, at: nat, data: seq<byte>)
    requires |before| == |after| && 0 < |before| && |data| <= |before|
    requires Chunked(before, after, at % |before|, data)
    ensures Written(before, after, at, data)
  {
    var size, w := |before|, at % |before|;
    forall k | 0 <= k < |data| ensures Window(after, at, |data|)[k] == data[k] {
      if w + k < size {
        SlotBeforeWrap(at, k, size);
      } else {
        SlotAfterWrap(at, k, size);
      }
    }
    forall i | at + |data| - size <= i < at ensures after[i % size] == before[i % size] {
      SlotBefore(at, at - i, size);
    }
  }

  /** The slots of the counters just before at. */
  lemma SlotBefore(at: int, back: int, size: int)
    requires 0 < size && 0 < back <= size
    ensures (at - back) % size == if back <= at % size then at % size - back else at % size - back + size
  {
    assert at == (at / size) * size + at % size;
    if back <= at % size {
      DivideUniquely(at - back, size, at / size, at % size - back);
    } else {
      DivideUniquely(at - back, size, at / size - 1, at % size - back + size);
    }
  }

  /** The user-mode driver's device, with the parts of it that move commands. */
  class UmdDevice {
    const staging: array<byte>
    const shared: SharedMemory
    const sharedMemoryValid: bool
    var stagingOffset: nat
    var localProducer: nat
    var commandsSubmitted: nat

    constructor (shared: SharedMemory, sharedMemoryValid: bool)
      requires 0 < shared.ring.Length
      ensures this.shared == shared && this.sharedMemoryValid == sharedMemoryValid && fresh(staging)
      ensures Valid() && Staged() == [] && localProducer == shared.producer && commandsSubmitted == 0
    {
      this.shared, this.sharedMemoryValid := shared, sharedMemoryValid;
      staging := new byte[STAGING_SIZE](_ => 0);
      stagingOffset, localProducer, commandsSubmitted := 0, shared.producer, 0;
    }

    predicate Valid()
      reads this
    {
      && staging.Length == STAGING_SIZE && staging != shared.ring && 0 < shared.ring.Length
      && stagingOffset <= STAGING_SIZE && stagingOffset % 16 == 0
    }

    /** The bytes waiting for the next flush. */
    function Staged(): seq<byte>
      requires Valid()
      reads this, staging
    {
      staging[..stagingOffset]
    }

    /** The consumer pointer as it is read in successive turns of the wait loop: it never passes
        the producer, and at last it leaves room for the staged bytes. */
    ghost predicate MakesRoom(observed: nat -> nat, patience: nat)
      reads this
    {
      && (forall k: nat :: observed(k) <= localProducer <= observed(k) + shared.ring.Length)
      && localProducer + stagingOffset <= observed(patience) + shared.ring.Length
    }

    /** A command that does not fit behind the staged ones. */
    predicate Overflows(payload: seq<byte>)
      reads this
    {
      HEADER_SIZE <= |payload| && STAGING_SIZE < stagingOffset + Align16(|payload|)
    }

    /** Move all staged bytes to the ring and publish them. Nothing is written before a consumer
        pointer was read that leaves room for all of them; that value is returned. */
    method FlushCommandBuffer(observed: nat -> nat, ghost patience: nat) returns (seen: nat)
      requires Valid() && (sharedMemoryValid && stagingOffset != 0 ==> MakesRoom(observed, patience))
      modifies this`stagingOffset, this`localProducer, shared`producer, shared.ring
      ensures Valid() && Staged() == []
      ensures !sharedMemoryValid || old(Staged()) == [] ==>
        localProducer == old(localProducer) && shared.producer == old(shared.producer)
        && shared.ring[..] == old(shared.ring[..])
      ensures sharedMemoryValid && old(Staged()) != [] ==>
        && seen <= old(localProducer) && localProducer <= seen + shared.ring.Length
        && (exists k: nat :: seen == observed(k))
        && Written(old(shared.ring[..]), shared.ring[..], old(localProducer), old(Staged()))
        && localProducer == old(localProducer) + |old(Staged())| == shared.producer
    {
      seen := 0;
      if stagingOffset == 0 {
        return;
      }
      if !sharedMemoryValid {
        stagingOffset := 0;
        return;
      }
      var spaceNeeded := stagingOffset;
      var poll := 0;
      seen := observed(poll);
      while shared.ring.Length - (localProducer - seen) < spaceNeeded
        invariant poll <= patience && seen == observed(poll)
        decreases patience - poll
      {
        poll := poll + 1;
        seen := observed(poll);
      }
      CopyIntoRing(shared.ring, localProducer, staging, spaceNeeded);
      localProducer := localProducer + spaceNeeded;
      shared.producer := localProducer;
      stagingOffset := 0;
    }

    /** Stage one command, padded to sixteen bytes, flushing first if it does not fit. */
    method WriteCommand(payload: seq<byte>, observed: nat -> nat, ghost patience: nat) returns (ok: bool, seen: nat)
      requires Valid() && |payload| <= STAGING_SIZE
      requires sharedMemoryValid && Overflows(payload) ==> MakesRoom(observed, patience)
      modifies this`stagingOffset, this`localProducer, this`commandsSubmitted, staging
      modifies shared`producer, shared.ring
      ensures Valid() && ok == (HEADER_SIZE <= |payload|)
      ensures !ok ==>
        Staged() == old(Staged()) && commandsSubmitted == old(commandsSubmitted)
      ensures ok ==> commandsSubmitted == old(commandsSubmitted) + 1
      ensures var flushes := old(Overflows(payload));
        && (ok ==> Staged() == (if flushes then [] else old(Staged())) + Pad(payload))
        && (flushes && sharedMemoryValid ==>
              && seen <= old(localProducer) && localProducer <= seen + shared.ring.Length
              && (exists k: nat :: seen == observed(k))
              && Written(old(shared.ring[..]), shared.ring[..], old(localProducer), old(Staged()))
              && localProducer == old(localProducer) + |old(Staged())| == shared.producer)
        && (!flushes || !sharedMemoryValid ==>
              localProducer == old(localProducer) && shared.producer == old(shared.producer)
              && shared.ring[..] == old(shared.ring[..]))
    {
      seen := 0;
      if |payload| < HEADER_SIZE {
        return false, seen;
      }
      var alignedSize := Align16(|payload|);
      if STAGING_SIZE < stagingOffset + alignedSize {
        seen := FlushCommandBuffer(observed, patience);
      }
      Stage(payload);
      commandsSubmitted := commandsSubmitted + 1;
      ok := true;
    }

    /** Copy one command behind the staged bytes and zero its padding. */
    method Stage(payload: seq<byte>)
      requires Valid() && stagingOffset + Align16(|payload|) <= STAGING_SIZE
      modifies this`stagingOffset, staging
      ensures Valid() && Staged() == old(Staged()) + Pad(payload)
    {
      var start, aligned := stagingOffset, Align16(|payload|);
      var padded := Pad(payload);
      forall k | 0 <= k < |payload| {
        staging[start + k] := payload[k];
      }
      forall k | |payload| <= k < aligned {
        staging[start + k] := 0;
      }
      stagingOffset := start + aligned;
      assert staging[..start] == old(staging[..start]);
      assert forall k | 0 <= k < aligned :: staging[start..stagingOffset][k] == padded[k];
      assert staging[start..stagingOffset] == padded;
      assert Staged() == staging[..start] + staging[start..stagingOffset];
    }
  }

  /** The kernel-mode driver submits straight into the ring, from the shared producer pointer, or
      reports that there is no room. */
  method SubmitToRing(shared: SharedMemory, data: array<byte>) returns (ok: bool)
    requires 0 < shared.ring.Length && data != shared.ring
    requires shared.consumer <= shared.producer <= shared.consumer + shared.ring.Length
    modifies shared`producer, shared.ring
    ensures ok <==> old(shared.producer) + data.Length <= shared.consumer + shared.ring.Length
    ensures ok ==>
      && Written(old(shared.ring[..]), shared.ring[..], old(shared.producer), data[..])
      && shared.producer == old(shared.producer) + data.Length
      && shared.Unread() == old(shared.Unread()) + data[..]
    ensures !ok ==> shared.producer == old(shared.producer) && shared.ring[..] == old(shared.ring[..])
  {
    var available := shared.ring.Length - (shared.producer - shared.consumer);
    if available < data.Length {
      return false;
    }
    CopyIntoRing(shared.ring, shared.producer, data, data.Length);
    assert data[..data.Length] == data[..];
    WriteAppends(old(shared.ring[..]), shared.ring[..], shared.consumer, shared.producer, data[..]);
    shared.producer := shared.producer + data.Length;
    return true;
  }
}
