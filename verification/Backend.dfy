/** The backend process: its drain loop over the shared memory, proved to make exactly the turns
    of the batch model. */
module Backend {
  import opened Wrappers
  import opened Bytes
  import opened Framing
  import opened Ring
  import opened Driver
  import opened Transport
  import opened Drain

  class CommandLoop {
    const shmem: SharedMemory
    var currentFence: nat
    var lastIrqFence: nat
    var irqs: nat

    constructor (shmem: SharedMemory)
      ensures this.shmem == shmem && currentFence == 0 && lastIrqFence == 0 && irqs == 0
    {
      this.shmem := shmem;
      currentFence, lastIrqFence, irqs := 0, 0, 0;
    }

    predicate Valid()
      reads this, shmem
    {
      && 0 < shmem.ring.Length
      && shmem.consumer <= shmem.producer <= shmem.consumer + shmem.ring.Length
    }

    /** The state of the loop as the batch model sees it. */
    function View(processed: nat, handled: seq<seq<byte>>, end: Option<End>): Batch
      requires 0 < shmem.ring.Length
      reads this, shmem, shmem.ring
    {
      Batch(shmem.Unread(), shmem.consumer, processed, handled,
            currentFence, shmem.hostFenceCompleted, lastIrqFence, irqs, end)
    }

    /** The guest's attempt to publish before a poll. */
    method GuestPublishes(w: World, turn: nat)
      requires Valid() && shmem.ring.Length == w.size
      modifies shmem`producer, shmem.ring
      ensures Valid() && shmem.Unread() == Arrive(w, turn, old(shmem.Unread()))
    {
      var bytes := w.arrivals(turn);
      var data := new byte[|bytes|](k requires 0 <= k < |bytes| => bytes[k]);
      assert data[..] == bytes;
      var ok := SubmitToRing(shmem, data);
    }

    /** Advance over a handled command and complete a fence that is new. */
    method CompleteCommand(c: seq<byte>, processed: nat, handled: seq<seq<byte>>) returns (limit: bool)
      requires Valid() && c <= shmem.Unread()
      modifies this`currentFence, this`lastIrqFence, this`irqs, shmem`consumer, shmem`hostFenceCompleted
      ensures Valid()
      ensures View(processed + |c|, handled + [c], if limit then Some(LimitReached) else None)
           == Drain.Complete(old(View(processed, handled, None)), c)
    {
      if IsFence(c) {
        currentFence := FenceValue(c);
      }
      AdvanceDrops(shmem.ring[..], shmem.consumer, shmem.producer - shmem.consumer, |c|);
      shmem.AdvanceConsumer(|c|);
      if currentFence > lastIrqFence {
        shmem.CompleteFence(currentFence);
        lastIrqFence := currentFence;
        irqs := irqs + 1;
      }
      limit := processed + |c| > BATCH_LIMIT;
    }

    /** Hand one command to its handler and follow its verdict. */
    method ProcessCommand(w: World, turn: nat, data: seq<byte>, processed: nat, handled: seq<seq<byte>>)
      returns (processed': nat, handled': seq<seq<byte>>, end: Option<End>)
      requires Valid() && data <= shmem.Unread()
      modifies this`currentFence, this`lastIrqFence, this`irqs, shmem`consumer, shmem`hostFenceCompleted
      ensures Valid()
      ensures View(processed', handled', end) == Dispatch(w, turn, old(View(processed, handled, None)), data)
    {
      processed', handled', end := processed, handled, None;
      match Take(data) {
        case TooSmall => end := Some(BadCommand);
        case TooLong => end := Some(BadCommand);
        case Taken(c) =>
          match w.handler(turn, c) {
            case Fine =>
              var limit := CompleteCommand(c, processed, handled);
              processed', handled' := processed + |c|, handled + [c];
              end := if limit then Some(LimitReached) else None;
            case ShaderCompile =>
            case OutOfMemory => end := Some(Failed(OutOfMemory));
            case Internal => end := Some(Failed(Internal));
          }
      }
    }

    /** One turn of the drain loop. */
    method DrainOnce(w: World, turn: nat, processed: nat, handled: seq<seq<byte>>)
      returns (processed': nat, handled': seq<seq<byte>>, end: Option<End>)
      requires Valid() && shmem.ring.Length == w.size
      modifies this`currentFence, this`lastIrqFence, this`irqs, shmem, shmem.ring
      ensures Valid() && View(processed', handled', end) == Turn(w, turn, old(View(processed, handled, None)))
    {
      processed', handled', end := processed, handled, None;
      GuestPublishes(w, turn);
      ghost var b := View(processed, handled, None);
      var r := shmem.ReadPendingCommands();
      HandedIsFront(b.unread, Crosses(w, b));
      if r.None? {
        end := Some(Drained);
      } else {
        processed', handled', end := ProcessCommand(w, turn, r.value.first.data, processed, handled);
      }
    }

    /** One batch: read, dispatch, advance and complete fences until nothing can be read, a
        command fails, or the limit is passed. */
    method DrainBatch(w: World, ghost ends: nat) returns (processed: nat, handled: seq<seq<byte>>, end: Option<End>)
      requires Valid() && shmem.ring.Length == w.size
      requires Turns(w, View(0, [], None), ends).end.Some?
      modifies this`currentFence, this`lastIrqFence, this`irqs, shmem, shmem.ring
      ensures Valid() && end.Some?
      ensures View(processed, handled, end) == Turns(w, old(View(0, [], None)), ends)
    {
      ghost var start := View(0, [], None);
      ghost var b := start;
      processed, handled, end := 0, [], None;
      var turn := 0;
      while end.None?
        invariant Valid() && turn <= ends
        invariant b == View(processed, handled, end) && b == Turns(w, start, turn)
        decreases ends - turn
      {
        NotYet(w, start, turn, ends);
        processed, handled, end := DrainOnce(w, turn, processed, handled);
        b := View(processed, handled, end);
        turn := turn + 1;
      }
      TurnsForward(w);
      EndedStaysEnded(LoopOf(w), start, turn, ends);
    }
  }

  lemma NotYet(w: World, start: Batch, turn: nat, ends: nat)
    requires turn <= ends && Turns(w, start, turn).end.None? && Turns(w, start, ends).end.Some?
    ensures turn < ends && Turns(w, start, turn + 1) == Turn(w, turn, Turns(w, start, turn))
  {
  }

  lemma AdvanceDrops(ring: seq<byte>, consumer: nat, pending: nat, n: nat)
    requires 0 < |ring| && n <= pending
    ensures Window(ring, consumer + n, pending - n) == Window(ring, consumer, pending)[n..]
  {
  }
}
