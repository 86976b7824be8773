/** The heap over any sequence of allocations and matching frees. */
module HeapHistory {
  import opened Heap
  import opened Arithmetic

  /** A live allocation: where it starts and how much was asked for. */
  datatype Live = Live(start: nat, size: nat)

  datatype History = History(heap: State, live: seq<Live>)

  /** A request, or the free of the k-th live allocation with the size it was requested with. */
  datatype Op = Allocate(size: nat, alignment: nat) | Free(k: nat)

  predicate OpOk(op: Op) {
    op.Allocate? ==> Reasonable(op.size) && op.alignment < WORD
  }

  function Blocks(l: Live): nat {
    BlocksFor(l.size)
  }

  predicate Covers(l: Live, block: int) {
    l.start <= block < l.start + Blocks(l)
  }

  predicate LiveOk(h: History, i: nat)
    requires i < |h.live|
  {
    Reasonable(h.live[i].size) && RunOf(h.heap.bits, h.live[i].start, Blocks(h.live[i]), true)
  }

  predicate Apart(a: Live, b: Live) {
    a.start + Blocks(a) <= b.start || b.start + Blocks(b) <= a.start
  }

  ghost predicate Inv(h: History) {
    && Valid(h.heap)
    && (forall i: nat | i < |h.live| :: LiveOk(h, i))
    && (forall i, j | 0 <= i < j < |h.live| :: Apart(h.live[i], h.live[j]))
    && (forall block | 0 <= block < |h.heap.bits| && h.heap.bits[block] ::
          exists i :: 0 <= i < |h.live| && Covers(h.live[i], block))
  }

  function Step(h: History, op: Op): History {
    match op
    case Allocate(size, alignment) =>
      if !OpOk(op) then h else
        var start := Place(h.heap.bits, BlocksFor(size), alignment);
        if start.None? || h.heap.freeBlocks < BlocksFor(size) then h
        else History(Take(h.heap, start.value, BlocksFor(size)), h.live + [Live(start.value, size)])
    case Free(k) =>
      if k >= |h.live| then h
      else
        var freed := FreeAt(h.heap, RangeAt(h.heap, h.live[k].start, Blocks(h.live[k])).offset, h.live[k].size);
        if freed.None? then h else History(freed.value, h.live[..k] + h.live[k + 1..])
  }

  function After(offset: nat, size: nat, ops: seq<Op>): History {
    if ops == [] then History(Init(offset, size), []) else
      Step(After(offset, size, ops[..|ops| - 1]), ops[|ops| - 1])
  }

  lemma AllocateKeeps(h: History, size: nat, alignment: nat)
    requires Inv(h) && OpOk(Allocate(size, alignment))
    ensures Inv(Step(h, Allocate(size, alignment)))
  {
    var t := Step(h, Allocate(size, alignment));
    if t != h {
      var l := t.live[|h.live|];
      TakeKeepsBalance(h.heap, l.start, Blocks(l));
      BlocksCover(size);
      forall i: nat | i < |t.live| ensures LiveOk(t, i) && (i < |h.live| ==> Apart(h.live[i], l)) {
        if i < |h.live| {
          StaysApart(h, l, i);
        }
      }
      forall block | 0 <= block < |t.heap.bits| && t.heap.bits[block]
        ensures exists i :: 0 <= i < |t.live| && Covers(t.live[i], block)
      {
        if Covers(l, block) {
          assert Covers(t.live[|h.live|], block);
        } else {
          var i :| 0 <= i < |h.live| && Covers(h.live[i], block);
          assert Covers(t.live[i], block);
        }
      }
    }
  }

  /** A clear run lies apart from every live allocation. */
  lemma StaysApart(h: History, l: Live, i: nat)
    requires i < |h.live| && LiveOk(h, i) && Reasonable(l.size) && RunOf(h.heap.bits, l.start, Blocks(l), false)
    ensures Apart(h.live[i], l)
  {
    BlocksCover(l.size);
    BlocksCover(h.live[i].size);
    assert h.heap.bits[h.live[i].start] && !h.heap.bits[l.start];
  }

  /** The free of a live allocation is never refused. */
  lemma FreeReleases(h: History, k: nat)
    requires Valid(h.heap) && k < |h.live| && LiveOk(h, k)
    ensures Step(h, Free(k))
         == History(Release(h.heap, h.live[k].start, Blocks(h.live[k])), h.live[..k] + h.live[k + 1..])
  {
    FreeFindsRange(h.heap, h.live[k].start, h.live[k].size);
  }

  lemma FreeKeeps(h: History, k: nat)
    requires Inv(h)
    ensures Inv(Step(h, Free(k)))
  {
    if k < |h.live| {
      assert LiveOk(h, k);
      FreeReleases(h, k);
      var t, l := Step(h, Free(k)), h.live[k];
      ReleaseKeepsBalance(h.heap, l.start, Blocks(l));
      forall i: nat | i < |t.live| ensures LiveOk(t, i) {
        OthersStayLive(h, k, t, i);
      }
      forall block | 0 <= block < |t.heap.bits| && t.heap.bits[block]
        ensures exists i :: 0 <= i < |t.live| && Covers(t.live[i], block)
      {
        StaysCovered(h, k, t, block);
      }
    }
  }

  /** What remains when allocation k is taken out and its blocks are cleared. */
  predicate Without(h: History, k: nat, t: History)
    requires k < |h.live|
  {
    && RunOf(h.heap.bits, h.live[k].start, Blocks(h.live[k]), true)
    && t.heap.bits == Fill(h.heap.bits, h.live[k].start, Blocks(h.live[k]), false)
    && t.live == h.live[..k] + h.live[k + 1..]
  }

  lemma OthersStayLive(h: History, k: nat, t: History, i: nat)
    requires Inv(h) && k < |h.live| && Without(h, k, t) && i < |t.live|
    ensures LiveOk(t, i)
  {
    var j := if i < k then i else i + 1;
    assert LiveOk(h, k) && LiveOk(h, j);
    assert Apart(h.live[if i < k then j else k], h.live[if i < k then k else j]);
    assert t.live[i] == h.live[j];
  }

  lemma StaysCovered(h: History, k: nat, t: History, block: nat)
    requires Inv(h) && k < |h.live| && Without(h, k, t) && block < |t.heap.bits| && t.heap.bits[block]
    ensures exists i :: 0 <= i < |t.live| && Covers(t.live[i], block)
  {
    assert h.heap.bits[block] && !Covers(h.live[k], block);
    var j :| 0 <= j < |h.live| && Covers(h.live[j], block);
    var i := if j < k then j else j - 1;
    assert t.live[i] == h.live[j];
  }

  lemma InitKeeps(offset: nat, size: nat)
    requires offset + size < WORD
    ensures Inv(History(Init(offset, size), []))
    ensures Clear(Init(offset, size).bits) == |Init(offset, size).bits|
  {
    ClearUniform(Init(offset, size).bits, false);
  }

  predicate OpsOk(ops: seq<Op>) {
    forall i | 0 <= i < |ops| :: OpOk(ops[i])
  }

  /** What the free count exceeds the clear bits by: the blocks beyond the capped bitmap. */
  function Beyond(size: nat): nat {
    size / BLOCK_SIZE - |Init(0, size).bits|
  }

  /** Over any sequence of requests and matching frees: live allocations are apart and their
      blocks are exactly the set bits; free blocks minus clear bits never changes. */
  lemma {:induction false} LiveRangesAreExact(offset: nat, size: nat, ops: seq<Op>)
    requires offset + size < WORD && OpsOk(ops)
    ensures var h := After(offset, size, ops);
      && Inv(h) && h.heap.offset == offset && h.heap.size == size && |h.heap.bits| == |Init(offset, size).bits|
      && h.heap.freeBlocks - Clear(h.heap.bits) == Beyond(size)
    decreases |ops|
  {
    if ops == [] {
      InitKeeps(offset, size);
    } else {
      var front, last := ops[..|ops| - 1], ops[|ops| - 1];
      LiveRangesAreExact(offset, size, front);
      var h := After(offset, size, front);
      match last
      case Allocate(s, a) =>
        AllocateKeeps(h, s, a);
        var start := Place(h.heap.bits, BlocksFor(s), a);
        if start.Some? {
          TakeKeepsBalance(h.heap, start.value, BlocksFor(s));
        }
      case Free(k) =>
        FreeKeeps(h, k);
        if k < |h.live| {
          assert LiveOk(h, k);
          FreeReleases(h, k);
          ReleaseKeepsBalance(h.heap, h.live[k].start, Blocks(h.live[k]));
        }
    }
  }

  /** A request fails exactly if no clear run is long enough, whatever its alignment, and a
      request that is freed at once leaves the heap as it was. */
  lemma AllocateThenFree(offset: nat, size: nat, ops: seq<Op>, request: nat, alignment: nat)
    requires offset + size < WORD && OpsOk(ops) && OpOk(Allocate(request, alignment))
    ensures var h := After(offset, size, ops); var t := Step(h, Allocate(request, alignment));
      && (t == h <==> forall k: nat :: !RunOf(h.heap.bits, k, BlocksFor(request), false))
      && (t != h ==> |t.live| == |h.live| + 1 && Step(t, Free(|h.live|)) == h)
  {
    LiveRangesAreExact(offset, size, ops);
    var h := After(offset, size, ops);
    if Place(h.heap.bits, BlocksFor(request), alignment).Some? {
      FreeUndoes(h, request, alignment);
    }
  }

  lemma FreeUndoes(h: History, request: nat, alignment: nat)
    requires Inv(h) && OpOk(Allocate(request, alignment))
    requires Place(h.heap.bits, BlocksFor(request), alignment).Some?
    ensures var t := Step(h, Allocate(request, alignment));
      t != h && |t.live| == |h.live| + 1 && Step(t, Free(|h.live|)) == h
  {
    var start, n := Place(h.heap.bits, BlocksFor(request), alignment).value, BlocksFor(request);
    TakeKeepsBalance(h.heap, start, n);
    ReleaseUndoesTake(h.heap, start, n);
    var t := History(Take(h.heap, start, n), h.live + [Live(start, request)]);
    assert t == Step(h, Allocate(request, alignment));
    assert LiveOk(t, |h.live|);
    FreeReleases(t, |h.live|);
    assert t.live[..|h.live|] + t.live[|h.live| + 1..] == h.live;
  }

  // ---- Alignment --------------------------------------------------------------------------

  /** Alignments up to the block size that divide it are met when the heap starts on a block. */
  lemma SmallAlignmentsHold(s: State, start: nat, n: nat, alignment: nat)
    requires 0 < alignment && BLOCK_SIZE % alignment == 0 && s.offset % BLOCK_SIZE == 0
    ensures RangeAt(s, start, n).offset % alignment == 0
  {
    var blocks := s.offset / BLOCK_SIZE + start;
    var per := BLOCK_SIZE / alignment;
    assert RangeAt(s, start, n).offset == blocks * BLOCK_SIZE == (blocks * per) * alignment;
    MultipleOf(blocks * per, alignment);
  }
}
