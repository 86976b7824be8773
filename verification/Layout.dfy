/** The layout of shared memory and what it means for heap ranges: the allocator hands out offsets
    from the start of shared memory, while both drivers and the backend add them to the start of
    the heap. */
module Layout {
  import opened Heap
  import opened HeapHistory

  const CONTROL_SIZE: nat := 0x1000
  const RING_SIZE: nat := 0x100_0000
  const MIN_SHMEM: nat := 0x400_0000

  datatype Layout = Layout(ringOffset: nat, ringSize: nat, heapOffset: nat, heapSize: nat)

  /** What the device writes into the control region, in 32-bit arithmetic. */
  function InitShmem(shmemSize: nat): Layout {
    var heapOffset := CONTROL_SIZE + RING_SIZE;
    Layout(CONTROL_SIZE, RING_SIZE, heapOffset, (shmemSize - heapOffset) % WORD)
  }

  /** The device refuses smaller shared memory. */
  predicate Realizes(shmemSize: nat) {
    MIN_SHMEM <= shmemSize < WORD
  }

  datatype Region = Control | Ring | HeapRegion

  predicate InRegion(l: Layout, region: Region, address: int) {
    match region
    case Control => 0 <= address < CONTROL_SIZE
    case Ring => l.ringOffset <= address < l.ringOffset + l.ringSize
    case HeapRegion => l.heapOffset <= address < l.heapOffset + l.heapSize
  }

  /** The three regions tile shared memory: every address lies in exactly one of them. */
  lemma RegionsTile(shmemSize: nat, address: int)
    requires Realizes(shmemSize)
    ensures var l := InitShmem(shmemSize);
      0 <= address < shmemSize <==>
        exists r: Region :: InRegion(l, r, address) && forall q: Region :: InRegion(l, q, address) ==> q == r
  {
    var l := InitShmem(shmemSize);
    if 0 <= address < shmemSize {
      var r :=
        if address < CONTROL_SIZE then Control
        else if address < CONTROL_SIZE + RING_SIZE then Ring
        else HeapRegion;
      assert InRegion(l, r, address);
    }
  }

  /** The driver's heap over this layout. */
  function HeapOf(l: Layout, ops: seq<Op>): History {
    HeapHistory.After(l.heapOffset, l.heapSize, ops)
  }

  /** Where drivers and backend put the data of a live allocation, relative to the heap: the
      allocator's offset as it stands. */
  function Applied(h: History, live: Live): Range {
    Range(RangeAt(h.heap, live.start, Blocks(live)).offset, live.size)
  }

  /** The backend's check before it reads heap data. */
  predicate BackendAccepts(l: Layout, r: Range) {
    r.offset + r.size <= l.heapSize
  }

  predicate Disjoint(a: Range, b: Range) {
    a.offset + a.size <= b.offset || b.offset + b.size <= a.offset
  }

  lemma AppliedInside(l: Layout, h: History, live: Live)
    requires l.heapOffset == CONTROL_SIZE + RING_SIZE == h.heap.offset && Reasonable(live.size)
    requires live.start + Blocks(live) <= |h.heap.bits| <= MAX_BLOCKS
    requires CONTROL_SIZE + RING_SIZE + MAX_BLOCKS * BLOCK_SIZE <= l.heapSize
    ensures BackendAccepts(l, Applied(h, live))
  {
    BlocksCover(live.size);
  }

  lemma AppliedDisjoint(h: History, a: Live, b: Live)
    requires Apart(a, b) && Reasonable(a.size) && Reasonable(b.size)
    ensures Disjoint(Applied(h, a), Applied(h, b))
  {
    BlocksCover(a.size);
    BlocksCover(b.size);
  }

  lemma HeapIsExact(shmemSize: nat, ops: seq<Op>)
    requires Realizes(shmemSize) && OpsOk(ops)
    ensures var h := HeapOf(InitShmem(shmemSize), ops);
      Inv(h) && h.heap.offset == CONTROL_SIZE + RING_SIZE && |h.heap.bits| <= MAX_BLOCKS
  {
    var l := InitShmem(shmemSize);
    LiveRangesAreExact(l.heapOffset, l.heapSize, ops);
  }

  /** With any shared memory the device accepts, after any sequence of requests and matching
      frees, the backend accepts every live range. */
  lemma LiveRangesAreAccepted(shmemSize: nat, ops: seq<Op>, i: nat)
    requires Realizes(shmemSize) && OpsOk(ops) && i < |HeapOf(InitShmem(shmemSize), ops).live|
    ensures var l := InitShmem(shmemSize); var h := HeapOf(l, ops); BackendAccepts(l, Applied(h, h.live[i]))
  {
    var l := InitShmem(shmemSize);
    var h := HeapOf(l, ops);
    HeapIsExact(shmemSize, ops);
    assert LiveOk(h, i);
    AppliedInside(l, h, h.live[i]);
  }

  /** And no two live ranges overlap. */
  lemma LiveRangesAreDisjoint(shmemSize: nat, ops: seq<Op>, i: nat, j: nat)
    requires Realizes(shmemSize) && OpsOk(ops) && i < j < |HeapOf(InitShmem(shmemSize), ops).live|
    ensures var h := HeapOf(InitShmem(shmemSize), ops); Disjoint(Applied(h, h.live[i]), Applied(h, h.live[j]))
  {
    var h := HeapOf(InitShmem(shmemSize), ops);
    HeapIsExact(shmemSize, ops);
    assert LiveOk(h, i) && LiveOk(h, j);
    AppliedDisjoint(h, h.live[i], h.live[j]);
  }

  // ---- How much of the lower bound is needed ----------------------------------------------

  /** The least shared memory in which every block is usable. */
  const USABLE_SHMEM: nat := 0x300_2000

  function BlocksOf(l: Layout): nat {
    |Heap.Init(l.heapOffset, l.heapSize).bits|
  }

  function BlockEnd(l: Layout, k: nat): nat {
    l.heapOffset + (k + 1) * BLOCK_SIZE
  }

  /** Every block, applied to the start of the heap, ends inside it. */
  predicate EveryBlockUsable(l: Layout) {
    forall k | 0 <= k < BlocksOf(l) :: BlockEnd(l, k) <= l.heapSize
  }

  /** Adding the offset of shared memory to the start of the heap is harmless exactly if shared
      memory has room for it, or there is no block to hand out. */
  lemma UsableExactly(shmemSize: nat)
    requires CONTROL_SIZE + RING_SIZE <= shmemSize < WORD
    ensures var l := InitShmem(shmemSize);
      EveryBlockUsable(l) <==> USABLE_SHMEM <= shmemSize || BlocksOf(l) == 0
  {
    var l := InitShmem(shmemSize);
    if 0 < BlocksOf(l) {
      var last := BlocksOf(l) - 1;
      assert EveryBlockUsable(l) ==> BlockEnd(l, last) <= l.heapSize;
    }
  }
}
