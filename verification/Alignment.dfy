/** What becomes of an alignment above the block size. The allocator rounds the number of the first
    block up, counted from the start of the heap, but the heap does not start on such a boundary. */
module Alignment {
  import opened Wrappers
  import opened Arithmetic
  import opened Heap
  import opened HeapHistory
  import opened Layout

  function Pow2(j: nat): (r: nat)
    ensures 0 < r
  {
    if j == 0 then 1 else 2 * Pow2(j - 1)
  }

  lemma {:induction false} AndNotZero(x: nat)
    ensures AndNot(x, 0) == x
  {
    if x > 0 {
      AndNotZero(x / 2);
    }
  }

  /** Clearing the low bits is rounding down to a power of two. */
  lemma {:induction false} AndNotRounds(x: nat, j: nat)
    ensures AndNot(x, Pow2(j) - 1) == x - x % Pow2(j)
  {
    if j == 0 {
      AndNotZero(x);
    } else if x > 0 {
      var p := Pow2(j - 1);
      assert (2 * p - 1) / 2 == p - 1 && (2 * p - 1) % 2 == 1;
      AndNotRounds(x / 2, j - 1);
      HalvedRemainder(x, p);
    } else {
      DivideUniquely(0, Pow2(j), 0, 0);
    }
  }

  lemma RoundedDown(start: nat, k: nat)
    requires 0 < k
    ensures var x := start + k - 1; var a := x - x % k;
      a % k == 0 && start <= a < start + k && (start % k == 0 ==> a == start)
  {
    var x := start + k - 1;
    var q := x / k;
    assert x - x % k == q * k;
    MultipleOf(q, k);
    if start % k == 0 {
      assert start == (start / k) * k;
      DivideUniquely(x, k, start / k, k - 1);
    }
  }

  lemma AlignedStartIs(start: nat, k: nat)
    requires 0 < k && start + k <= WORD
    ensures AlignedStart(start, k) == AndNot(start + k - 1, k - 1)
  {
    assert (start + k - 1) % WORD == start + k - 1;
  }

  /** The rounded block number is the least multiple at or after start. */
  lemma AlignedStartRounds(start: nat, j: nat)
    requires start + Pow2(j) <= WORD
    ensures var k := Pow2(j); var a := AlignedStart(start, k);
      a % k == 0 && start <= a < start + k && (start % k == 0 ==> a == start)
  {
    AlignedStartIs(start, Pow2(j));
    AndNotRounds(start + Pow2(j) - 1, j);
    RoundedDown(start, Pow2(j));
  }

  predicate AlignedTo(offset: nat, blocks: nat)
    requires 0 < blocks
  {
    offset % (blocks * BLOCK_SIZE) == 0
  }

  /** A returned offset meets an alignment of some blocks exactly if its block number, counted
      from the start of shared memory, is a multiple of them. */
  lemma AlignedExactly(s: State, start: nat, n: nat, blocks: nat)
    requires 0 < blocks && s.offset % BLOCK_SIZE == 0
    ensures AlignedTo(RangeAt(s, start, n).offset, blocks) <==> (s.offset / BLOCK_SIZE + start) % blocks == 0
  {
    var m := s.offset / BLOCK_SIZE + start;
    assert RangeAt(s, start, n).offset == m * BLOCK_SIZE;
    ScaledRemainder(m, blocks, BLOCK_SIZE);
  }

  /** Behind an odd start a multiple of an even number is no such multiple. */
  lemma OddStart(m: nat, p: nat)
    requires 0 < p && m % (2 * p) == 0
    ensures (4097 + m) % (2 * p) != 0
  {
    HalvedRemainder(m, p);
    HalvedRemainder(4097 + m, p);
  }

  predicate RealHeap(s: State) {
    s.offset == CONTROL_SIZE + RING_SIZE && |s.bits| <= MAX_BLOCKS
  }

  lemma MisalignedAt(s: State, start: nat, n: nat, p: nat)
    requires RealHeap(s) && 0 < p && start % (2 * p) == 0
    ensures !AlignedTo(RangeAt(s, start, n).offset, 2 * p)
  {
    OddStart(start, p);
    AlignedExactly(s, start, n, 2 * p);
  }

  lemma PlaceRounds(bits: seq<bool>, n: nat, k: nat, first: nat)
    requires 1 < k && k * BLOCK_SIZE < WORD && FirstFit(bits, n, 0) == Some(first)
    requires RunOf(bits, AlignedStart(first, k), n, false)
    ensures Place(bits, n, k * BLOCK_SIZE) == Some(AlignedStart(first, k))
  {
    var a := AlignedStart(first, k);
    assert FirstFit(bits, n, a) == Some(a);
    assert k * BLOCK_SIZE / BLOCK_SIZE == k;
  }

  /** In a heap of the device's layout, a request for any power of two of blocks above one is
      misaligned whenever the rounding works as intended, that is, whenever the run at the
      rounded first fit is clear. */
  lemma RoundingMisaligns(s: State, n: nat, j: nat)
    requires RealHeap(s) && 1 <= j && Pow2(j) * BLOCK_SIZE < WORD
    requires var first := FirstFit(s.bits, n, 0);
      first.Some? && RunOf(s.bits, AlignedStart(first.value, Pow2(j)), n, false)
    ensures var place := Place(s.bits, n, Pow2(j) * BLOCK_SIZE);
      place.Some? && !AlignedTo(RangeAt(s, place.value, n).offset, Pow2(j))
  {
    var k, first := Pow2(j), FirstFit(s.bits, n, 0).value;
    AlignedStartRounds(first, j);
    PlaceRounds(s.bits, n, k, first);
    MisalignedAt(s, AlignedStart(first, k), n, Pow2(j - 1));
  }

  /** So for the device's layout a request that can be placed at all is aligned exactly if the run
      at the rounded first fit is taken and the second search happens to land on a block whose
      number from the start of shared memory is a multiple. */
  lemma AlignedRequests(s: State, n: nat, j: nat)
    requires RealHeap(s) && 1 <= j && Pow2(j) * BLOCK_SIZE < WORD && FirstFit(s.bits, n, 0).Some?
    ensures var first := FirstFit(s.bits, n, 0).value; var place := Place(s.bits, n, Pow2(j) * BLOCK_SIZE);
      && place.Some?
      && (AlignedTo(RangeAt(s, place.value, n).offset, Pow2(j))
          <==> !RunOf(s.bits, AlignedStart(first, Pow2(j)), n, false) && (4097 + place.value) % Pow2(j) == 0)
  {
    var first, place := FirstFit(s.bits, n, 0).value, Place(s.bits, n, Pow2(j) * BLOCK_SIZE);
    assert RunOf(s.bits, first, n, false);
    if RunOf(s.bits, AlignedStart(first, Pow2(j)), n, false) {
      RoundingMisaligns(s, n, j);
    } else {
      AlignedExactly(s, place.value, n, Pow2(j));
    }
  }

  /** The very first request to a new heap shows it, for every size and every such alignment. */
  lemma FirstRequestMisaligned(shmemSize: nat, size: nat, j: nat)
    requires Realizes(shmemSize) && Reasonable(size) && BlocksFor(size) <= MAX_BLOCKS
    requires 1 <= j && Pow2(j) * BLOCK_SIZE < WORD
    ensures var l := InitShmem(shmemSize); var h := HeapOf(l, [Allocate(size, Pow2(j) * BLOCK_SIZE)]);
      h.live == [Live(0, size)] && !AlignedTo(RangeAt(h.heap, 0, BlocksFor(size)).offset, Pow2(j))
  {
    AlignedStartRounds(0, j);
    DivideUniquely(0, Pow2(j), 0, 0);
    FirstMisaligned(InitShmem(shmemSize), size, Pow2(j), Pow2(j - 1));
  }

  lemma FirstMisaligned(l: Layout, size: nat, k: nat, p: nat)
    requires l.heapOffset == CONTROL_SIZE + RING_SIZE && MAX_BLOCKS * BLOCK_SIZE <= l.heapSize
    requires Reasonable(size) && BlocksFor(size) <= MAX_BLOCKS
    requires 0 < p && k == 2 * p && k * BLOCK_SIZE < WORD && AlignedStart(0, k) == 0
    ensures var h := HeapOf(l, [Allocate(size, k * BLOCK_SIZE)]);
      h.live == [Live(0, size)] && !AlignedTo(RangeAt(h.heap, 0, BlocksFor(size)).offset, k)
  {
    var s, n := Init(l.heapOffset, l.heapSize), BlocksFor(size);
    FreshPlace(s.bits, n, k);
    FirstAllocation(l, size, k * BLOCK_SIZE);
    DivideUniquely(0, k, 0, 0);
    MisalignedAt(s, 0, n, p);
  }

  lemma FreshPlace(bits: seq<bool>, n: nat, k: nat)
    requires n <= |bits| && RunOf(bits, 0, |bits|, false)
    requires 1 < k && k * BLOCK_SIZE < WORD && AlignedStart(0, k) == 0
    ensures Place(bits, n, k * BLOCK_SIZE) == Some(0)
  {
    assert RunOf(bits, 0, n, false);
    assert FirstFit(bits, n, 0) == Some(0);
    PlaceRounds(bits, n, k, 0);
  }

  lemma FirstAllocation(l: Layout, size: nat, alignment: nat)
    requires Reasonable(size) && alignment < WORD && BlocksFor(size) <= l.heapSize / BLOCK_SIZE
    requires Place(Init(l.heapOffset, l.heapSize).bits, BlocksFor(size), alignment) == Some(0)
    ensures HeapOf(l, [Allocate(size, alignment)])
         == History(Take(Init(l.heapOffset, l.heapSize), 0, BlocksFor(size)), [Live(0, size)])
  {
    var op := Allocate(size, alignment);
    assert [op][..0] == [];
    assert HeapHistory.After(l.heapOffset, l.heapSize, [op])
        == Step(HeapHistory.After(l.heapOffset, l.heapSize, []), op);
  }
}
