/** The kernel-mode driver's allocator for the shared resource heap: a bitmap with one bit per
    4 KiB block and a count of free blocks, which is taken before the number of blocks is capped. */
module Heap {
  import opened Wrappers

  const BLOCK_SIZE: nat := 0x1000
  const MAX_BLOCKS: nat := 4096
  const WORD: nat := 0x1_0000_0000

  // ---- Bitmaps ----------------------------------------------------------------------------

  /** Bits from start on, n of them, are all v. */
  predicate RunOf(bits: seq<bool>, start: nat, n: nat, v: bool) {
    start + n <= |bits| && forall k | start <= k < start + n :: bits[k] == v
  }

  function Fill(bits: seq<bool>, start: nat, n: nat, v: bool): (r: seq<bool>)
    requires start + n <= |bits|
    ensures |r| == |bits|
    ensures forall k | 0 <= k < |bits| :: r[k] == if start <= k < start + n then v else bits[k]
  {
    bits[..start] + seq(n, _ => v) + bits[start + n..]
  }

  function Clear(bits: seq<bool>): (n: nat)
    ensures n <= |bits|
  {
    if bits == [] then 0 else Clear(bits[..|bits| - 1]) + if bits[|bits| - 1] then 0 else 1
  }

  lemma {:induction false} ClearConcat(a: seq<bool>, b: seq<bool>)
    ensures Clear(a + b) == Clear(a) + Clear(b)
    decreases |b|
  {
    if b == [] {
      assert a + b == a;
    } else {
      ClearConcat(a, b[..|b| - 1]);
      assert (a + b)[..|a + b| - 1] == a + b[..|b| - 1];
    }
  }

  lemma {:induction false} ClearUniform(bits: seq<bool>, v: bool)
    requires RunOf(bits, 0, |bits|, v)
    ensures Clear(bits) == if v then 0 else |bits|
    decreases |bits|
  {
    if bits != [] {
      ClearUniform(bits[..|bits| - 1], v);
    }
  }

  /** Flipping a run of n bits moves n blocks between clear and set. */
  lemma FillMovesBlocks(bits: seq<bool>, start: nat, n: nat, v: bool)
    requires RunOf(bits, start, n, !v)
    ensures Clear(Fill(bits, start, n, v)) == if v then Clear(bits) - n else Clear(bits) + n
  {
    var a, run, b := bits[..start], bits[start..start + n], bits[start + n..];
    var filled := seq(n, _ => v);
    assert bits == a + run + b && Fill(bits, start, n, v) == a + filled + b;
    ClearConcat(a + run, b);
    ClearConcat(a, run);
    ClearConcat(a + filled, b);
    ClearConcat(a, filled);
    ClearUniform(run, !v);
    ClearUniform(filled, v);
  }

  /** The first clear run at or after from. */
  function FirstFit(bits: seq<bool>, n: nat, from: nat): (r: Option<nat>)
    ensures r.Some? ==> from <= r.value && RunOf(bits, r.value, n, false)
    ensures r.Some? ==> forall k | from <= k < r.value :: !RunOf(bits, k, n, false)
    ensures r.None? ==> forall k | from <= k :: !RunOf(bits, k, n, false)
    decreases |bits| - from
  {
    if from + n > |bits| then None
    else if RunOf(bits, from, n, false) then Some(from)
    else if from == |bits| then None
    else FirstFit(bits, n, from + 1)
  }

  /** RtlFindClearBits: the hint only says where to begin; the search then starts over. */
  function FindClearBits(bits: seq<bool>, n: nat, hint: nat): (r: Option<nat>)
    ensures r.Some? ==> RunOf(bits, r.value, n, false)
    ensures r.None? ==> forall k: nat :: !RunOf(bits, k, n, false)
  {
    var r := FirstFit(bits, n, hint);
    if r.Some? then r else FirstFit(bits, n, 0)
  }

  // ---- The allocator as a state -----------------------------------------------------------

  datatype State = State(offset: nat, size: nat, bits: seq<bool>, freeBlocks: nat)

  datatype Range = Range(offset: nat, size: nat)

  function Init(offset: nat, size: nat): State {
    var blocks := size / BLOCK_SIZE;
    State(offset, size, seq(if blocks > MAX_BLOCKS then MAX_BLOCKS else blocks, _ => false), blocks)
  }

  /** Blocks for a request, in 32-bit arithmetic. */
  function BlocksFor(size: nat): nat {
    (size + BLOCK_SIZE - 1) % WORD / BLOCK_SIZE
  }

  /** Requests whose rounding up does not wrap. */
  predicate Reasonable(size: nat) {
    1 <= size <= WORD - BLOCK_SIZE
  }

  /** The bits of x that are not bits of mask. */
  function AndNot(x: nat, mask: nat): nat {
    if x == 0 then 0 else 2 * AndNot(x / 2, mask / 2) + if x % 2 == 1 && mask % 2 == 0 then 1 else 0
  }

  /** Rounding up as the driver writes it, in 32-bit arithmetic. */
  function AlignedStart(start: nat, blocks: nat): nat
    requires 0 < blocks
  {
    AndNot((start + blocks - 1) % WORD, blocks - 1)
  }

  /** Where an allocation of n blocks goes. */
  function Place(bits: seq<bool>, n: nat, alignment: nat): (r: Option<nat>)
    requires alignment < WORD
    ensures r.Some? ==> RunOf(bits, r.value, n, false)
    ensures r.None? ==> forall k: nat :: !RunOf(bits, k, n, false)
  {
    var alignmentBlocks := if alignment > BLOCK_SIZE then alignment / BLOCK_SIZE else 1;
    var start :- FindClearBits(bits, n, 0);
    if alignmentBlocks > 1 && AlignedStart(start, alignmentBlocks) != start then
      FindClearBits(bits, n, AlignedStart(start, alignmentBlocks))
    else Some(start)
  }

  function BlockAt(s: State, offset: nat): nat
    requires s.offset <= offset
  {
    (offset - s.offset) / BLOCK_SIZE
  }

  /** The allocator's own limits: everything fits 32 bits, and the free count covers the bitmap. */
  predicate Valid(s: State) {
    && s.offset + s.size < WORD && |s.bits| <= MAX_BLOCKS && |s.bits| * BLOCK_SIZE <= s.size
    && Clear(s.bits) <= s.freeBlocks
  }

  /** Set a clear run. */
  function Take(s: State, start: nat, n: nat): State
    requires RunOf(s.bits, start, n, false) && n <= s.freeBlocks
  {
    s.(bits := Fill(s.bits, start, n, true), freeBlocks := s.freeBlocks - n)
  }

  /** Clear a range, whether or not all of it was set. */
  function Release(s: State, start: nat, n: nat): State
    requires start + n <= |s.bits|
  {
    s.(bits := Fill(s.bits, start, n, false), freeBlocks := s.freeBlocks + n)
  }

  /** The free count never underflows, and it follows the bitmap: free blocks minus clear bits
      stay what they were. */
  lemma TakeKeepsBalance(s: State, start: nat, n: nat)
    requires Valid(s) && RunOf(s.bits, start, n, false)
    ensures n <= Clear(s.bits) <= s.freeBlocks && Valid(Take(s, start, n))
    ensures Take(s, start, n).freeBlocks - Clear(Take(s, start, n).bits) == s.freeBlocks - Clear(s.bits)
  {
    FillMovesBlocks(s.bits, start, n, true);
  }

  lemma ReleaseKeepsBalance(s: State, start: nat, n: nat)
    requires Valid(s) && RunOf(s.bits, start, n, true)
    ensures Valid(Release(s, start, n))
    ensures Release(s, start, n).freeBlocks - Clear(Release(s, start, n).bits) == s.freeBlocks - Clear(s.bits)
  {
    FillMovesBlocks(s.bits, start, n, false);
  }

  /** Clearing n bits frees at most n blocks. */
  lemma {:induction false} ClearGrows(a: seq<bool>, b: seq<bool>)
    requires |a| == |b| && forall k | 0 <= k < |a| :: b[k] ==> a[k]
    ensures Clear(a) <= Clear(b)
    decreases |a|
  {
    if a != [] {
      ClearGrows(a[..|a| - 1], b[..|b| - 1]);
    }
  }

  lemma ReleaseKeepsValid(s: State, start: nat, n: nat)
    requires Valid(s) && start + n <= |s.bits|
    ensures Valid(Release(s, start, n))
  {
    var full := Fill(s.bits, start, n, true);
    ClearGrows(full, s.bits);
    FillMovesBlocks(full, start, n, false);
    assert Fill(full, start, n, false) == Fill(s.bits, start, n, false);
  }

  lemma ReleaseUndoesTake(s: State, start: nat, n: nat)
    requires RunOf(s.bits, start, n, false) && n <= s.freeBlocks
    ensures RunOf(Take(s, start, n).bits, start, n, true) && Release(Take(s, start, n), start, n) == s
  {
    assert Fill(Fill(s.bits, start, n, true), start, n, false) == s.bits;
  }

  /** The blocks of a request cover it, with less than one block to spare. */
  lemma BlocksCover(size: nat)
    requires Reasonable(size)
    ensures 1 <= BlocksFor(size) && size <= BlocksFor(size) * BLOCK_SIZE < size + BLOCK_SIZE
  {
  }

  function RangeAt(s: State, start: nat, n: nat): Range {
    Range(s.offset + start * BLOCK_SIZE, n * BLOCK_SIZE)
  }

  lemma BlockOfRange(s: State, start: nat, n: nat)
    ensures BlockAt(s, RangeAt(s, start, n).offset) == start
  {
  }

  /** Free by offset and requested size: None when the range is refused. */
  function FreeAt(s: State, offset: nat, size: nat): Option<State> {
    if offset < s.offset || offset >= s.offset + s.size then None
    else if BlockAt(s, offset) + BlocksFor(size) > |s.bits| then None
    else Some(Release(s, BlockAt(s, offset), BlocksFor(size)))
  }

  /** Freeing by the offset that an allocation returned clears the blocks it took. */
  lemma FreeFindsRange(s: State, start: nat, size: nat)
    requires Valid(s) && Reasonable(size) && start + BlocksFor(size) <= |s.bits|
    ensures FreeAt(s, RangeAt(s, start, BlocksFor(size)).offset, size) == Some(Release(s, start, BlocksFor(size)))
  {
    BlockOfRange(s, start, BlocksFor(size));
    BlocksCover(size);
  }

  // ---- The driver's object ----------------------------------------------------------------

  class HeapAllocator {
    const heapOffset: nat
    const heapSize: nat
    const bitmap: array<bool>
    var freeBlocks: nat

    constructor (heapOffset: nat, heapSize: nat)
      requires heapOffset + heapSize < WORD
      ensures fresh(bitmap) && View() == Init(heapOffset, heapSize) && Valid(View())
    {
      this.heapOffset, this.heapSize := heapOffset, heapSize;
      var numBlocks := heapSize / BLOCK_SIZE;
      freeBlocks := numBlocks;
      if numBlocks > MAX_BLOCKS {
        numBlocks := MAX_BLOCKS;
      }
      bitmap := new bool[numBlocks](_ => false);
      new;
      assert bitmap[..] == Init(heapOffset, heapSize).bits;
      ClearUniform(bitmap[..], false);
    }

    function View(): State
      reads this, bitmap
    {
      State(heapOffset, heapSize, bitmap[..], freeBlocks)
    }

    /** RtlSetBits and RtlClearBits. */
    method PutBits(start: nat, n: nat, v: bool)
      requires start + n <= bitmap.Length
      modifies bitmap
      ensures bitmap[..] == Fill(old(bitmap[..]), start, n, v)
    {
      var k := 0;
      while k < n
        invariant k <= n && bitmap[..] == Fill(old(bitmap[..]), start, k, v)
      {
        bitmap[start + k] := v;
        k := k + 1;
      }
    }

    /** Allocate: take the blocks of a clear run, or fail because there is none. */
    method Alloc(size: nat, alignment: nat) returns (r: Option<Range>)
      requires Valid(View()) && Reasonable(size) && alignment < WORD
      modifies this`freeBlocks, bitmap
      ensures Valid(View())
      ensures r.None? <==> forall k: nat :: !RunOf(old(bitmap[..]), k, BlocksFor(size), false)
      ensures r.None? ==> View() == old(View())
      ensures var place := Place(old(bitmap[..]), BlocksFor(size), alignment);
        r.Some? ==>
          && place.Some? && BlocksFor(size) <= old(freeBlocks)
          && r.value == RangeAt(View(), place.value, BlocksFor(size))
          && View() == Take(old(View()), place.value, BlocksFor(size))
    {
      var blocksNeeded := BlocksFor(size);
      var place := Place(bitmap[..], blocksNeeded, alignment);
      if place.None? {
        return None;
      }
      var start := place.value;
      TakeKeepsBalance(View(), start, blocksNeeded);
      PutBits(start, blocksNeeded, true);
      freeBlocks := freeBlocks - blocksNeeded;
      assert View() == Take(old(View()), start, blocksNeeded);
      r := Some(Range(heapOffset + start * BLOCK_SIZE, blocksNeeded * BLOCK_SIZE));
    }

    /** Free a range: clear its blocks, unless it lies outside the heap. Nothing checks that they
        were allocated. */
    method Free(offset: nat, size: nat) returns (ok: bool)
      requires Valid(View())
      modifies this`freeBlocks, bitmap
      ensures Valid(View())
      ensures ok <==> FreeAt(old(View()), offset, size).Some?
      ensures View() == FreeAt(old(View()), offset, size).GetOr(old(View()))
    {
      if offset < heapOffset || offset >= heapOffset + heapSize {
        return false;
      }
      var start := (offset - heapOffset) / BLOCK_SIZE;
      var numBlocks := BlocksFor(size);
      if start + numBlocks > bitmap.Length {
        return false;
      }
      ReleaseKeepsValid(View(), start, numBlocks);
      PutBits(start, numBlocks, false);
      freeBlocks := freeBlocks + numBlocks;
      assert View() == Release(old(View()), start, numBlocks);
      return true;
    }
  }
}
