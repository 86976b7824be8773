/** The byte-by-byte machine against the drivers' and the backend's whole operations: undisturbed,
    the machine's flush does what FlushCommandBuffer promises, and the host's steps from one poll
    to the next make one turn of the drain loop. */
module Refinement {
  import opened Wrappers
  import opened Bytes
  import opened Ring
  import opened Driver
  import opened Transport
  import Drain

  // ---- Moves repeated ---------------------------------------------------------------------

  type Move = State -> State

  function Repeat(move: Move, s: State, n: nat): State
    decreases n
  {
    if n == 0 then s else Repeat(move, move(s), n - 1)
  }

  lemma {:induction false} RepeatAdds(move: Move, s: State, m: nat, n: nat)
    ensures Repeat(move, s, m + n) == Repeat(move, Repeat(move, s, m), n)
    decreases m
  {
    if m > 0 {
      RepeatAdds(move, move(s), m - 1, n);
    }
  }

  lemma RepeatOne(move: Move, s: State)
    ensures Repeat(move, s, 1) == move(s)
  {
    assert Repeat(move, move(s), 0) == move(s);
  }

  // ---- The guest --------------------------------------------------------------------------

  function GuestMove(): Move {
    (s: State) => if 0 < |s.ring| then GuestStep(s) else s
  }

  function GuestRun(s: State, n: nat): State {
    Repeat(GuestMove(), s, n)
  }

  /** What is left to copy after k bytes: those bytes are in the ring, other slots are untouched. */
  ghost predicate CopiedTo(before: State, s: State, k: nat)
    requires 0 < |before.ring| && !before.guest.Ready?
  {
    && k <= |before.staging| && s.guest == Copying(k, before.guest.next)
    && s == before.(ring := s.ring, guest := s.guest)
    && Written(before.ring, s.ring, before.producer, before.staging[..k])
  }

  lemma WrittenNothing(ring: seq<byte>, at: nat)
    requires 0 < |ring|
    ensures Written(ring, ring, at, [])
  {
  }

  /** One more byte behind the written ones. */
  lemma WrittenMore(before: seq<byte>, ring: seq<byte>, at: nat, data: seq<byte>, b: byte)
    requires Written(before, ring, at, data) && |data| < |before|
    ensures Written(before, ring[(at + |data|) % |ring| := b], at, data + [b])
  {
    var size, more, slot := |ring|, ring[(at + |data|) % |ring| := b], (at + |data|) % |ring|;
    forall k | 0 <= k < |data| + 1 ensures Window(more, at, |data| + 1)[k] == (data + [b])[k] {
      if k < |data| {
        SlotsDiffer(at + k, at + |data|, size);
        assert Window(ring, at, |data|)[k] == data[k];
      }
    }
    assert Window(more, at, |data| + 1) == data + [b];
    forall i | at + (|data| + 1) - size <= i < at ensures more[i % size] == before[i % size] {
      SlotsDiffer(i, at + |data|, size);
    }
  }

  lemma CopyOneMore(before: State, s: State, k: nat)
    requires 0 < |before.ring| && !before.guest.Ready? && before.localProducer == before.producer
    requires CopiedTo(before, s, k) && k < |before.staging| <= |before.ring|
    ensures CopiedTo(before, GuestStep(s), k + 1)
  {
    WrittenMore(before.ring, s.ring, before.producer, before.staging[..k], before.staging[k]);
    assert before.staging[..k] + [before.staging[k]] == before.staging[..k + 1];
  }

  lemma {:induction false} CopyRun(before: State, s: State, k: nat)
    requires 0 < |before.ring| && !before.guest.Ready? && before.localProducer == before.producer
    requires CopiedTo(before, s, k) && |before.staging| <= |before.ring|
    ensures CopiedTo(before, GuestRun(s, |before.staging| - k), |before.staging|)
    decreases |before.staging| - k
  {
    if k < |before.staging| {
      CopyOneMore(before, s, k);
      CopyRun(before, GuestStep(s), k + 1);
    }
  }

  predicate HasRoom(s: State)
    requires 0 < |s.ring|
  {
    |s.staging| <= |s.ring| - (s.localProducer - s.consumer)
  }

  /** A flush of the machine that finds room and is left alone is a flush of the driver: the staged
      bytes are written at the producer's counter and published, and the staging buffer is empty
      or holds the command that had to wait, padded. */
  lemma FlushIsFlush(s: State)
    requires Safe(s) && s.guest.Waiting? && HasRoom(s)
    ensures var t := GuestRun(s, |s.staging| + 2);
      && t.guest.Ready? && Written(s.ring, t.ring, s.producer, s.staging)
      && t.producer == t.localProducer == s.producer + |s.staging|
      && t.staging == (if s.guest.next.Some? then Pad(s.guest.next.value) else [])
      && t.consumer == s.consumer && t.host == s.host
  {
    var n := |s.staging|;
    var c := GuestStep(s);
    WrittenNothing(s.ring, s.producer);
    assert s.staging[..0] == [] && s.staging[..n] == s.staging;
    assert CopiedTo(s, c, 0);
    CopyRun(s, c, 0);
    RepeatOne(GuestMove(), s);
    RepeatAdds(GuestMove(), s, 1, n);
    var u := GuestRun(s, 1 + n);
    RepeatAdds(GuestMove(), s, 1 + n, 1);
    RepeatOne(GuestMove(), u);
    Publishes(s, u);
  }

  lemma Publishes(s: State, u: State)
    requires 0 < |s.ring| && s.guest.Waiting? && s.localProducer == s.producer && CopiedTo(s, u, |s.staging|)
    ensures var t := GuestStep(u);
      && t.guest.Ready? && t.ring == u.ring && t.producer == t.localProducer == s.producer + |s.staging|
      && t.staging == (if s.guest.next.Some? then Pad(s.guest.next.value) else [])
      && t.consumer == s.consumer && t.host == s.host
  {
  }

  /** The flush that call a begins: it ends with the waiting command staged, if there is one. */
  lemma CallFlushes(s: State, a: Action, next: Option<Command>)
    requires Safe(s) && s.guest.Ready? && HasRoom(s) && GuestCall(s, a) == s.(guest := Waiting(next))
    requires next.Some? ==> HEADER_SIZE <= |next.value|
    ensures var t := GuestRun(GuestCall(s, a), |s.staging| + 2);
      && t.guest.Ready? && Written(s.ring, t.ring, s.producer, s.staging)
      && t.producer == t.localProducer == s.producer + |s.staging|
      && t.staging == (if next.Some? then Pad(next.value) else [])
  {
    WaitSafe(s, next);
    FlushIsFlush(GuestCall(s, a));
  }

  /** A Write call of the machine, left alone, does what WriteCommand promises: a command of at least
      a header is staged padded behind the staged ones, or behind none after a flush of all of them
      exactly when it does not fit; a shorter one changes nothing. */
  lemma WriteIsWrite(s: State, c: Command)
    requires Safe(s) && s.guest.Ready? && |c| <= STAGING_SIZE && HasRoom(s)
    ensures var flushes := HEADER_SIZE <= |c| && STAGING_SIZE < |s.staging| + Align16(|c|);
      var t := GuestRun(Step(s, Write(c)), if flushes then |s.staging| + 2 else 0);
      && t.guest.Ready?
      && (|c| < HEADER_SIZE ==> t == s)
      && (HEADER_SIZE <= |c| ==> t.staging == (if flushes then [] else s.staging) + Pad(c))
      && (flushes ==>
            && Written(s.ring, t.ring, s.producer, s.staging)
            && t.producer == t.localProducer == s.producer + |s.staging|)
      && (!flushes ==> t.ring == s.ring && t.producer == s.producer && t.localProducer == s.localProducer)
  {
    if HEADER_SIZE <= |c| && STAGING_SIZE < |s.staging| + Align16(|c|) {
      CallFlushes(s, Write(c), Some(c));
    } else {
      var t := Step(s, Write(c));
      assert GuestRun(t, 0) == t;
    }
  }

  /** And a Flush call does what FlushCommandBuffer promises. */
  lemma FlushCallIsFlush(s: State)
    requires Safe(s) && s.guest.Ready? && HasRoom(s)
    ensures s.staging == [] ==> Step(s, Flush) == s
    ensures s.staging != [] ==>
      var t := GuestRun(Step(s, Flush), |s.staging| + 2);
      && t.guest.Ready? && t.staging == [] && Written(s.ring, t.ring, s.producer, s.staging)
      && t.producer == t.localProducer == s.producer + |s.staging|
  {
    if s.staging != [] {
      CallFlushes(s, Flush, None);
    }
  }

  // ---- The host ---------------------------------------------------------------------------

  function HostMove(handled: bool): Move {
    (s: State) => if 0 < |s.ring| then HostStep(s, handled) else s
  }

  /** Left alone, the host gets from s to t. */
  ghost predicate Gets(s: State, handled: bool, t: State) {
    exists n: nat :: Repeat(HostMove(handled), s, n) == t
  }

  lemma GetsNowhere(s: State, handled: bool)
    ensures Gets(s, handled, s)
  {
    assert Repeat(HostMove(handled), s, 0) == s;
  }

  lemma GetsOne(s: State, handled: bool, t: State)
    requires 0 < |s.ring| && t == HostStep(s, handled)
    ensures Gets(s, handled, t)
  {
    RepeatOne(HostMove(handled), s);
  }

  lemma GetsOn(s: State, handled: bool, t: State, u: State)
    requires Gets(s, handled, t) && Gets(t, handled, u)
    ensures Gets(s, handled, u)
  {
    var m: nat :| Repeat(HostMove(handled), s, m) == t;
    var n: nat :| Repeat(HostMove(handled), t, n) == u;
    RepeatAdds(HostMove(handled), s, m, n);
  }

  lemma WindowNext(ring: seq<byte>, from: int, k: nat)
    requires 0 < |ring|
    ensures Window(ring, from, k) + Window(ring, from + k, 1) == Window(ring, from, k + 1)
  {
  }

  lemma WindowFront(ring: seq<byte>, from: int, k: nat, n: nat)
    requires 0 < |ring| && k <= n
    ensures Window(ring, from, n)[..k] == Window(ring, from, k)
  {
  }

  /** The header is read byte by byte. */
  lemma {:induction false} HeaderGets(s: State, handled: bool, pending: nat, upTo: nat, k: nat)
    requires 0 < |s.ring| && k <= 8
    ensures Gets(s.(host := CopyHeader(pending, Window(s.ring, s.consumer, k), upTo)), handled,
                 s.(host := CopyHeader(pending, Window(s.ring, s.consumer, 8), upTo)))
    decreases 8 - k
  {
    var a := s.(host := CopyHeader(pending, Window(s.ring, s.consumer, k), upTo));
    if k == 8 {
      GetsNowhere(a, handled);
    } else {
      var b := s.(host := CopyHeader(pending, Window(s.ring, s.consumer, k + 1), upTo));
      WindowNext(s.ring, s.consumer, k);
      GetsOne(a, handled, b);
      HeaderGets(s, handled, pending, upTo, k + 1);
      GetsOn(a, handled, b, s.(host := CopyHeader(pending, Window(s.ring, s.consumer, 8), upTo)));
    }
  }

  /** And so is the command. */
  lemma {:induction false} BodyGets(s: State, handled: bool, size: nat, upTo: nat, k: nat)
    requires 0 < |s.ring| && k <= size
    ensures Gets(s.(host := CopyBody(size, Window(s.ring, s.consumer, k), upTo)), handled,
                 s.(host := CopyBody(size, Window(s.ring, s.consumer, size), upTo)))
    decreases size - k
  {
    var a := s.(host := CopyBody(size, Window(s.ring, s.consumer, k), upTo));
    if k == size {
      GetsNowhere(a, handled);
    } else {
      var b := s.(host := CopyBody(size, Window(s.ring, s.consumer, k + 1), upTo));
      WindowNext(s.ring, s.consumer, k);
      GetsOne(a, handled, b);
      BodyGets(s, handled, size, upTo, k + 1);
      GetsOn(a, handled, b, s.(host := CopyBody(size, Window(s.ring, s.consumer, size), upTo)));
    }
  }

  function Unread(s: State): (r: seq<byte>)
    requires 0 < |s.ring|
    ensures |r| == Pending(s.producer, s.consumer)
  {
    Window(s.ring, s.consumer, Pending(s.producer, s.consumer))
  }

  function Crossing(s: State): bool
    requires 0 < |s.ring|
  {
    !FitsBeforeWrap(|s.ring|, s.consumer, |Unread(s)|)
  }

  /** Where a poll leads: to the handler of the command that the reader hands over, or nowhere. */
  function Polled(s: State): State
    requires 0 < |s.ring|
  {
    var next := Next(Unread(s), Crossing(s));
    if next.Some? && next.value.Taken? then s.(host := Handling(next.value.command)) else s
  }

  lemma SliceGets(s: State, handled: bool)
    requires 0 < |s.ring| && s.host.Resting? && Unread(s) != [] && !Crossing(s)
    ensures Gets(s, handled, Polled(s))
  {
    var bytes := Unread(s);
    var a := s.(host := Slice(|bytes|, s.published));
    GetsOne(s, handled, a);
    var b := HostStep(a, handled);
    GetsOne(a, handled, b);
    GetsOn(s, handled, a, b);
    if HEADER_SIZE <= |bytes| {
      WindowFront(s.ring, s.consumer, 8, |bytes|);
      assert CommandSize(bytes[..8]) == CommandSize(bytes);
    }
    if b.host.SliceBody? {
      WindowFront(s.ring, s.consumer, b.host.size, |bytes|);
      GetsOne(b, handled, Polled(s));
      GetsOn(s, handled, b, Polled(s));
    }
  }

  lemma CopyGets(s: State, handled: bool)
    requires 0 < |s.ring| && s.host.Resting? && HEADER_SIZE <= |Unread(s)| && Crossing(s)
    ensures Gets(s, handled, Polled(s))
  {
    var bytes := Unread(s);
    var pending, upTo := |bytes|, s.published;
    var a := s.(host := CopyHeader(pending, Window(s.ring, s.consumer, 0), upTo));
    var b := s.(host := CopyHeader(pending, Window(s.ring, s.consumer, 8), upTo));
    assert Window(s.ring, s.consumer, 0) == [];
    GetsOne(s, handled, a);
    HeaderGets(s, handled, pending, upTo, 0);
    GetsOn(s, handled, a, b);
    WindowFront(s.ring, s.consumer, 8, |bytes|);
    var size := CommandSize(bytes);
    assert CommandSize(bytes[..8]) == size;
    if size > pending || size < HEADER_SIZE {
      GetsOne(b, handled, s);
      GetsOn(s, handled, b, s);
    } else {
      WrappedGets(s, handled, b, size);
    }
  }

  lemma WrappedGets(s: State, handled: bool, b: State, size: nat)
    requires 0 < |s.ring| && s.host.Resting? && HEADER_SIZE <= size <= |Unread(s)| && Crossing(s)
    requires CommandSize(Unread(s)) == size && CommandSize(Window(s.ring, s.consumer, 8)) == size
    requires b == s.(host := CopyHeader(|Unread(s)|, Window(s.ring, s.consumer, 8), s.published))
    requires Gets(s, handled, b)
    ensures Gets(s, handled, Polled(s))
  {
    var c := s.(host := CopyBody(size, Window(s.ring, s.consumer, 0), s.published));
    var d := s.(host := CopyBody(size, Window(s.ring, s.consumer, size), s.published));
    assert Window(s.ring, s.consumer, 0) == [];
    GetsOne(b, handled, c);
    BodyGets(s, handled, size, s.published, 0);
    GetsOn(s, handled, b, c);
    GetsOn(s, handled, c, d);
    WindowFront(s.ring, s.consumer, size, |Unread(s)|);
    ReadingIsPositionIndependent(Unread(s));
    GetsOne(d, handled, Polled(s));
    GetsOn(s, handled, d, Polled(s));
  }

  lemma PollGets(s: State, handled: bool)
    requires 0 < |s.ring| && s.host.Resting?
    ensures Gets(s, handled, Polled(s))
  {
    var bytes := Unread(s);
    if bytes == [] || (Crossing(s) && |bytes| < HEADER_SIZE) {
      GetsOne(s, handled, s);
    } else if Crossing(s) {
      CopyGets(s, handled);
    } else {
      SliceGets(s, handled);
    }
  }

  // ---- One turn of the drain loop ---------------------------------------------------------

  /** The machine between two polls as the drain loop sees it. */
  function BatchOf(s: State, processed: nat, end: Option<Drain.End>): Drain.Batch
    requires 0 < |s.ring|
  {
    Drain.Batch(Unread(s), s.consumer, processed, s.done, s.currentFence, s.hostFence, s.lastIrqFence, s.irqs, end)
  }

  /** The host after it handled c. */
  function Finished(s: State, c: seq<byte>): State {
    var fence := if IsFence(c) then FenceValue(c) else s.currentFence;
    var t := s.(host := Resting, done := s.done + [c], currentFence := fence, consumer := s.consumer + |c|);
    if fence > s.lastIrqFence then t.(hostFence := fence, lastIrqFence := fence, irqs := s.irqs + 1) else t
  }

  lemma HandlingGets(s: State, c: seq<byte>)
    requires 0 < |s.ring| && s.host == Handling(c)
    ensures Gets(s, true, Finished(s, c))
  {
    var a := HostStep(s, true);
    var b := HostStep(a, true);
    var d := HostStep(b, true);
    GetsOne(s, true, a);
    GetsOne(a, true, b);
    GetsOne(b, true, d);
    GetsOn(s, true, a, b);
    GetsOn(s, true, b, d);
    if d.host.Interrupting? {
      GetsOne(d, true, HostStep(d, true));
      GetsOn(s, true, d, HostStep(d, true));
    }
  }

  lemma FinishedIsComplete(s: State, c: seq<byte>, processed: nat)
    requires 0 < |s.ring| && |c| <= |Unread(s)|
    ensures var b := Drain.Complete(BatchOf(s, processed, None), c);
      BatchOf(Finished(s, c), processed + |c|, b.end) == b
  {
    var n := |Unread(s)|;
    forall k | 0 <= k < n - |c|
      ensures Window(s.ring, s.consumer + |c|, n - |c|)[k] == Window(s.ring, s.consumer, n)[|c|..][k]
    {
    }
  }

  /** The drain loop's turn by what the poll leads to. */
  lemma TurnByPoll(s: State, w: Drain.World, turn: nat, processed: nat)
    requires 0 < |s.ring| && s.host.Resting? && w.size == |s.ring| && w.arrivals(turn) == []
    ensures var before := BatchOf(s, processed, None); var after := Drain.Turn(w, turn, before);
      match Polled(s).host
      case Handling(c) =>
        |c| <= |Unread(s)|
        && after == (if w.handler(turn, c) == Drain.Fine then Drain.Complete(before, c) else before.(end := after.end))
      case _ => after == before.(end := after.end)
  {
    var before := BatchOf(s, processed, None);
    assert Unread(s) + [] == Unread(s);
    assert before.(unread := Drain.Arrive(w, turn, before.unread)) == before;
    assert Drain.Crosses(w, before) == Crossing(s);
    Drain.HandedIsFront(Unread(s), Crossing(s));
  }

  /** Left alone from one poll to the next, the host makes exactly one turn of the drain loop: it
      gets from s to a state that is the batch after the turn. */
  lemma TurnIsTurn(s: State, w: Drain.World, turn: nat, processed: nat) returns (t: State, handled: bool)
    requires 0 < |s.ring| && s.host.Resting? && w.size == |s.ring| && w.arrivals(turn) == []
    ensures var before := BatchOf(s, processed, None); var after := Drain.Turn(w, turn, before);
      && t.host.Resting? && 0 < |t.ring| && Gets(s, handled, t)
      && BatchOf(t, after.processed, after.end) == after
  {
    TurnByPoll(s, w, turn, processed);
    var p := Polled(s);
    if p.host.Resting? {
      handled, t := true, s;
      PollGets(s, true);
    } else {
      var c := p.host.command;
      handled := w.handler(turn, c) == Drain.Fine;
      t := Handled(s, p, c, handled);
      FinishedIsComplete(s, c, processed);
    }
  }

  lemma Handled(s: State, p: State, c: seq<byte>, fine: bool) returns (t: State)
    requires 0 < |s.ring| && s.host.Resting? && p == Polled(s) && p.host == Handling(c)
    ensures t == (if fine then Finished(s, c) else s)
    ensures Gets(s, fine, t)
  {
    PollGets(s, fine);
    if fine {
      HandlingGets(p, c);
      t := Finished(p, c);
    } else {
      t := s;
      GetsOne(p, false, t);
    }
    GetsOn(s, fine, p, t);
  }
}
