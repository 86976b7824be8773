/** The backend's drain loop: one batch of commands, against a guest that may publish more before
    every poll. A batch is bounded if every turn of it consumes a command. It never ends exactly if
    it comes to one command whose shader does not compile, or that announces no bytes, and is
    offered that command again and again. */
module Drain {
  import opened Wrappers
  import opened Bytes
  import opened Framing
  import opened Ring
  import opened Transport
  import opened Delivery

  const BATCH_LIMIT: nat := 0x10_0000
  const MAX_TURNS: nat := 0x1_0001

  // ---- One batch, turn by turn ------------------------------------------------------------

  /** How a command's handler comes back. */
  datatype Verdict = Fine | ShaderCompile | OutOfMemory | Internal

  /** Why a batch ends. */
  datatype End = Drained | BadCommand | Failed(verdict: Verdict) | LimitReached

  /** What happens around the loop: what the guest tries to publish before each poll and how the
      handler judges the command of each turn. */
  datatype World = World(size: nat, arrivals: nat -> seq<byte>, handler: (nat, seq<byte>) -> Verdict)

  datatype Batch = Batch(
    unread: seq<byte>, consumer: nat, processed: nat, handled: seq<seq<byte>>,
    currentFence: nat, hostFence: nat, lastIrqFence: nat, irqs: nat, end: Option<End>)

  /** The guest publishes if there is room. */
  function Arrive(w: World, turn: nat, unread: seq<byte>): seq<byte> {
    if |unread| + |w.arrivals(turn)| <= w.size then unread + w.arrivals(turn) else unread
  }

  function Crosses(w: World, b: Batch): bool {
    0 < w.size && !FitsBeforeWrap(w.size, b.consumer, |b.unread|)
  }

  function Complete(b: Batch, c: seq<byte>): Batch
    requires |c| <= |b.unread|
  {
    var fence := if IsFence(c) then FenceValue(c) else b.currentFence;
    var rises := fence > b.lastIrqFence;
    b.(unread := b.unread[|c|..], consumer := b.consumer + |c|, processed := b.processed + |c|,
       handled := b.handled + [c], currentFence := fence,
       hostFence := if rises then fence else b.hostFence,
       lastIrqFence := if rises then fence else b.lastIrqFence,
       irqs := if rises then b.irqs + 1 else b.irqs,
       end := if b.processed + |c| > BATCH_LIMIT then Some(LimitReached) else None)
  }

  /** Dispatch what the read handed over. */
  function Dispatch(w: World, turn: nat, b: Batch, data: seq<byte>): Batch
    requires data <= b.unread
  {
    match Take(data)
    case TooSmall => b.(end := Some(BadCommand))
    case TooLong => b.(end := Some(BadCommand))
    case Taken(c) =>
      match w.handler(turn, c)
      case Fine => Complete(b, c)
      case ShaderCompile => b
      case other => b.(end := Some(Failed(other)))
  }

  lemma HandedIsFront(bytes: seq<byte>, crosses: bool)
    ensures Handed(bytes, crosses).Some? ==> Handed(bytes, crosses).value.data <= bytes
  {
  }

  function Turn(w: World, turn: nat, before: Batch): Batch {
    if before.end.Some? then before else
      var b := before.(unread := Arrive(w, turn, before.unread));
      var handed := Handed(b.unread, Crosses(w, b));
      if handed.None? then b.(end := Some(Drained)) else
        HandedIsFront(b.unread, Crosses(w, b));
        Dispatch(w, turn, b, handed.value.data)
  }

  /** What one turn of the loop makes of a batch. */
  type Loop = (nat, Batch) -> Batch

  function Iterate(loop: Loop, start: Batch, n: nat): Batch {
    if n == 0 then start else loop(n - 1, Iterate(loop, start, n - 1))
  }

  function LoopOf(w: World): Loop {
    (turn: nat, before: Batch) => Turn(w, turn, before)
  }

  function Turns(w: World, start: Batch, n: nat): Batch {
    Iterate(LoopOf(w), start, n)
  }

  predicate Fresh(b: Batch) {
    b.processed == 0 && b.handled == [] && b.end.None?
  }

  // ---- Loops in general -------------------------------------------------------------------

  /** p, which may depend on the number of turns, survives every turn. */
  ghost predicate Kept(loop: Loop, p: (nat, Batch) -> bool) {
    forall k: nat, b: Batch :: p(k, b) ==> p(k + 1, loop(k, b))
  }

  lemma {:induction false} KeptAlways(loop: Loop, start: Batch, p: (nat, Batch) -> bool, n: nat)
    requires p(0, start) && Kept(loop, p)
    ensures p(n, Iterate(loop, start, n))
  {
    if n > 0 {
      KeptAlways(loop, start, p, n - 1);
    }
  }

  /** A turn that goes on to the next without consuming at least a header's worth. */
  predicate Idles(before: Batch, after: Batch) {
    before.end.None? && after.end.None? && after.processed < before.processed + HEADER_SIZE
  }

  predicate IdlesAt(loop: Loop, start: Batch, turn: nat) {
    Idles(Iterate(loop, start, turn), loop(turn, Iterate(loop, start, turn)))
  }

  /** A loop that stops when it has ended and never takes anything back. */
  ghost predicate Forward(loop: Loop) {
    forall k: nat, b: Batch :: b.processed <= loop(k, b).processed && (b.end.Some? ==> loop(k, b) == b)
  }

  lemma {:induction false} EndedStaysEnded(loop: Loop, start: Batch, n: nat, m: nat)
    requires Forward(loop) && n <= m && Iterate(loop, start, n).end.Some?
    ensures Iterate(loop, start, m) == Iterate(loop, start, n)
  {
    if n < m {
      EndedStaysEnded(loop, start, n, m - 1);
    }
  }

  /** How many of the first n turns idle. */
  function IdleTurns(loop: Loop, start: Batch, n: nat): (r: nat)
    ensures r <= n
  {
    if n == 0 then 0 else IdleTurns(loop, start, n - 1) + if IdlesAt(loop, start, n - 1) then 1 else 0
  }

  lemma {:induction false} BusyTurnsConsume(loop: Loop, start: Batch, n: nat)
    requires Forward(loop) && start.processed == 0 && Iterate(loop, start, n).end.None?
    ensures HEADER_SIZE * (n - IdleTurns(loop, start, n)) <= Iterate(loop, start, n).processed
  {
    if n > 0 {
      BusyTurnsConsume(loop, start, n - 1);
    }
  }

  lemma {:induction false} BusyTurnsGrow(loop: Loop, start: Batch, m: nat, n: nat)
    requires m <= n
    ensures m - IdleTurns(loop, start, m) <= n - IdleTurns(loop, start, n)
  {
    if m < n {
      BusyTurnsGrow(loop, start, m, n - 1);
    }
  }

  lemma {:induction false} NoIdleTurns(loop: Loop, start: Batch, n: nat)
    requires forall k | 0 <= k < n :: !IdlesAt(loop, start, k)
    ensures IdleTurns(loop, start, n) == 0
  {
    if n > 0 {
      NoIdleTurns(loop, start, n - 1);
    }
  }

  ghost predicate IdlesFrom(loop: Loop, start: Batch, m: nat) {
    forall k: nat :: m <= k ==> IdlesAt(loop, start, k)
  }

  /** If no more than bound turns are ever busy, from some turn on all idle. */
  lemma {:induction false} AtLastIdle(loop: Loop, start: Batch, m: nat, bound: nat) returns (from: nat)
    requires forall n: nat :: n - IdleTurns(loop, start, n) <= bound
    ensures IdlesFrom(loop, start, from)
    decreases bound - (m - IdleTurns(loop, start, m))
  {
    if IdlesFrom(loop, start, m) {
      from := m;
    } else {
      var k: nat :| m <= k && !IdlesAt(loop, start, k);
      BusyTurnsGrow(loop, start, m, k);
      assert (k + 1) - IdleTurns(loop, start, k + 1) <= bound;
      from := AtLastIdle(loop, start, k + 1, bound);
    }
  }

  lemma IdlingNeverEnds(loop: Loop, start: Batch, m: nat, n: nat)
    requires Forward(loop) && IdlesFrom(loop, start, m)
    ensures Iterate(loop, start, n).end.None?
  {
    var k := if m <= n then n else m;
    assert IdlesAt(loop, start, k);
    if Iterate(loop, start, n).end.Some? {
      EndedStaysEnded(loop, start, n, k);
    }
  }

  // ---- Accounting -------------------------------------------------------------------------

  /** What is processed is the sum of the handled sizes, and the consumer advances by it. */
  predicate Accounted(start: Batch, b: Batch) {
    && b.processed == |Joined(b.handled)| && b.consumer == start.consumer + b.processed
    && (b.end.None? ==> b.processed <= BATCH_LIMIT)
    && (BATCH_LIMIT < b.processed ==>
          b.handled != [] && b.processed - |b.handled[|b.handled| - 1]| <= BATCH_LIMIT)
  }

  lemma CompleteAccounted(start: Batch, b: Batch, c: seq<byte>)
    requires Accounted(start, b) && b.end.None? && |c| <= |b.unread|
    ensures Accounted(start, Complete(b, c))
  {
    JoinedAppend(b.handled, c);
  }

  lemma BatchIsAccounted(w: World, start: Batch, n: nat)
    requires Fresh(start)
    ensures Accounted(start, Turns(w, start, n))
  {
    var p := (n: nat, b: Batch) => Accounted(start, b);
    forall k: nat, b: Batch | p(k, b) ensures p(k + 1, LoopOf(w)(k, b)) {
      TurnAccounted(w, k, start, b);
    }
    KeptAlways(LoopOf(w), start, p, n);
  }

  lemma TurnAccounted(w: World, turn: nat, start: Batch, before: Batch)
    requires Accounted(start, before)
    ensures Accounted(start, Turn(w, turn, before))
  {
    var b := before.(unread := Arrive(w, turn, before.unread));
    var handed := Handed(b.unread, Crosses(w, b));
    if before.end.None? && handed.Some? && Take(handed.value.data).Taken? {
      HandedIsFront(b.unread, Crosses(w, b));
      CompleteAccounted(start, b, Take(handed.value.data).command);
    }
  }

  // ---- Batches are bounded ----------------------------------------------------------------

  lemma TurnsForward(w: World)
    ensures Forward(LoopOf(w))
  {
    forall k: nat, b: Batch
      ensures b.processed <= LoopOf(w)(k, b).processed && (b.end.Some? ==> LoopOf(w)(k, b) == b)
    {
      TurnForward(w, k, b);
    }
  }

  lemma TurnForward(w: World, turn: nat, before: Batch)
    ensures before.processed <= Turn(w, turn, before).processed
  {
  }

  /** Against any guest and any handlers, a batch that goes on has consumed a header's worth in
      every turn but its idle ones: at most 65536 of its turns were not idle. */
  lemma LongBatchesIdle(w: World, start: Batch, n: nat)
    requires Fresh(start) && Turns(w, start, n).end.None?
    ensures HEADER_SIZE * (n - IdleTurns(LoopOf(w), start, n)) <= Turns(w, start, n).processed <= BATCH_LIMIT
  {
    TurnsForward(w);
    BatchIsAccounted(w, start, n);
    BusyTurnsConsume(LoopOf(w), start, n);
  }

  /** What a bounded batch comes to: it ends within 65537 turns, having consumed at most one
      mebibyte and one command, and the consumer has advanced by exactly the handled sizes. */
  predicate Bounded(start: Batch, b: Batch) {
    && b.end.Some?
    && b.consumer == start.consumer + b.processed && b.processed == |Joined(b.handled)|
    && (BATCH_LIMIT < b.processed ==>
          b.handled != [] && b.processed <= BATCH_LIMIT + |b.handled[|b.handled| - 1]|)
  }

  lemma BusyBatchEnds(w: World, start: Batch)
    requires Fresh(start) && forall k | 0 <= k < MAX_TURNS :: !IdlesAt(LoopOf(w), start, k)
    ensures Bounded(start, Turns(w, start, MAX_TURNS))
  {
    var loop := LoopOf(w);
    BatchIsAccounted(w, start, MAX_TURNS);
    NoIdleTurns(loop, start, MAX_TURNS);
    if Turns(w, start, MAX_TURNS).end.None? {
      LongBatchesIdle(w, start, MAX_TURNS);
    }
  }

  /** The command a turn dispatches, after the guest has published. */
  function Offered(w: World, turn: nat, before: Batch): Option<seq<byte>> {
    var b := before.(unread := Arrive(w, turn, before.unread));
    var cut :- Next(b.unread, Crosses(w, b));
    if cut.Taken? then Some(cut.command) else None
  }

  /** A turn idles exactly if the shader of its command does not compile, or the command is
      handled, shorter than a header, and does not take the batch over the limit. */
  lemma WhenTurnsIdle(w: World, turn: nat, before: Batch)
    ensures Idles(before, Turn(w, turn, before)) <==>
      && before.end.None? && Offered(w, turn, before).Some?
      && var c := Offered(w, turn, before).value; var v := w.handler(turn, c);
         v == ShaderCompile || (v == Fine && |c| < HEADER_SIZE && before.processed + |c| <= BATCH_LIMIT)
  {
  }

  /** Against any guest that publishes any bytes: a batch ends within bounds if handlers accept
      no command shorter than its header and never fail to compile a shader. */
  lemma BatchIsBounded(w: World, start: Batch)
    requires Fresh(start)
    requires forall t: nat, c: seq<byte> ::
      w.handler(t, c) != ShaderCompile && (w.handler(t, c) == Fine ==> HEADER_SIZE <= |c|)
    ensures Bounded(start, Turns(w, start, MAX_TURNS))
  {
    forall k | 0 <= k < MAX_TURNS ensures !IdlesAt(LoopOf(w), start, k) {
      WhenTurnsIdle(w, k, Turns(w, start, k));
    }
    BusyBatchEnds(w, start);
  }

  // ---- Batches of framed commands ---------------------------------------------------------

  /** The bytes are whole padded commands, each announcing its padded size. */
  ghost predicate FramedBytes(bytes: seq<byte>) {
    exists commands: seq<Command> :: AllFramed(commands) && bytes == Padded(commands)
  }

  lemma FramedJoin(a: seq<byte>, b: seq<byte>)
    requires FramedBytes(a) && FramedBytes(b)
    ensures FramedBytes(a + b)
  {
    var first: seq<Command> :| AllFramed(first) && a == Padded(first);
    var second: seq<Command> :| AllFramed(second) && b == Padded(second);
    PaddedSplit(first, second);
    assert AllFramed(first + second);
  }

  /** Framed bytes begin with a whole command, and framed bytes are left behind it. */
  lemma FramedLead(bytes: seq<byte>)
    requires FramedBytes(bytes) && bytes != []
    ensures Ring.Complete(bytes) && FramedBytes(bytes[CommandSize(bytes)..])
  {
    var commands: seq<Command> :| AllFramed(commands) && bytes == Padded(commands);
    var c, rest := commands[0], commands[1..];
    PaddedFirst(commands);
    HeaderOfPad(c, Padded(rest));
    assert bytes[CommandSize(bytes)..] == Padded(rest);
    assert forall k | 0 <= k < |rest| :: rest[k] == commands[k + 1];
    assert AllFramed(rest);
  }

  lemma FramedOffered(w: World, turn: nat, before: Batch)
    requires FramedBytes(before.unread) && FramedBytes(w.arrivals(turn))
    ensures Offered(w, turn, before).Some? ==> HEADER_SIZE <= |Offered(w, turn, before).value|
    ensures FramedBytes(Arrive(w, turn, before.unread))
  {
    FramedJoin(before.unread, w.arrivals(turn));
    var unread := Arrive(w, turn, before.unread);
    if unread != [] {
      FramedLead(unread);
      ReadingIsPositionIndependent(unread);
    }
  }

  /** What a turn leaves unread is what it found, or that without its command. */
  lemma TurnLeaves(w: World, turn: nat, before: Batch)
    requires before.end.None?
    ensures var unread := Arrive(w, turn, before.unread); var after := Turn(w, turn, before).unread;
      after == unread || (Ring.Complete(unread) && after == unread[CommandSize(unread)..])
      || (Offered(w, turn, before).Some? && |Offered(w, turn, before).value| < HEADER_SIZE)
  {
    var b := before.(unread := Arrive(w, turn, before.unread));
    HandedIsFront(b.unread, Crosses(w, b));
  }

  lemma FramedTurn(w: World, turn: nat, before: Batch)
    requires FramedBytes(before.unread) && FramedBytes(w.arrivals(turn))
    ensures FramedBytes(Turn(w, turn, before).unread)
  {
    if before.end.None? {
      FramedOffered(w, turn, before);
      TurnLeaves(w, turn, before);
      var unread := Arrive(w, turn, before.unread);
      if Ring.Complete(unread) {
        FramedLead(unread);
      }
    }
  }

  lemma FramedStaysFramed(w: World, start: Batch, n: nat)
    requires FramedBytes(start.unread) && forall k: nat :: FramedBytes(w.arrivals(k))
    ensures FramedBytes(Turns(w, start, n).unread)
  {
    var p := (n: nat, b: Batch) => FramedBytes(b.unread);
    forall k: nat, b: Batch | p(k, b) ensures p(k + 1, LoopOf(w)(k, b)) {
      FramedTurn(w, k, b);
    }
    KeptAlways(LoopOf(w), start, p, n);
  }

  lemma FramedTurnBusy(w: World, turn: nat, before: Batch)
    requires FramedBytes(before.unread) && FramedBytes(w.arrivals(turn))
    requires forall c: seq<byte> :: w.handler(turn, c) != ShaderCompile
    ensures !Idles(before, Turn(w, turn, before))
  {
    FramedOffered(w, turn, before);
    WhenTurnsIdle(w, turn, before);
  }

  /** So does every batch of framed commands, as long as shaders compile: then it does not matter
      what handlers think of short commands. */
  lemma FramedBatchIsBounded(w: World, start: Batch)
    requires Fresh(start) && FramedBytes(start.unread) && forall k: nat :: FramedBytes(w.arrivals(k))
    requires forall t: nat, c: seq<byte> :: w.handler(t, c) != ShaderCompile
    ensures Bounded(start, Turns(w, start, MAX_TURNS))
  {
    forall k | 0 <= k < MAX_TURNS ensures !IdlesAt(LoopOf(w), start, k) {
      FramedStaysFramed(w, start, k);
      FramedTurnBusy(w, k, Turns(w, start, k));
    }
    BusyBatchEnds(w, start);
  }

  // ---- Batches that never end -------------------------------------------------------------

  ghost predicate NeverEnds(w: World, start: Batch) {
    forall n: nat :: Turns(w, start, n).end.None?
  }

  /** A batch never ends if and only if from some turn on every turn idles. */
  lemma NeverEndsExactly(w: World, start: Batch)
    requires Fresh(start)
    ensures NeverEnds(w, start) <==> exists m: nat :: IdlesFrom(LoopOf(w), start, m)
  {
    var loop := LoopOf(w);
    TurnsForward(w);
    if NeverEnds(w, start) {
      forall n: nat ensures n - IdleTurns(loop, start, n) <= MAX_TURNS {
        assert Turns(w, start, n).end.None?;
        LongBatchesIdle(w, start, n);
      }
      var from := AtLastIdle(loop, start, 0, MAX_TURNS);
    }
    if m: nat :| IdlesFrom(loop, start, m) {
      forall n: nat ensures Turns(w, start, n).end.None? {
        IdlingNeverEnds(loop, start, m, n);
      }
    }
  }

  /** From turn m on the batch is offered command c in every turn, and no turn gets past it: its
      shader does not compile, or it is empty and handled. */
  ghost predicate StuckOn(w: World, start: Batch, m: nat, c: seq<byte>) {
    forall k: nat :: m <= k ==> StuckTurn(w, k, Turns(w, start, k), c)
  }

  predicate StuckTurn(w: World, turn: nat, before: Batch, c: seq<byte>) {
    && before.end.None? && Offered(w, turn, before) == Some(c)
    && (w.handler(turn, c) == ShaderCompile || (w.handler(turn, c) == Fine && c == []))
  }

  /** What is offered is the front of the unread bytes, as long as the header there says. */
  lemma OfferedIsFront(w: World, turn: nat, before: Batch)
    requires Offered(w, turn, before).Some?
    ensures var unread := Arrive(w, turn, before.unread);
      && HEADER_SIZE <= |unread| && CommandSize(unread) <= |unread|
      && Offered(w, turn, before).value == unread[..CommandSize(unread)]
  {
    var unread := Arrive(w, turn, before.unread);
    var size := CommandSize(unread);
    if size <= |unread| && HEADER_SIZE <= size {
      assert unread[..size][..size] == unread[..size];
      assert CommandSize(unread[..size]) == size;
    }
  }

  /** A turn that goes on and consumes nothing is stuck, and leaves everything unread. */
  lemma StillTurnIsStuck(w: World, turn: nat, before: Batch)
    requires before.end.None? && Turn(w, turn, before).end.None?
    requires Turn(w, turn, before).processed == before.processed
    ensures Offered(w, turn, before).Some? && StuckTurn(w, turn, before, Offered(w, turn, before).value)
    ensures Turn(w, turn, before).unread == Arrive(w, turn, before.unread)
  {
    var b := before.(unread := Arrive(w, turn, before.unread));
    HandedIsFront(b.unread, Crosses(w, b));
    assert b.unread[0..] == b.unread;
  }

  /** So the next turn is offered the same command. */
  lemma SameOffer(w: World, turn: nat, before: Batch, after: Batch)
    requires after.unread == Arrive(w, turn, before.unread)
    requires Offered(w, turn, before).Some? && Offered(w, turn + 1, after).Some?
    ensures Offered(w, turn + 1, after) == Offered(w, turn, before)
  {
    OfferedIsFront(w, turn, before);
    OfferedIsFront(w, turn + 1, after);
    var unread, more := after.unread, Arrive(w, turn + 1, after.unread);
    assert unread <= more && CommandSize(more) == CommandSize(unread);
    assert more[..CommandSize(unread)] == unread[..CommandSize(unread)];
  }

  ghost predicate StillFrom(loop: Loop, start: Batch, m: nat) {
    forall k: nat :: m <= k ==> Iterate(loop, start, k).processed == Iterate(loop, start, m).processed
  }

  lemma {:induction false} ProcessedGrows(loop: Loop, start: Batch, m: nat, n: nat)
    requires Forward(loop) && m <= n
    ensures Iterate(loop, start, m).processed <= Iterate(loop, start, n).processed
  {
    if m < n {
      ProcessedGrows(loop, start, m, n - 1);
    }
  }

  /** What is consumed and bounded stands still at last. */
  lemma {:induction false} AtLastStill(loop: Loop, start: Batch, m: nat, bound: nat) returns (from: nat)
    requires Forward(loop) && forall n: nat :: Iterate(loop, start, n).processed <= bound
    ensures StillFrom(loop, start, from)
    decreases bound - Iterate(loop, start, m).processed
  {
    if StillFrom(loop, start, m) {
      from := m;
    } else {
      var k: nat :| m <= k && Iterate(loop, start, k).processed != Iterate(loop, start, m).processed;
      ProcessedGrows(loop, start, m, k);
      from := AtLastStill(loop, start, k, bound);
    }
  }

  lemma StillTurnAt(w: World, start: Batch, m: nat, k: nat)
    requires NeverEnds(w, start) && StillFrom(LoopOf(w), start, m) && m <= k
    ensures var b := Turns(w, start, k);
      && Offered(w, k, b).Some? && StuckTurn(w, k, b, Offered(w, k, b).value)
      && Turns(w, start, k + 1).unread == Arrive(w, k, b.unread)
  {
    var b := Turns(w, start, k);
    assert Turns(w, start, k + 1).end.None? && b.end.None?;
    assert Iterate(LoopOf(w), start, k + 1).processed == Iterate(LoopOf(w), start, k).processed;
    StillTurnIsStuck(w, k, b);
  }

  lemma {:induction false} StaysTrue(q: nat -> bool, m: nat, k: nat)
    requires m <= k && q(m) && forall n: nat :: m <= n && q(n) ==> q(n + 1)
    ensures q(k)
    decreases k
  {
    if m < k {
      StaysTrue(q, m, k - 1);
      assert q(k - 1 + 1);
    }
  }

  predicate OffersAt(w: World, start: Batch, k: nat, c: Option<seq<byte>>) {
    Offered(w, k, Turns(w, start, k)) == c
  }

  lemma SameOfferNext(w: World, start: Batch, m: nat, k: nat, c: Option<seq<byte>>)
    requires NeverEnds(w, start) && StillFrom(LoopOf(w), start, m) && m <= k && OffersAt(w, start, k, c)
    ensures OffersAt(w, start, k + 1, c)
  {
    StillTurnAt(w, start, m, k);
    StillTurnAt(w, start, m, k + 1);
    SameOffer(w, k, Turns(w, start, k), Turns(w, start, k + 1));
  }

  lemma SameOfferFrom(w: World, start: Batch, m: nat, k: nat, c: Option<seq<byte>>)
    requires NeverEnds(w, start) && StillFrom(LoopOf(w), start, m) && m <= k && OffersAt(w, start, m, c)
    ensures OffersAt(w, start, k, c)
  {
    var q := (n: nat) => OffersAt(w, start, n, c);
    forall n: nat | m <= n && q(n) ensures q(n + 1) {
      SameOfferNext(w, start, m, n, c);
    }
    StaysTrue(q, m, k);
  }

  lemma StillIsStuck(w: World, start: Batch, m: nat)
    requires NeverEnds(w, start) && StillFrom(LoopOf(w), start, m)
    ensures Offered(w, m, Turns(w, start, m)).Some?
    ensures StuckOn(w, start, m, Offered(w, m, Turns(w, start, m)).value)
  {
    StillTurnAt(w, start, m, m);
    forall k: nat | m <= k
      ensures StuckTurn(w, k, Turns(w, start, k), Offered(w, m, Turns(w, start, m)).value)
    {
      StillTurnAt(w, start, m, k);
      SameOfferFrom(w, start, m, k, Offered(w, m, Turns(w, start, m)));
    }
  }

  lemma StuckNeverEnds(w: World, start: Batch, m: nat, c: seq<byte>, n: nat)
    requires StuckOn(w, start, m, c)
    ensures Turns(w, start, n).end.None?
  {
    TurnsForward(w);
    var k := if m <= n then n else m;
    assert StuckTurn(w, k, Turns(w, start, k), c);
    if Turns(w, start, n).end.Some? {
      EndedStaysEnded(LoopOf(w), start, n, k);
    }
  }

  /** A batch never ends if and only if from some turn on it is offered one and the same command in
      every turn, and each time the shader of that command does not compile, or the command is
      empty and handled. */
  lemma NeverEndsOnOneCommand(w: World, start: Batch)
    requires Fresh(start)
    ensures NeverEnds(w, start) <==> exists m: nat, c: seq<byte> :: StuckOn(w, start, m, c)
  {
    if NeverEnds(w, start) {
      forall n: nat ensures Iterate(LoopOf(w), start, n).processed <= BATCH_LIMIT {
        BatchIsAccounted(w, start, n);
        assert Turns(w, start, n).end.None?;
      }
      TurnsForward(w);
      var m := AtLastStill(LoopOf(w), start, 0, BATCH_LIMIT);
      StillIsStuck(w, start, m);
    }
    if m: nat, c: seq<byte> :| StuckOn(w, start, m, c) {
      forall n: nat ensures Turns(w, start, n).end.None? {
        StuckNeverEnds(w, start, m, c, n);
      }
    }
  }

  lemma NextIsStable(bytes: seq<byte>, more: seq<byte>, crosses: bool)
    requires Ring.Complete(bytes)
    ensures Next(bytes + more, crosses) == Some(Taken(bytes[..CommandSize(bytes)]))
  {
    ReadingIsPositionIndependent(bytes + more);
    assert CommandSize(bytes + more) == CommandSize(bytes);
    assert (bytes + more)[..CommandSize(bytes)] == bytes[..CommandSize(bytes)];
    assert Next(bytes + more, true) == Next(bytes + more, false);
  }

  /** A complete command whose shader does not compile is dispatched for ever: the consumer never
      moves and the batch never ends, wherever the command lies and whatever else arrives. */
  lemma ShaderErrorNeverEnds(w: World, start: Batch, c: seq<byte>, n: nat)
    requires Fresh(start) && Leads(c, start.unread) && forall k: nat :: w.handler(k, c) == ShaderCompile
    ensures Unmoved(start, Turns(w, start, n))
  {
    var p := (n: nat, b: Batch) => Unmoved(start, b);
    forall k: nat, b: Batch | p(k, b) ensures p(k + 1, LoopOf(w)(k, b)) {
      ShaderErrorTurn(w, k, start, c, b);
    }
    KeptAlways(LoopOf(w), start, p, n);
  }

  /** c is the complete command at the front of the unread bytes. */
  predicate Leads(c: seq<byte>, unread: seq<byte>) {
    Ring.Complete(unread) && c == unread[..CommandSize(unread)]
  }

  /** Nothing but what the guest publishes has changed. */
  predicate Unmoved(start: Batch, b: Batch) {
    start.unread <= b.unread && b == start.(unread := b.unread)
  }

  lemma ShaderErrorTurn(w: World, turn: nat, start: Batch, c: seq<byte>, before: Batch)
    requires Leads(c, start.unread) && start.end.None? && Unmoved(start, before)
    requires w.handler(turn, c) == ShaderCompile
    ensures Unmoved(start, Turn(w, turn, before))
  {
    var first := start.unread;
    var b := before.(unread := Arrive(w, turn, before.unread));
    var more := b.unread[|first|..];
    assert b.unread == first + more;
    NextIsStable(first, more, Crosses(w, b));
  }

  /** The unread bytes when nothing is consumed and the guest has tried to publish n times. */
  function Pile(w: World, unread: seq<byte>, n: nat): (r: seq<byte>)
    ensures unread <= r
  {
    if n == 0 then unread else Arrive(w, n - 1, Pile(w, unread, n - 1))
  }

  /** The first n attempts to publish leave the unread bytes in front of the wrap. */
  predicate StaysBeforeWrap(w: World, start: Batch, n: nat) {
    n == 0 || (StaysBeforeWrap(w, start, n - 1) && !Crosses(w, start.(unread := Pile(w, start.unread, n))))
  }

  /** After n turns nothing is consumed, and the batch goes on exactly if the wrap is not reached. */
  predicate Stands(w: World, start: Batch, n: nat, b: Batch) {
    && b.processed == 0 && b.consumer == start.consumer
    && (b.end.None? <==> StaysBeforeWrap(w, start, n))
    && (b.end.None? ==> b.unread == Pile(w, start.unread, n))
  }

  /** A header that announces no bytes consumes nothing and is dispatched again and again, whatever
      is published behind it: the batch ends exactly when the unread bytes reach the wrap. */
  lemma ZeroSizeEndsAtTheWrap(w: World, start: Batch, n: nat)
    requires Fresh(start) && HEADER_SIZE <= |start.unread| && CommandSize(start.unread) == 0
    requires forall k: nat :: w.handler(k, []) == Fine
    ensures Stands(w, start, n, Turns(w, start, n))
  {
    var p := (n: nat, b: Batch) => Stands(w, start, n, b);
    forall k: nat, b: Batch | p(k, b) ensures p(k + 1, LoopOf(w)(k, b)) {
      ZeroSizeTurn(w, k, start, b);
    }
    KeptAlways(LoopOf(w), start, p, n);
  }

  lemma ZeroSizeTurn(w: World, turn: nat, start: Batch, before: Batch)
    requires HEADER_SIZE <= |start.unread| && CommandSize(start.unread) == 0 && w.handler(turn, []) == Fine
    requires Stands(w, start, turn, before)
    ensures Stands(w, start, turn + 1, Turn(w, turn, before))
  {
    if before.end.None? {
      var unread := Pile(w, start.unread, turn + 1);
      assert CommandSize(unread) == CommandSize(start.unread) == 0;
      assert unread[..0] == [] && unread[0..] == unread;
    }
  }
}
