/** The command transport as a protocol between the guest's user-mode driver and the backend.
    They share the ring and two counters and interleave step by step: the guest copies one byte
    at a time, the host polls, reads a header and a command, dispatches, advances and completes
    fences. There is one producer, so the driver's own producer pointer is the shared one
    whenever it is not flushing. */
module Transport {
  import opened Wrappers
  import opened Bytes
  import opened Framing
  import opened Ring
  import opened Driver

  // ---- States -----------------------------------------------------------------------------

  /** Where the guest is; next is the command whose write has to flush first. */
  datatype Guest =
    | Ready
    | Waiting(next: Option<Command>)
    | Copying(copied: nat, next: Option<Command>)

  /** Where the host is in its drain loop; upTo remembers how many commands were published when
      it polled. */
  datatype Host =
    | Resting
    | Slice(pending: nat, upTo: nat)
    | SliceBody(size: nat, upTo: nat)
    | CopyHeader(pending: nat, got: seq<byte>, upTo: nat)
    | CopyBody(size: nat, got: seq<byte>, upTo: nat)
    | Handling(command: seq<byte>)
    | Advancing(command: seq<byte>)
    | Fencing
    | Interrupting

  /** The shared memory, both sides' private variables, and the history: all commands written,
      how many of them are published, the bytes ever published, and the commands handled. */
  datatype State = State(
    ring: seq<byte>, producer: nat, consumer: nat, hostFence: nat,
    guest: Guest, localProducer: nat, staging: seq<byte>,
    host: Host, currentFence: nat, lastIrqFence: nat, irqs: nat,
    written: seq<Command>, published: nat, stream: seq<byte>, done: seq<seq<byte>>)

  function Init(size: nat): State {
    State(Zeros(size), 0, 0, 0, Ready, 0, [], Resting, 0, 0, 0, [], 0, [], [])
  }

  /** What is scheduled: a call of the guest, a step of the guest's flush, a step of the host, or
      a host step in which the command's handler fails. */
  datatype Action = Write(command: Command) | Flush | GuestGo | HostGo | HandlerFails

  // ---- The guest --------------------------------------------------------------------------

  function Stage(s: State, c: Command): State {
    s.(staging := s.staging + Pad(c), written := s.written + [c], guest := Ready)
  }

  function GuestCall(s: State, a: Action): State {
    if !s.guest.Ready? then s
    else match a
      case Write(c) =>
        if |c| < HEADER_SIZE || STAGING_SIZE < |c| then s
        else if STAGING_SIZE < |s.staging| + Align16(|c|) then s.(guest := Waiting(Some(c)))
        else Stage(s, c)
      case Flush => if s.staging == [] then s else s.(guest := Waiting(None))
      case _ => s
  }

  function GuestStep(s: State): State
    requires 0 < |s.ring|
  {
    match s.guest
    case Ready => s
    case Waiting(next) =>
      if |s.ring| - (s.localProducer - s.consumer) >= |s.staging| then s.(guest := Copying(0, next)) else s
    case Copying(copied, next) =>
      if copied < |s.staging| then
        s.(ring := s.ring[(s.localProducer + copied) % |s.ring| := s.staging[copied]],
           guest := Copying(copied + 1, next))
      else
        var end := s.localProducer + |s.staging|;
        var t := s.(localProducer := end, producer := end, stream := s.stream + s.staging, staging := [],
                    published := |s.written|, guest := Ready);
        if next.Some? then Stage(t, next.value) else t
  }

  // ---- The host ---------------------------------------------------------------------------

  predicate IsFence(c: seq<byte>) {
    24 <= |c| && CommandType(c) == CMD_FENCE
  }

  function FenceValue(c: seq<byte>): nat
    requires IsFence(c)
  {
    Le64(c, 16)
  }

  function HostStep(s: State, handled: bool): State
    requires 0 < |s.ring|
  {
    match s.host
    case Resting =>
      var pending := Pending(s.producer, s.consumer);
      if pending == 0 then s
      else if FitsBeforeWrap(|s.ring|, s.consumer, pending) then s.(host := Slice(pending, s.published))
      else if pending < HEADER_SIZE then s
      else s.(host := CopyHeader(pending, [], s.published))
    case Slice(pending, upTo) =>
      var size := CommandSize(Window(s.ring, s.consumer, 8));
      s.(host := if pending < HEADER_SIZE || size > pending then Resting else SliceBody(size, upTo))
    case SliceBody(size, upTo) =>
      s.(host := Handling(Window(s.ring, s.consumer, size)))
    case CopyHeader(pending, got, upTo) =>
      if |got| < 8 then s.(host := CopyHeader(pending, got + Window(s.ring, s.consumer + |got|, 1), upTo))
      else
        var size := CommandSize(got);
        s.(host := if size > pending || size < HEADER_SIZE then Resting else CopyBody(size, [], upTo))
    case CopyBody(size, got, upTo) =>
      if |got| < size then s.(host := CopyBody(size, got + Window(s.ring, s.consumer + |got|, 1), upTo))
      else s.(host := if Take(got).Taken? then Handling(Take(got).command) else Resting)
    case Handling(command) =>
      if !handled then s.(host := Resting)
      else s.(host := Advancing(command), done := s.done + [command],
              currentFence := if IsFence(command) then FenceValue(command) else s.currentFence)
    case Advancing(command) => s.(host := Fencing, consumer := s.consumer + |command|)
    case Fencing =>
      if s.currentFence > s.lastIrqFence then
        s.(host := Interrupting, hostFence := s.currentFence, lastIrqFence := s.currentFence)
      else s.(host := Resting)
    case Interrupting => s.(host := Resting, irqs := s.irqs + 1)
  }

  function Step(s: State, a: Action): State
    requires 0 < |s.ring|
  {
    match a
    case Write(_) => GuestCall(s, a)
    case Flush => GuestCall(s, a)
    case GuestGo => GuestStep(s)
    case HostGo => HostStep(s, true)
    case HandlerFails => if s.host.Handling? then HostStep(s, false) else s
  }

  function After(size: nat, actions: seq<Action>): (s: State)
    requires 0 < size
    ensures |s.ring| == size
  {
    if actions == [] then Init(size) else
      Step(After(size, actions[..|actions| - 1]), actions[|actions| - 1])
  }

  // ---- What always holds ------------------------------------------------------------------

  /** Every unread counter value shows the byte that was published under it. */
  predicate Mirrors(s: State)
    requires 0 < |s.ring|
  {
    && s.consumer <= s.producer == |s.stream| <= s.consumer + |s.ring|
    && forall i | s.consumer <= i < s.producer :: s.ring[i % |s.ring|] == s.stream[i]
  }

  predicate GuestOk(s: State)
    requires 0 < |s.ring|
  {
    && s.localProducer == s.producer
    && s.published <= |s.written| && AllHeaded(s.written)
    && s.stream == Padded(s.written[..s.published])
    && s.stream + s.staging == Padded(s.written)
    && (s.guest.Copying? ==>
          && s.guest.copied <= |s.staging| && s.producer + |s.staging| <= s.consumer + |s.ring|
          && forall i | 0 <= i < s.guest.copied :: s.ring[(s.producer + i) % |s.ring|] == s.staging[i])
    && (!s.guest.Ready? && s.guest.next.Some? ==> HEADER_SIZE <= |s.guest.next.value|)
  }

  /** got is what the host has read so far from the consumer position on. */
  predicate Read(s: State, got: seq<byte>) {
    s.consumer + |got| <= |s.stream| && got == s.stream[s.consumer..s.consumer + |got|]
  }

  /** The header at the consumer position announces size, and that many bytes are there. */
  predicate Announced(stream: seq<byte>, at: nat, size: nat) {
    at + HEADER_SIZE <= |stream| && at + size <= |stream| && Le32(stream, at + 4) == size
  }

  predicate PolledOk(s: State, pending: nat, upTo: nat) {
    && 0 < pending && upTo <= s.published <= |s.written|
    && s.consumer + pending == |Padded(s.written[..upTo])| <= |s.stream|
  }

  predicate HostOk(s: State) {
    match s.host
    case Slice(pending, upTo) => PolledOk(s, pending, upTo)
    case SliceBody(size, upTo) => Announced(s.stream, s.consumer, size)
    case CopyHeader(pending, got, upTo) =>
      PolledOk(s, pending, upTo) && HEADER_SIZE <= pending && |got| <= 8 && Read(s, got)
    case CopyBody(size, got, upTo) =>
      Announced(s.stream, s.consumer, size) && HEADER_SIZE <= size && |got| <= size && Read(s, got)
    case Handling(command) => Announced(s.stream, s.consumer, |command|) && Read(s, command)
    case Advancing(command) =>
      && Announced(s.stream, s.consumer, |command|) && Read(s, command)
      && s.done != [] && s.done[|s.done| - 1] == command
    case _ => true
  }

  predicate Safe(s: State) {
    0 < |s.ring| && Mirrors(s) && GuestOk(s) && HostOk(s)
  }

  // ---- Reading the ring is reading the stream ---------------------------------------------

  lemma WindowIsStream(s: State, n: nat)
    requires 0 < |s.ring| && Mirrors(s) && s.consumer + n <= s.producer
    ensures Window(s.ring, s.consumer, n) == s.stream[s.consumer..s.consumer + n]
  {
    forall k | 0 <= k < n ensures Window(s.ring, s.consumer, n)[k] == s.stream[s.consumer..s.consumer + n][k] {
      assert s.ring[(s.consumer + k) % |s.ring|] == s.stream[s.consumer + k];
    }
  }

  lemma NextByteIsStream(s: State, got: seq<byte>)
    requires 0 < |s.ring| && Mirrors(s) && Read(s, got) && s.consumer + |got| < s.producer
    ensures Read(s, got + Window(s.ring, s.consumer + |got|, 1))
  {
    var i := s.consumer + |got|;
    assert s.stream[s.consumer..i + 1] == s.stream[s.consumer..i] + [s.stream[i]];
  }

  // ---- Every step is safe -----------------------------------------------------------------

  lemma SliceHostOk(s: State)
    requires 0 < |s.ring| && Mirrors(s) && HostOk(s) && s.host.Slice?
    ensures HostOk(HostStep(s, true))
  {
    if s.host.pending >= HEADER_SIZE {
      WindowIsStream(s, 8);
      HeaderRead(s, Window(s.ring, s.consumer, 8));
    }
  }

  lemma SliceBodyHostOk(s: State)
    requires 0 < |s.ring| && Mirrors(s) && HostOk(s) && s.host.SliceBody?
    ensures HostOk(HostStep(s, true))
  {
    WindowIsStream(s, s.host.size);
  }

  lemma HeaderRead(s: State, got: seq<byte>)
    requires Read(s, got) && 8 <= |got|
    ensures Le32(s.stream, s.consumer + 4) == CommandSize(got)
  {
    assert forall k | 0 <= k < |got| :: got[k] == s.stream[s.consumer + k];
  }

  /** A step that only changes the host's private variables and the fence. */
  predicate SameMemory(s: State, t: State) {
    && t.ring == s.ring && t.producer == s.producer && t.consumer == s.consumer
    && t.guest == s.guest && t.localProducer == s.localProducer && t.staging == s.staging
    && t.written == s.written && t.published == s.published && t.stream == s.stream
  }

  lemma HostOnly(s: State, t: State)
    requires Safe(s) && HostOk(t) && SameMemory(s, t)
    ensures Safe(t)
  {
    SameMirrors(s, t);
    SameGuestOk(s, t);
  }

  lemma SameGuestOk(s: State, t: State)
    requires 0 < |s.ring| && GuestOk(s) && SameMemory(s, t)
    ensures GuestOk(t)
  {
  }

  lemma CopyHeaderHostOk(s: State)
    requires 0 < |s.ring| && Mirrors(s) && HostOk(s) && s.host.CopyHeader?
    ensures HostOk(HostStep(s, true))
  {
    var got := s.host.got;
    if |got| < 8 {
      NextByteIsStream(s, got);
    } else {
      HeaderRead(s, got);
    }
  }

  /** The copied command is cut where the header said it ends. */
  lemma CopyIsWhole(s: State, got: seq<byte>)
    requires Read(s, got) && HEADER_SIZE <= |got| && Announced(s.stream, s.consumer, |got|)
    ensures Take(got) == Taken(got)
  {
    HeaderRead(s, got);
    assert got[..|got|] == got;
  }

  lemma CopyBodyHostOk(s: State)
    requires 0 < |s.ring| && Mirrors(s) && HostOk(s) && s.host.CopyBody?
    ensures HostOk(HostStep(s, true))
  {
    var got := s.host.got;
    if |got| < s.host.size {
      NextByteIsStream(s, got);
    } else {
      CopyIsWhole(s, got);
    }
  }

  lemma AdvanceSafe(s: State)
    requires Safe(s) && s.host.Advancing?
    ensures Safe(HostStep(s, true))
  {
    assert s.consumer + |s.host.command| <= |s.stream|;
  }

  lemma RestingHostOk(s: State)
    requires 0 < |s.ring| && Mirrors(s) && s.host.Resting?
    requires s.published <= |s.written| && s.stream == Padded(s.written[..s.published])
    ensures HostOk(HostStep(s, true))
  {
  }

  lemma HostStepHostOk(s: State, handled: bool)
    requires Safe(s) && !s.host.Advancing?
    ensures HostOk(HostStep(s, handled))
  {
    match s.host
    case Resting => RestingHostOk(s);
    case Slice(_, _) => SliceHostOk(s);
    case SliceBody(_, _) => SliceBodyHostOk(s);
    case CopyHeader(_, _, _) => CopyHeaderHostOk(s);
    case CopyBody(_, _, _) => CopyBodyHostOk(s);
    case _ =>
  }

  lemma HostKeepsMemory(s: State, handled: bool)
    requires 0 < |s.ring| && !s.host.Advancing?
    ensures SameMemory(s, HostStep(s, handled))
  {
  }

  lemma HostStepSafe(s: State, handled: bool)
    requires Safe(s)
    ensures Safe(HostStep(s, handled))
  {
    if s.host.Advancing? {
      AdvanceSafe(s);
    } else {
      HostStepHostOk(s, handled);
      HostKeepsMemory(s, handled);
      HostOnly(s, HostStep(s, handled));
    }
  }

  lemma CallSafe(s: State, a: Action)
    requires Safe(s)
    ensures Safe(GuestCall(s, a))
  {
    if s.guest.Ready? && a.Write? && HEADER_SIZE <= |a.command| <= STAGING_SIZE {
      if |s.staging| + Align16(|a.command|) <= STAGING_SIZE {
        StageSafe(s, a.command);
      } else {
        WaitSafe(s, Some(a.command));
      }
    } else if s.guest.Ready? && a.Flush? && s.staging != [] {
      WaitSafe(s, None);
    }
  }

  lemma WaitSafe(s: State, next: Option<Command>)
    requires Safe(s) && s.guest.Ready? && (next.Some? ==> HEADER_SIZE <= |next.value|)
    ensures Safe(s.(guest := Waiting(next)))
  {
    var t := s.(guest := Waiting(next));
    assert t.stream + t.staging == s.stream + s.staging;
    assert HostOk(t);
  }

  lemma StageSafe(s: State, c: Command)
    requires Safe(s) && HEADER_SIZE <= |c| && !s.guest.Copying?
    ensures Safe(Stage(s, c))
  {
    StageGuestOk(s, c);
    StageHostOk(s, c);
    SameMirrors(s, Stage(s, c));
  }

  lemma StageGuestOk(s: State, c: Command)
    requires 0 < |s.ring| && GuestOk(s) && HEADER_SIZE <= |c| && !s.guest.Copying?
    ensures GuestOk(Stage(s, c))
  {
    var t := Stage(s, c);
    PaddedAppend(s.written, c);
    assert t.written[..s.published] == s.written[..s.published];
    assert t.stream + t.staging == (s.stream + s.staging) + Pad(c);
  }

  /** The host does not look at commands that are not published. */
  lemma StageHostOk(s: State, c: Command)
    requires HostOk(s) && s.published <= |s.written|
    ensures HostOk(Stage(s, c))
  {
    forall n: nat | n <= |s.written| ensures Stage(s, c).written[..n] == s.written[..n] {
    }
  }

  lemma SameMirrors(s: State, t: State)
    requires 0 < |s.ring| && Mirrors(s)
    requires t.ring == s.ring && t.producer == s.producer && t.consumer == s.consumer && t.stream == s.stream
    ensures Mirrors(t)
  {
  }

  /** A byte copied behind the published ones does not touch what the host has yet to read. */
  lemma CopyByteMirrors(s: State, t: State, i: int)
    requires 0 < |s.ring| && Mirrors(s) && s.guest.Copying? && t == GuestStep(s)
    requires s.localProducer == s.producer && s.guest.copied < |s.staging|
    requires s.producer + |s.staging| <= s.consumer + |s.ring| && s.consumer <= i < s.producer
    ensures t.ring[i % |s.ring|] == s.stream[i]
  {
    SlotsDiffer(i, s.producer + s.guest.copied, |s.ring|);
    assert s.ring[i % |s.ring|] == s.stream[i];
  }

  /** Nor what was copied before it. */
  lemma CopyByteGuestOk(s: State, t: State)
    requires 0 < |s.ring| && GuestOk(s) && s.guest.Copying? && t == GuestStep(s) && s.guest.copied < |s.staging|
    requires s.consumer <= s.producer
    ensures GuestOk(t)
  {
    assert t.stream + t.staging == s.stream + s.staging;
    forall i | 0 <= i < s.guest.copied + 1 ensures t.ring[(t.producer + i) % |t.ring|] == t.staging[i] {
      CopyByteCopied(s, t, i);
    }
  }

  lemma CopyByteCopied(s: State, t: State, i: nat)
    requires 0 < |s.ring| && GuestOk(s) && s.guest.Copying? && t == GuestStep(s) && s.guest.copied < |s.staging|
    requires s.consumer <= s.producer && i <= s.guest.copied
    ensures t.ring[(s.producer + i) % |s.ring|] == s.staging[i]
  {
    if i < s.guest.copied {
      SlotsDiffer(s.producer + i, s.producer + s.guest.copied, |s.ring|);
      assert s.ring[(s.producer + i) % |s.ring|] == s.staging[i];
    }
  }

  lemma CopyByteSafe(s: State, copied: nat, next: Option<Command>)
    requires Safe(s) && s.guest == Copying(copied, next) && copied < |s.staging|
    ensures Safe(GuestStep(s))
  {
    var t := GuestStep(s);
    CopyByteGuestOk(s, t);
    CopyByteHostOk(s);
    CopyByteAllMirrors(s);
  }

  lemma CopyByteHostOk(s: State)
    requires 0 < |s.ring| && HostOk(s) && s.guest.Copying? && s.guest.copied < |s.staging|
    ensures HostOk(GuestStep(s))
  {
  }

  lemma CopyByteAllMirrors(s: State)
    requires 0 < |s.ring| && Mirrors(s) && GuestOk(s) && s.guest.Copying? && s.guest.copied < |s.staging|
    ensures Mirrors(GuestStep(s))
  {
    var t := GuestStep(s);
    forall i | s.consumer <= i < s.producer ensures t.ring[i % |t.ring|] == t.stream[i] {
      CopyByteMirrors(s, t, i);
    }
  }

  lemma PublishSafe(s: State, next: Option<Command>)
    requires Safe(s) && s.guest == Copying(|s.staging|, next)
    ensures Safe(GuestStep(s))
  {
    var end := s.producer + |s.staging|;
    var t := s.(localProducer := end, producer := end, stream := s.stream + s.staging, staging := [],
                published := |s.written|, guest := Ready);
    assert s.written[..|s.written|] == s.written;
    forall i | s.consumer <= i < end ensures t.ring[i % |s.ring|] == t.stream[i] {
      if i >= s.producer {
        assert s.ring[(s.producer + (i - s.producer)) % |s.ring|] == s.staging[i - s.producer];
      } else {
        assert s.ring[i % |s.ring|] == s.stream[i];
      }
    }
    PublishHostOk(s, t);
    if next.Some? {
      StageSafe(t, next.value);
    }
  }

  /** Publishing more leaves what the host has read as it is. */
  lemma PublishHostOk(s: State, t: State)
    requires HostOk(s) && t.host == s.host && t.consumer == s.consumer && t.done == s.done && s.stream <= t.stream
    requires t.written == s.written && s.published <= t.published <= |t.written|
    ensures HostOk(t)
  {
    assert forall n: nat | n <= |s.stream| :: t.stream[..n] == s.stream[..n];
    assert forall m: nat, n: nat | m <= n <= |s.stream| :: t.stream[m..n] == s.stream[m..n];
  }

  /** The wait ends only when there is room for everything staged. */
  lemma StartCopySafe(s: State)
    requires Safe(s) && s.guest.Waiting?
    ensures Safe(GuestStep(s))
  {
    var t := GuestStep(s);
    SameMirrors(s, t);
    assert t.stream + t.staging == s.stream + s.staging && t.written == s.written;
    assert HostOk(t);
  }

  lemma GuestStepSafe(s: State)
    requires Safe(s)
    ensures Safe(GuestStep(s))
  {
    if s.guest.Waiting? {
      StartCopySafe(s);
    } else if s.guest.Copying? {
      if s.guest.copied < |s.staging| {
        CopyByteSafe(s, s.guest.copied, s.guest.next);
      } else {
        PublishSafe(s, s.guest.next);
      }
    }
  }

  lemma EveryStepSafe(s: State, a: Action)
    requires Safe(s)
    ensures Safe(Step(s, a))
  {
    match a
    case Write(_) => CallSafe(s, a);
    case Flush => CallSafe(s, a);
    case GuestGo => GuestStepSafe(s);
    case HostGo => HostStepSafe(s, true);
    case HandlerFails =>
      if s.host.Handling? {
        HostStepSafe(s, false);
      }
  }

  /** In every reachable state: the consumer never passes the producer, the producer is at most
      one ring ahead, the unread part of the ring is the unread part of the published stream, and
      published and staged bytes together are the padded commands written so far. */
  lemma {:induction false} RingIsSafe(size: nat, actions: seq<Action>)
    requires 0 < size
    ensures Safe(After(size, actions))
  {
    if actions != [] {
      RingIsSafe(size, actions[..|actions| - 1]);
      EveryStepSafe(After(size, actions[..|actions| - 1]), actions[|actions| - 1]);
    }
  }
}
