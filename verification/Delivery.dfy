/** What the transport delivers. The handled commands are always a parse of the published stream;
    from that follow delivery of exactly the written commands in order, when they are framed, and
    the meaning of a completed fence. */
module Delivery {
  import opened Bytes
  import opened Framing
  import opened Ring
  import opened Transport

  // ---- The handled commands are a parse of the stream -------------------------------------

  function Joined(done: seq<seq<byte>>): seq<byte> {
    if done == [] then [] else Joined(done[..|done| - 1]) + done[|done| - 1]
  }

  /** Each handled command lies behind the ones before it and is as long as the header there
      announces. */
  predicate Parsed(stream: seq<byte>, done: seq<seq<byte>>) {
    done == [] ||
    var front, last := done[..|done| - 1], done[|done| - 1];
    var at := |Joined(front)|;
    Parsed(stream, front) && Announced(stream, at, |last|) && last == stream[at..at + |last|]
  }

  lemma {:induction false} ParsedGrows(stream: seq<byte>, more: seq<byte>, done: seq<seq<byte>>)
    requires Parsed(stream, done)
    ensures Parsed(stream + more, done)
    decreases |done|
  {
    if done != [] {
      var front, last := done[..|done| - 1], done[|done| - 1];
      var at := |Joined(front)|;
      ParsedGrows(stream, more, front);
      assert (stream + more)[at..at + |last|] == stream[at..at + |last|];
    }
  }

  /** Where the handled commands end: at the consumer, or behind the command being advanced over. */
  predicate Consumes(s: State) {
    Parsed(s.stream, s.done)
    && |Joined(s.done)| == s.consumer + (if s.host.Advancing? then |s.host.command| else 0)
  }

  lemma JoinedAppend(done: seq<seq<byte>>, c: seq<byte>)
    ensures Joined(done + [c]) == Joined(done) + c
  {
    assert (done + [c])[..|done|] == done;
  }

  lemma GuestConsumes(s: State)
    requires Safe(s) && Consumes(s)
    ensures Consumes(GuestStep(s))
  {
    ParsedGrows(s.stream, s.staging, s.done);
  }

  lemma HandledConsumes(s: State)
    requires HostOk(s) && Consumes(s) && s.host.Handling?
    ensures Parsed(s.stream, s.done + [s.host.command])
    ensures |Joined(s.done + [s.host.command])| == s.consumer + |s.host.command|
  {
    JoinedAppend(s.done, s.host.command);
    assert (s.done + [s.host.command])[..|s.done|] == s.done;
  }

  /** Only a handled command is added, and only advancing moves the consumer. */
  lemma HostAdvances(s: State, handled: bool)
    requires 0 < |s.ring| && !(s.host.Handling? && handled)
    ensures var t := HostStep(s, handled);
      && t.stream == s.stream && t.done == s.done && !t.host.Advancing?
      && t.consumer == s.consumer + (if s.host.Advancing? then |s.host.command| else 0)
  {
  }

  lemma HostConsumes(s: State, handled: bool)
    requires Safe(s) && Consumes(s)
    ensures Consumes(HostStep(s, handled))
  {
    if s.host.Handling? && handled {
      HandledConsumes(s);
    } else {
      HostAdvances(s, handled);
    }
  }

  lemma EveryStepConsumes(s: State, a: Action)
    requires Safe(s) && Consumes(s)
    ensures Consumes(Step(s, a))
  {
    match a
    case GuestGo => GuestConsumes(s);
    case HostGo => HostConsumes(s, true);
    case HandlerFails => HostConsumes(s, false);
    case _ =>
  }

  /** Under any schedule the handled commands parse the consumed part of the stream: the consumer
      advances by exactly the sum of the handled sizes. */
  lemma {:induction false} ConsumesExactly(size: nat, actions: seq<Action>)
    requires 0 < size
    ensures Safe(After(size, actions)) && Consumes(After(size, actions))
  {
    RingIsSafe(size, actions);
    if actions != [] {
      var before := actions[..|actions| - 1];
      ConsumesExactly(size, before);
      EveryStepConsumes(After(size, before), actions[|actions| - 1]);
    }
  }

  // ---- Framed commands are delivered ------------------------------------------------------

  /** The commands in front of the first ill-framed one. */
  predicate FramedUpTo(written: seq<Command>, n: nat) {
    n <= |written| && forall k | 0 <= k < n :: WellFramed(written[k])
  }

  lemma HeaderInStream(written: seq<Command>, n: nat, stream: seq<byte>)
    requires n < |written| && HEADER_SIZE <= |written[n]|
    requires stream <= Padded(written)
    ensures var at := |Padded(written[..n])|;
      at + HEADER_SIZE <= |stream| ==> Le32(stream, at + 4) == CommandSize(written[n])
  {
    var at := |Padded(written[..n])|;
    PaddedAt(written, n);
    if at + HEADER_SIZE <= |stream| {
      forall k | 0 <= k < HEADER_SIZE ensures stream[at + k] == written[n][k] {
        assert stream[at + k] == Padded(written)[at + k] == Pad(written[n])[k];
      }
    }
  }

  /** The command handled where command d lies is command d. */
  lemma HandledIsWritten(written: seq<Command>, d: nat, stream: seq<byte>, c: seq<byte>)
    requires d < |written| && WellFramed(written[d]) && stream <= Padded(written)
    requires var at := |Padded(written[..d])|; Announced(stream, at, |c|) && c == stream[at..at + |c|]
    ensures c == Pad(written[d])
  {
    var at := |Padded(written[..d])|;
    HeaderInStream(written, d, stream);
    PaddedAt(written, d);
    assert c == Padded(written)[at..at + |c|];
  }

  lemma PadsAppend(written: seq<Command>, d: nat)
    requires d < |written|
    ensures Pads(written[..d + 1]) == Pads(written[..d]) + [Pad(written[d])]
    ensures Padded(written[..d + 1]) == Padded(written[..d]) + Pad(written[d])
  {
    assert written[..d + 1][..d] == written[..d];
  }

  /** A parse of a stream whose first n commands are framed begins with exactly those. */
  lemma {:induction false} ParseIsDelivery(written: seq<Command>, n: nat, stream: seq<byte>, done: seq<seq<byte>>)
    requires FramedUpTo(written, n) && |done| <= n
    requires stream <= Padded(written) && Parsed(stream, done)
    ensures done == Pads(written[..|done|]) && Joined(done) == Padded(written[..|done|])
    decreases |done|
  {
    if done != [] {
      var d := |done| - 1;
      ParseIsDelivery(written, n, stream, done[..d]);
      HandledIsWritten(written, d, stream, done[d]);
      PadsAppend(written, d);
      assert done == done[..d] + [done[d]];
    }
  }

  lemma {:induction false} ParsedFront(stream: seq<byte>, done: seq<seq<byte>>, n: nat)
    requires Parsed(stream, done) && n <= |done|
    ensures Parsed(stream, done[..n]) && |Joined(done[..n])| <= |Joined(done)|
    decreases |done|
  {
    if n < |done| {
      ParsedFront(stream, done[..|done| - 1], n);
      assert done[..|done| - 1][..n] == done[..n];
    } else {
      assert done[..n] == done;
    }
  }

  lemma StreamIsFront(s: State)
    requires Safe(s)
    ensures s.stream <= Padded(s.written)
  {
  }

  /** End to end: as long as the commands written are framed, those handled are the first ones
      written, each once, in order and whole, and the consumer stands right behind them. Between
      commands the unread bytes are the other published commands, whole; when nothing is unread,
      everything published was handled. */
  lemma DeliveredInOrder(size: nat, actions: seq<Action>)
    requires 0 < size && AllFramed(After(size, actions).written)
    ensures var s := After(size, actions);
      && |s.done| <= s.published <= |s.written|
      && s.done == Pads(s.written[..|s.done|])
      && Padded(s.written[..|s.done|]) == Joined(s.done)
      && Padded(s.written) == s.stream + s.staging
      && (!s.host.Advancing? ==>
            && s.consumer == |Padded(s.written[..|s.done|])| <= |s.stream|
            && s.stream[s.consumer..] == Padded(s.written[|s.done|..s.published])
            && (s.consumer == s.producer ==> |s.done| == s.published))
  {
    var s := After(size, actions);
    ConsumesExactly(size, actions);
    StreamIsFront(s);
    NotMoreThanPublished(s);
    ParseIsDelivery(s.written, |s.written|, s.stream, s.done);
    RestOfStream(s.written, |s.done|, s.published);
  }

  /** Behind the first d commands lie the others, whole, and none only if there are none. */
  lemma RestOfStream(written: seq<Command>, d: nat, published: nat)
    requires AllHeaded(written) && d <= published <= |written|
    ensures var stream, start := Padded(written[..published]), |Padded(written[..d])|;
      start <= |stream| && stream[start..] == Padded(written[d..published]) && (start == |stream| ==> d == published)
  {
    assert written[..published] == written[..d] + written[d..published];
    PaddedSplit(written[..d], written[d..published]);
    PaddedGrows(written, d, published);
  }

  lemma NotMoreThanPublished(s: State)
    requires Safe(s) && Consumes(s) && AllFramed(s.written)
    ensures |s.done| <= s.published
  {
    if s.published < |s.done| {
      var d := s.published;
      StreamIsFront(s);
      ParsedFront(s.stream, s.done, d + 1);
      ParsedFront(s.stream, s.done, d);
      assert s.done[..d + 1][..d] == s.done[..d];
      ParseIsDelivery(s.written, d, s.stream, s.done[..d]);
    }
  }

  /** The general case: the commands in front of the first ill-framed one are delivered, whatever
      follows them. */
  lemma DeliveredUpTo(size: nat, actions: seq<Action>, n: nat)
    requires 0 < size && FramedUpTo(After(size, actions).written, n)
    ensures var s := After(size, actions); var d := if |s.done| < n then |s.done| else n;
      s.done[..d] == Pads(s.written[..d]) && Joined(s.done[..d]) == Padded(s.written[..d])
  {
    var s := After(size, actions);
    var d := if |s.done| < n then |s.done| else n;
    ConsumesExactly(size, actions);
    StreamIsFront(s);
    ParsedFront(s.stream, s.done, d);
    ParseIsDelivery(s.written, n, s.stream, s.done[..d]);
  }

  lemma {:induction false} JoinedPads(written: seq<Command>, k: nat)
    requires k <= |written|
    ensures Joined(Pads(written[..k])) == Padded(written[..k])
  {
    if k > 0 {
      JoinedPads(written, k - 1);
      PadsAppend(written, k - 1);
      JoinedAppend(Pads(written[..k - 1]), Pad(written[k - 1]));
    }
  }

  /** A command that was handled whole, behind whole commands, announced its padded size. */
  lemma HandledIsFramed(written: seq<Command>, stream: seq<byte>, done: seq<seq<byte>>, k: nat)
    requires AllHeaded(written) && stream <= Padded(written) && Parsed(stream, done) && k < |written|
    requires k < |done| && done[..k] == Pads(written[..k]) && done[k] == Pad(written[k])
    ensures WellFramed(written[k])
  {
    ParsedAt(stream, done, k);
    JoinedPads(written, k);
    HeaderInStream(written, k, stream);
  }

  lemma PadsIndex(written: seq<Command>, m: nat, k: nat)
    requires k < m <= |written|
    ensures Pads(written[..m])[..k] == Pads(written[..k]) && Pads(written[..m])[k] == Pad(written[k])
  {
  }

  /** Delivery is framing: in every reachable state, what was handled is what was written, whole and
      in order, if and only if those commands announce their padded sizes. */
  lemma DeliveryIsFraming(size: nat, actions: seq<Action>)
    requires 0 < size && |After(size, actions).done| <= |After(size, actions).written|
    ensures var s := After(size, actions);
      s.done == Pads(s.written[..|s.done|]) <==> FramedUpTo(s.written, |s.done|)
  {
    var s := After(size, actions);
    ConsumesExactly(size, actions);
    StreamIsFront(s);
    if FramedUpTo(s.written, |s.done|) {
      ParseIsDelivery(s.written, |s.done|, s.stream, s.done);
    } else if s.done == Pads(s.written[..|s.done|]) {
      forall k | 0 <= k < |s.done| ensures WellFramed(s.written[k]) {
        PadsIndex(s.written, |s.done|, k);
        HandledIsFramed(s.written, s.stream, s.done, k);
      }
    }
  }

  /** At the consumer position lies the next command to handle. */
  predicate AtCommand(s: State, d: nat) {
    Safe(s) && AllFramed(s.written) && d <= s.published <= |s.written| && s.consumer == |Padded(s.written[..d])|
  }

  lemma WholeInFront(written: seq<Command>, d: nat, upTo: nat, published: nat)
    requires AllHeaded(written) && d <= published <= |written| && upTo <= published
    requires |Padded(written[..d])| < |Padded(written[..upTo])|
    ensures d < upTo && |Padded(written[..d + 1])| <= |Padded(written[..upTo])| <= |Padded(written[..published])|
  {
    if upTo <= d {
      PaddedGrows(written, upTo, d);
    }
    PaddedGrows(written, d + 1, upTo);
    PaddedGrows(written, upTo, published);
  }

  lemma PublishedBeyond(s: State, d: nat, upTo: nat)
    requires AtCommand(s, d) && upTo <= s.published && s.consumer < |Padded(s.written[..upTo])|
    ensures d < upTo && s.consumer + Align16(|s.written[d]|) <= |Padded(s.written[..upTo])| <= |s.stream|
    ensures Le32(s.stream, s.consumer + 4) == Align16(|s.written[d]|)
    ensures s.stream[s.consumer..s.consumer + Align16(|s.written[d]|)] == Pad(s.written[d])
  {
    WholeInFront(s.written, d, upTo, s.published);
    StreamIsFront(s);
    WholeAt(s.written, d, s.stream, s.consumer);
  }

  /** A written command that lies wholly in the stream is announced and found there. */
  lemma WholeAt(written: seq<Command>, d: nat, stream: seq<byte>, at: nat)
    requires d < |written| && WellFramed(written[d]) && stream <= Padded(written) && at == |Padded(written[..d])|
    requires |Padded(written[..d + 1])| <= |stream|
    ensures at + Align16(|written[d]|) == |Padded(written[..d + 1])|
    ensures Le32(stream, at + 4) == Align16(|written[d]|)
    ensures stream[at..at + Align16(|written[d]|)] == Pad(written[d])
  {
    PaddedAt(written, d);
    HeaderInStream(written, d, stream);
    SliceOfFront(stream, Padded(written), at, at + Align16(|written[d]|));
  }

  lemma SliceOfFront(front: seq<byte>, whole: seq<byte>, a: nat, b: nat)
    requires front <= whole && a <= b <= |front|
    ensures front[a..b] == whole[a..b]
  {
  }

  // ---- The next command is reached --------------------------------------------------------

  /** On the way to the next command: something is unread and the host polls or reads. */
  predicate Coming(s: State) {
    s.consumer < s.producer && (s.host.Resting? || Reading(s.host))
  }

  predicate Reading(h: Host) {
    h.Slice? || h.SliceBody? || h.CopyHeader? || h.CopyBody?
  }

  /** How many steps the host takes at most to reach a command of this size. */
  function Distance(h: Host, size: nat): nat {
    match h
    case Resting => size + 11
    case Slice(_, _) => 2
    case SliceBody(_, _) => 1
    case CopyHeader(_, got, _) => size + (if |got| < 8 then 10 - |got| else 2)
    case CopyBody(_, got, _) => if |got| < size then size - |got| + 1 else 1
    case _ => 0
  }

  /** The host's step handles command c or comes closer to it. */
  predicate Nearer(h: Host, next: Host, c: Command) {
    next == Handling(Pad(c)) || (Reading(next) && Distance(next, Align16(|c|)) < Distance(h, Align16(|c|)))
  }

  lemma PollNearer(s: State, d: nat)
    requires AtCommand(s, d) && s.host.Resting? && s.consumer < s.producer
    ensures d < s.published && Nearer(s.host, HostStep(s, true).host, s.written[d])
  {
    PublishedBeyond(s, d, s.published);
  }

  lemma SliceNearer(s: State, d: nat)
    requires AtCommand(s, d) && s.host.Slice?
    ensures d < s.published && Nearer(s.host, HostStep(s, true).host, s.written[d])
  {
    PublishedBeyond(s, d, s.host.upTo);
    WindowIsStream(s, 8);
    HeaderRead(s, Window(s.ring, s.consumer, 8));
  }

  lemma CopyHeaderNearer(s: State, d: nat)
    requires AtCommand(s, d) && s.host.CopyHeader?
    ensures d < s.published && Nearer(s.host, HostStep(s, true).host, s.written[d])
  {
    PublishedBeyond(s, d, s.host.upTo);
    if |s.host.got| == 8 {
      HeaderRead(s, s.host.got);
    }
  }

  lemma BodyNearer(s: State, d: nat)
    requires AtCommand(s, d) && (s.host.SliceBody? || s.host.CopyBody?)
    ensures d < s.published && Nearer(s.host, HostStep(s, true).host, s.written[d])
  {
    assert s.consumer + HEADER_SIZE <= |s.stream|;
    PublishedBeyond(s, d, s.published);
    if s.host.SliceBody? {
      WindowIsStream(s, s.host.size);
    } else if |s.host.got| == s.host.size {
      CopyIsWhole(s, s.host.got);
    }
  }

  lemma HostComesNearer(s: State, d: nat)
    requires AtCommand(s, d) && Coming(s)
    ensures d < s.published && Nearer(s.host, HostStep(s, true).host, s.written[d])
  {
    if s.host.Resting? {
      PollNearer(s, d);
    } else if s.host.Slice? {
      SliceNearer(s, d);
    } else if s.host.CopyHeader? {
      CopyHeaderNearer(s, d);
    } else {
      BodyNearer(s, d);
    }
  }

  lemma StandsAtCommand(size: nat, actions: seq<Action>)
    requires 0 < size && AllFramed(After(size, actions).written) && !After(size, actions).host.Advancing?
    ensures AtCommand(After(size, actions), |After(size, actions).done|)
  {
    RingIsSafe(size, actions);
    DeliveredInOrder(size, actions);
  }

  /** With framed commands the host never gives up on what is unread: a poll finds it, and each
      step from the poll on brings it nearer to handling the next written command, whole. */
  lemma FramedNeverGivesUp(size: nat, actions: seq<Action>)
    requires 0 < size && AllFramed(After(size, actions).written) && Coming(After(size, actions))
    ensures var s := After(size, actions);
      |s.done| < s.published <= |s.written| && Nearer(s.host, HostStep(s, true).host, s.written[|s.done|])
  {
    StandsAtCommand(size, actions);
    HostComesNearer(After(size, actions), |After(size, actions).done|);
  }

  // ---- An ill-framed command stops the transport ------------------------------------------

  /** A command that announces its own length with eight or more bytes of padding behind it, like
      the driver's fence. */
  predicate ShortFramed(c: Command) {
    HEADER_SIZE <= |c| == CommandSize(c) && |c| + 8 <= Align16(|c|)
  }

  /** Where handled command k lies in the stream. */
  lemma {:induction false} ParsedAt(stream: seq<byte>, done: seq<seq<byte>>, k: nat)
    requires Parsed(stream, done) && k < |done|
    ensures var at := |Joined(done[..k])|;
      && Announced(stream, at, |done[k]|) && done[k] == stream[at..at + |done[k]|]
      && |Joined(done[..k + 1])| == at + |done[k]|
    decreases |done|
  {
    if k + 1 < |done| {
      var front := done[..|done| - 1];
      ParsedAt(stream, front, k);
      assert front[..k] == done[..k] && front[..k + 1] == done[..k + 1];
    } else {
      assert done[..k + 1] == done;
    }
  }

  lemma ShortIsNext(written: seq<Command>, n: nat, stream: seq<byte>, done: seq<seq<byte>>)
    requires FramedUpTo(written, n) && n < |written| && ShortFramed(written[n]) && n < |done|
    requires stream <= Padded(written) && Parsed(stream, done)
    ensures done[n] == written[n]
    ensures |Joined(done[..n + 1])| == |Padded(written[..n])| + |written[n]|
  {
    ParsedFront(stream, done, n);
    ParseIsDelivery(written, n, stream, done[..n]);
    ParsedAt(stream, done, n);
    ShortIsHandled(written, n, stream, done[n]);
  }

  lemma EmptyIsNext(written: seq<Command>, n: nat, stream: seq<byte>, done: seq<seq<byte>>, k: nat)
    requires n < |written| && |written[n]| + 8 <= Align16(|written[n]|) && k < |done|
    requires stream <= Padded(written) && Parsed(stream, done)
    requires |Joined(done[..k])| == |Padded(written[..n])| + |written[n]|
    ensures done[k] == [] && |Joined(done[..k + 1])| == |Joined(done[..k])|
  {
    ParsedAt(stream, done, k);
    ZeroAhead(written, n, stream, |Joined(done[..k])|);
  }

  /** Once it is handled, everything handled after it is empty and the consumer stands still for
      ever, however many commands follow. */
  lemma {:induction false} StandsStill(written: seq<Command>, n: nat, stream: seq<byte>, done: seq<seq<byte>>, k: nat)
    requires FramedUpTo(written, n) && n < |written| && ShortFramed(written[n]) && n < k <= |done|
    requires stream <= Padded(written) && Parsed(stream, done)
    ensures |Joined(done[..k])| == |Padded(written[..n])| + |written[n]|
    decreases k
  {
    if k == n + 1 {
      ShortIsNext(written, n, stream, done);
    } else {
      StandsStill(written, n, stream, done, k - 1);
      EmptyIsNext(written, n, stream, done, k - 1);
    }
  }

  lemma ShortFramedStalls(written: seq<Command>, n: nat, stream: seq<byte>, done: seq<seq<byte>>)
    requires FramedUpTo(written, n) && n < |written| && ShortFramed(written[n]) && n < |done|
    requires stream <= Padded(written) && Parsed(stream, done)
    ensures done[n] == written[n]
    ensures forall k | n < k < |done| :: done[k] == []
    ensures |Joined(done)| == |Padded(written[..n])| + |written[n]|
  {
    ShortIsNext(written, n, stream, done);
    forall k | n < k < |done| ensures done[k] == [] {
      StandsStill(written, n, stream, done, k);
      EmptyIsNext(written, n, stream, done, k);
    }
    StandsStill(written, n, stream, done, |done|);
    assert done[..|done|] == done;
  }

  lemma ShortIsHandled(written: seq<Command>, n: nat, stream: seq<byte>, c: seq<byte>)
    requires n < |written| && ShortFramed(written[n]) && stream <= Padded(written)
    requires var at := |Padded(written[..n])|; Announced(stream, at, |c|) && c == stream[at..at + |c|]
    ensures c == written[n]
  {
    var at := |Padded(written[..n])|;
    HeaderInStream(written, n, stream);
    PaddedAt(written, n);
    assert c == Padded(written)[at..at + Align16(|written[n]|)][..|c|];
    assert Pad(written[n])[..|c|] == written[n];
  }

  lemma ZeroAhead(written: seq<Command>, n: nat, stream: seq<byte>, at: nat)
    requires n < |written| && |written[n]| + 8 <= Align16(|written[n]|) && stream <= Padded(written)
    requires at == |Padded(written[..n])| + |written[n]| && at + HEADER_SIZE <= |stream|
    ensures Le32(stream, at + 4) == 0
  {
    PaddedAt(written, n);
    var start := |Padded(written[..n])|;
    forall i | at <= i < at + 8 ensures stream[i] == 0 {
      assert stream[i] == Padded(written)[i] == Pad(written[n])[i - start];
    }
  }

  /** So the first short-framed command is the last one to be delivered: the machine never
      completes a later one. */
  lemma NothingAfterShortFramed(size: nat, actions: seq<Action>, n: nat)
    requires 0 < size
    requires var s := After(size, actions);
      FramedUpTo(s.written, n) && n < |s.written| && ShortFramed(s.written[n]) && n < |s.done|
    ensures var s := After(size, actions);
      && s.done[..n] == Pads(s.written[..n]) && s.done[n] == s.written[n]
      && (forall k | n < k < |s.done| :: s.done[k] == [])
      && s.consumer <= |Padded(s.written[..n])| + |s.written[n]|
  {
    var s := After(size, actions);
    ConsumesExactly(size, actions);
    StreamIsFront(s);
    DeliveredUpTo(size, actions, n);
    ShortFramedStalls(s.written, n, s.stream, s.done);
  }
}
