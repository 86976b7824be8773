/** How the backend cuts a byte stream into commands, and exactly when it finds the commands that
    the driver wrote. */
module Framing {
  import opened Wrappers
  import opened Bytes

  /** What process_command makes of the bytes it is given before it dispatches. */
  datatype Cut = TooSmall | TooLong | Taken(command: seq<byte>)

  function Take(data: seq<byte>): (r: Cut)
    ensures r.Taken? ==> HEADER_SIZE <= |data| && r.command <= data && |r.command| == CommandSize(data)
  {
    if |data| < HEADER_SIZE then TooSmall
    else if CommandSize(data) > |data| then TooLong
    else Taken(data[..CommandSize(data)])
  }

  /** Take command after command until the stream is used up; None when it cannot be. */
  function Parse(stream: seq<byte>): Option<seq<seq<byte>>> {
    if stream == [] then Some([]) else
      var cut := Take(stream);
      if !cut.Taken? || cut.command == [] then None else
        var rest :- Parse(stream[|cut.command|..]);
        Some([cut.command] + rest)
  }

  lemma {:induction false} PaddedFirst(commands: seq<Command>)
    requires commands != []
    ensures Padded(commands) == Pad(commands[0]) + Padded(commands[1..])
    decreases |commands|
  {
    var last := |commands| - 1;
    if last > 0 {
      PaddedFirst(commands[..last]);
      assert commands[..last][1..] == commands[1..][..last - 1];
    } else {
      assert commands[..last] == [] && commands[1..] == [];
    }
  }

  lemma HeaderOfPad(c: Command, tail: seq<byte>)
    requires HEADER_SIZE <= |c|
    ensures CommandSize(Pad(c) + tail) == CommandSize(c) && CommandType(Pad(c) + tail) == CommandType(c)
  {
  }

  /** A command is cut where it says it ends. */
  lemma TakeFromPad(c: Command, tail: seq<byte>)
    requires HEADER_SIZE <= |c| && CommandSize(c) <= Align16(|c|)
    ensures Take(Pad(c) + tail) == Taken(Pad(c)[..CommandSize(c)])
  {
    HeaderOfPad(c, tail);
    assert (Pad(c) + tail)[..CommandSize(c)] == Pad(c)[..CommandSize(c)];
  }

  lemma ParseStep(c: Command, tail: seq<byte>)
    requires WellFramed(c)
    ensures Parse(Pad(c) + tail) == if Parse(tail).Some? then Some([Pad(c)] + Parse(tail).value) else None
  {
    TakeFromPad(c, tail);
    assert Pad(c)[..CommandSize(c)] == Pad(c);
    assert (Pad(c) + tail)[|Pad(c)|..] == tail;
  }

  lemma PadsFirst(commands: seq<Command>)
    requires commands != []
    ensures Pads(commands) == [Pad(commands[0])] + Pads(commands[1..])
  {
  }

  /** A framed command in front of a stream that parses. */
  lemma ParseGrows(commands: seq<Command>, c: Command, rest: seq<Command>)
    requires commands != [] && c == commands[0] && rest == commands[1..] && WellFramed(c)
    requires Parse(Padded(rest)) == Some(Pads(rest))
    ensures Parse(Padded(commands)) == Some(Pads(commands))
  {
    PaddedFirst(commands);
    PadsFirst(commands);
    ParseStep(c, Padded(rest));
  }

  lemma {:induction false} FramedStreamsParse(commands: seq<Command>)
    requires AllFramed(commands)
    ensures Parse(Padded(commands)) == Some(Pads(commands))
    decreases |commands|
  {
    if commands != [] {
      FramedStreamsParse(commands[1..]);
      ParseGrows(commands, commands[0], commands[1..]);
    }
  }

  lemma {:induction false} ParsedStreamsAreFramed(commands: seq<Command>)
    requires AllHeaded(commands) && Parse(Padded(commands)) == Some(Pads(commands))
    ensures AllFramed(commands)
    decreases |commands|
  {
    if commands != [] {
      var c, rest := commands[0], commands[1..];
      PaddedFirst(commands);
      HeaderOfPad(c, Padded(rest));
      var stream := Padded(commands);
      assert Take(stream).command == Pads(commands)[0];
      assert stream[|Pad(c)|..] == Padded(rest);
      assert Pads(commands)[1..] == Pads(rest);
      ParsedStreamsAreFramed(rest);
      forall k | 0 <= k < |commands| ensures WellFramed(commands[k]) {
        assert k > 0 ==> commands[k] == rest[k - 1];
      }
    }
  }

  /** The backend finds exactly the padded commands in the stream they make, if and only if each
      announces its padded size. */
  lemma FramingIsExact(commands: seq<Command>)
    requires AllHeaded(commands)
    ensures Parse(Padded(commands)) == Some(Pads(commands)) <==> AllFramed(commands)
  {
    if AllFramed(commands) {
      FramedStreamsParse(commands);
    } else if Parse(Padded(commands)) == Some(Pads(commands)) {
      ParsedStreamsAreFramed(commands);
    }
  }

  // ---- Commands whose announced size leaves out the padding -------------------------------

  /** The bytes at hand hold a header that announces nothing: taking it consumes nothing. */
  predicate Stuck(data: seq<byte>) {
    Take(data) == TooSmall || Take(data) == Taken([])
  }

  lemma {:induction false} PaddedSplit(front: seq<Command>, back: seq<Command>)
    ensures Padded(front + back) == Padded(front) + Padded(back)
    decreases |back|
  {
    if back == [] {
      assert front + back == front;
    } else {
      var init, last := back[..|back| - 1], back[|back| - 1];
      PaddedSplit(front, init);
      assert front + back == (front + init) + [last];
      PaddedAppend(front + init, last);
      Regroup(Padded(front), Padded(init), Pad(last));
    }
  }

  lemma ZeroHeader(data: seq<byte>)
    requires HEADER_SIZE <= |data| && forall k | 0 <= k < 8 :: data[k] == 0
    ensures Take(data) == Taken([])
  {
  }

  lemma StallsBehind(c: Command, tail: seq<byte>, pending: nat)
    requires |c| + 8 <= Align16(|c|) && |c| + pending <= |Pad(c) + tail|
    ensures Stuck((Pad(c) + tail)[|c|..|c| + pending])
  {
    var data := (Pad(c) + tail)[|c|..|c| + pending];
    if HEADER_SIZE <= pending {
      forall k | 0 <= k < 8 ensures data[k] == 0 {
        assert data[k] == Pad(c)[|c| + k];
      }
      ZeroHeader(data);
    }
  }

  lemma StreamAround(front: seq<Command>, c: Command, rest: seq<Command>)
    ensures Padded(front + [c] + rest) == Padded(front) + (Pad(c) + Padded(rest))
  {
    PaddedSplit(front + [c], rest);
    PaddedAppend(front, c);
  }

  lemma SliceBehind(a: seq<byte>, here: seq<byte>, from: nat, n: nat)
    requires from + n <= |here|
    ensures (a + here)[|a| + from..|a| + from + n] == here[from..from + n]
  {
  }

  lemma TakeShort(c: Command, tail: seq<byte>)
    requires HEADER_SIZE <= |c| == CommandSize(c)
    ensures Take(Pad(c) + tail) == Taken(c)
  {
    TakeFromPad(c, tail);
    assert Pad(c)[..|c|] == c;
  }

  /** A command that announces its own length and is followed by at least eight bytes of padding
      brings the backend to a standstill, whatever was and will be written around it. */
  lemma ShortSizeStalls(front: seq<Command>, c: Command, rest: seq<Command>, pending: nat)
    requires HEADER_SIZE <= |c| == CommandSize(c) && |c| + 8 <= Align16(|c|)
    ensures var stream := Padded(front + [c] + rest); var start := |Padded(front)|;
      && start + |c| + 8 <= |stream| && Take(stream[start..]) == Taken(c)
      && (start + |c| + pending <= |stream| ==> Stuck(stream[start + |c|..start + |c| + pending]))
  {
    var a, here, start := Padded(front), Pad(c) + Padded(rest), |Padded(front)|;
    StreamAround(front, c, rest);
    TakeShort(c, Padded(rest));
    assert (a + here)[start..] == here;
    if start + |c| + pending <= |a + here| {
      StallsBehind(c, Padded(rest), pending);
      SliceBehind(a, here, |c|, pending);
    }
  }

  predicate LiesAt(stream: seq<byte>, start: nat, c: Command) {
    start + Align16(|c|) <= |stream| && stream[start..start + Align16(|c|)] == Pad(c)
  }

  /** Each written command lies behind the ones before it. */
  lemma WrittenLies(written: seq<Command>, n: nat)
    requires n < |written|
    ensures LiesAt(Padded(written), |Padded(written[..n])|, written[n])
    ensures |Padded(written[..n + 1])| == |Padded(written[..n])| + Align16(|written[n]|)
  {
    PaddedAt(written, n);
  }

  /** With only four bytes of padding, as behind a command of 44 bytes that announces 44, the
      backend takes the padding and the next command's type for a header: it sees a command of
      type zero whose size is that type. */
  lemma FourShortMisreads(stream: seq<byte>, start: nat, c: Command, next: Command)
    requires HEADER_SIZE <= |c| == CommandSize(c) && Align16(|c|) == |c| + 4 && HEADER_SIZE <= |next|
    requires LiesAt(stream, start, c) && LiesAt(stream, start + Align16(|c|), next)
    ensures Take(stream[start..]) == Taken(c)
    ensures var at := start + |c|; Le32(stream, at) == 0 && Le32(stream, at + 4) == CommandType(next)
  {
    TakeWritten(stream, start, c);
    FourBehind(stream, start, c, next);
  }

  lemma TakeWritten(stream: seq<byte>, start: nat, c: Command)
    requires LiesAt(stream, start, c) && HEADER_SIZE <= |c| == CommandSize(c)
    ensures Take(stream[start..]) == Taken(c)
  {
    var tail := stream[start + Align16(|c|)..];
    assert stream[start..] == Pad(c) + tail;
    TakeShort(c, tail);
  }

  lemma FourBehind(stream: seq<byte>, start: nat, c: Command, next: Command)
    requires Align16(|c|) == |c| + 4 && HEADER_SIZE <= |next|
    requires LiesAt(stream, start, c) && LiesAt(stream, start + Align16(|c|), next)
    ensures var at := start + |c|; Le32(stream, at) == 0 && Le32(stream, at + 4) == CommandType(next)
  {
    var at := start + |c|;
    assert forall i | at <= i < at + 4 :: stream[i] == Pad(c)[i - start] == 0;
    assert forall i | at + 4 <= i < at + 8 :: stream[i] == Pad(next)[i - at - 4] == next[i - at - 4];
  }

  /** The fence command as the driver builds it: 24 bytes that announce 24. */
  function DriverFence(value: nat): Command {
    Low32(CMD_FENCE) + Low32(24) + Zeros(8) + Low64(value)
  }

  /** So framing fails for every stream with a driver fence in it: behind the fence the backend
      finds a header of size zero. */
  lemma DriverFenceStalls(front: seq<Command>, value: nat, rest: seq<Command>, pending: nat)
    ensures !WellFramed(DriverFence(value))
    ensures var stream := Padded(front + [DriverFence(value)] + rest); var next := |Padded(front)| + 24;
      next + pending <= |stream| ==> Stuck(stream[next..next + pending])
  {
    ShortSizeStalls(front, DriverFence(value), rest, pending);
  }

  /** A 36-byte command that announces 36. */
  function Command36(kind: nat): Command {
    Low32(kind) + Low32(36) + Zeros(28)
  }

  lemma Command36Breaks(kind: nat)
    ensures HEADER_SIZE <= |Command36(kind)| && !WellFramed(Command36(kind))
    ensures Parse(Padded([Command36(kind)])) == None
  {
    var c := Command36(kind);
    assert [] + [c] + [] == [c];
    ShortSizeStalls([], c, [], 12);
    var stream := Padded([c]);
    assert stream[0..] == stream && stream == Pad(c);
    assert stream[36..48] == stream[36..];
  }
}
