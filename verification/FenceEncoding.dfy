/** Fences as bytes. A fence command names its kind in its first four bytes and its value in the
    eight bytes behind its header; what the backend completes is read back from there. */
module FenceEncoding {
  import opened Bytes
  import opened Framing
  import opened Transport
  import opened Delivery
  import opened Fences
  import opened Submission

  /** The bytes of a fence with this value, wherever they come from. */
  predicate Encodes(c: seq<byte>, value: nat) {
    24 <= |c| && c[..4] == Low32(CMD_FENCE) && c[16..24] == Low64(value)
  }

  lemma Low32ReadsBack(v: nat)
    requires v < 0x1_0000_0000
    ensures |Low32(v)| == 4 && Le32(Low32(v), 0) == v
  {
    assert v / 0x1_0000 == v / 0x100 / 0x100;
    assert v / 0x100_0000 == v / 0x1_0000 / 0x100;
    assert v / 0x100_0000 < 0x100;
  }

  lemma Le32ReadsBack(s: seq<byte>)
    requires |s| == 4
    ensures Low32(Le32(s, 0)) == s
  {
    var b0: int, b1: int, b2: int, b3: int := s[0], s[1], s[2], s[3];
    var v := Le32(s, 0);
    assert v / 0x100 == b1 + 0x100 * b2 + 0x1_0000 * b3;
    assert v / 0x1_0000 == b2 + 0x100 * b3;
    assert v / 0x100_0000 == b3;
  }

  /** Four bytes of a longer sequence, read there or cut out. */
  lemma Le32Slice(s: seq<byte>, at: nat)
    requires at + 4 <= |s|
    ensures Le32(s, at) == Le32(s[at..at + 4], 0)
  {
  }

  lemma Low32Slice(s: seq<byte>, at: nat, v: nat)
    requires at + 4 <= |s| && v < 0x1_0000_0000
    ensures Le32(s, at) == v <==> s[at..at + 4] == Low32(v)
  {
    Le32Slice(s, at);
    Le32ReadsBack(s[at..at + 4]);
    Low32ReadsBack(v);
  }

  lemma Low64Slice(s: seq<byte>, at: nat, v: nat)
    requires at + 8 <= |s| && v < 0x1_0000_0000_0000_0000
    ensures Le64(s, at) == v <==> s[at..at + 8] == Low64(v)
  {
    var low, high := v % 0x1_0000_0000, v / 0x1_0000_0000;
    Low32Slice(s, at, low);
    Low32Slice(s, at + 4, high);
    assert Le64(s, at) == v <==> Le32(s, at) == low && Le32(s, at + 4) == high;
    var cut := s[at..at + 8];
    assert cut[..4] == s[at..at + 4] && cut[4..] == s[at + 4..at + 8];
    assert Low64(v)[..4] == Low32(low) && Low64(v)[4..] == Low32(high);
    assert cut == cut[..4] + cut[4..] && Low64(v) == Low64(v)[..4] + Low64(v)[4..];
  }

  /** What the backend takes for a fence with a value is exactly what encodes one. */
  lemma FencesReadBack(c: seq<byte>, value: nat)
    requires value < 0x1_0000_0000_0000_0000
    ensures IsFence(c) && FenceValue(c) == value <==> Encodes(c, value)
  {
    if 24 <= |c| {
      assert c[0..4] == c[..4];
      Low32Slice(c, 0, CMD_FENCE);
      Low64Slice(c, 16, value);
    }
  }

  /** Header and value of a fence as a driver lays it out. */
  function FenceBytes(size: nat, h: seq<byte>, value: nat, rest: seq<byte>): Command {
    Low32(CMD_FENCE) + Low32(size) + h + Low64(value) + rest
  }

  lemma FenceBytesEncode(size: nat, h: seq<byte>, value: nat, rest: seq<byte>)
    requires |h| == 8 && size < 0x1_0000_0000
    ensures var c := FenceBytes(size, h, value, rest);
      && Encodes(c, value) && Encodes(Pad(c), value)
      && HEADER_SIZE <= |c| && CommandSize(c) == size && CommandType(c) == CMD_FENCE
  {
    var c := FenceBytes(size, h, value, rest);
    assert c[0..4] == Low32(CMD_FENCE) && c[4..8] == Low32(size) && c[16..24] == Low64(value);
    Low32Slice(c, 0, CMD_FENCE);
    Low32Slice(c, 4, size);
    PadEncodes(c, value);
  }

  lemma PadEncodes(c: Command, value: nat)
    requires Encodes(c, value)
    ensures Encodes(Pad(c), value)
  {
    assert Pad(c)[..4] == c[..4] && Pad(c)[16..24] == c[16..24];
  }

  /** The driver's own fence is one of its value, padded or not. */
  lemma DriverFenceEncodes(value: nat)
    requires value < 0x1_0000_0000_0000_0000
    ensures var c := DriverFence(value);
      && IsFence(c) && FenceValue(c) == value && IsFence(Pad(c)) && FenceValue(Pad(c)) == value
  {
    var c := DriverFence(value);
    assert c == FenceBytes(24, Zeros(8), value, []);
    FenceBytesEncode(24, Zeros(8), value, []);
    FencesReadBack(c, value);
    FencesReadBack(Pad(c), value);
  }

  predicate SomeEncodes(done: seq<seq<byte>>, value: nat) {
    exists k :: 0 <= k < |done| && Encodes(done[k], value)
  }

  /** Between commands the completed fence is at least every value that a handled command encodes,
      and some handled command encodes it, unless it is zero. */
  lemma CompletedIsEncoded(size: nat, actions: seq<Action>, value: nat)
    requires 0 < size && After(size, actions).host.Resting? && value < 0x1_0000_0000_0000_0000
    ensures var s := After(size, actions);
      && (SomeEncodes(s.done, value) ==> value <= s.hostFence)
      && (s.hostFence == 0 || SomeEncodes(s.done, s.hostFence))
  {
    var s := After(size, actions);
    CompletedFenceIsMaximum(size, actions);
    MaxFenceIsMaximum(s.done);
    if k :| 0 <= k < |s.done| && Encodes(s.done[k], value) {
      FencesReadBack(s.done[k], value);
    }
    if s.hostFence != 0 {
      var k :| 0 <= k < |s.done| && IsFence(s.done[k]) && FenceValue(s.done[k]) == MaxFence(s.done);
      FencesReadBack(s.done[k], s.hostFence);
    }
  }

  /** End to end: once the host has handled a submitted fence and everything in front of it is
      framed, and it rests, the guest sees at least that fence completed. */
  lemma SubmittedFenceCompletes(size: nat, actions: seq<Action>, n: nat, value: nat)
    requires 0 < size && After(size, actions).host.Resting? && value < 0x1_0000_0000_0000_0000
    requires var submitted := Submitted(size, actions);
      n < |submitted| && FramedUpTo(submitted, n + 1) && Encodes(submitted[n], value)
    requires n < |After(size, actions).done|
    ensures value <= After(size, actions).hostFence
  {
    var s, submitted := After(size, actions), Submitted(size, actions);
    FrontIsDelivered(size, actions, n + 1);
    assert s.done[..n + 1][n] == s.done[n];
    assert Pads(submitted[..n + 1])[n] == Pad(submitted[n]);
    PadEncodes(submitted[n], value);
    CompletedIsEncoded(size, actions, value);
  }
}
