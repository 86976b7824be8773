/** Command bytes: little-endian header fields, padding to sixteen bytes, and the streams that
    padded commands make. */
module Bytes {

  type byte = b: int | 0 <= b < 256

  type Command = seq<byte>

  const HEADER_SIZE: nat := 16
  const CMD_FENCE: nat := 0x0301

  // ---- Header fields ----------------------------------------------------------------------

  function Le32(s: seq<byte>, at: nat): (r: nat)
    requires at + 4 <= |s|
    ensures r < 0x1_0000_0000
  {
    var b0: int, b1: int, b2: int, b3: int := s[at], s[at + 1], s[at + 2], s[at + 3];
    b0 + 0x100 * b1 + 0x1_0000 * b2 + 0x100_0000 * b3
  }

  function Le64(s: seq<byte>, at: nat): (r: nat)
    requires at + 8 <= |s|
    ensures r < 0x1_0000_0000_0000_0000
  {
    Le32(s, at) + 0x1_0000_0000 * Le32(s, at + 4)
  }

  function CommandType(c: seq<byte>): nat
    requires HEADER_SIZE <= |c|
  {
    Le32(c, 0)
  }

  /** The size a command announces in its header. */
  function CommandSize(c: seq<byte>): nat
    requires 8 <= |c|
  {
    Le32(c, 4)
  }

  function Low32(v: nat): seq<byte> {
    [v % 0x100, v / 0x100 % 0x100, v / 0x1_0000 % 0x100, v / 0x100_0000 % 0x100]
  }

  function Low64(v: nat): seq<byte> {
    Low32(v % 0x1_0000_0000) + Low32(v / 0x1_0000_0000)
  }

  // ---- Padding ----------------------------------------------------------------------------

  function Align16(n: nat): (r: nat)
    ensures n <= r < n + 16 && r % 16 == 0
  {
    (n + 15) / 16 * 16
  }

  function Zeros(n: nat): (r: seq<byte>)
    ensures |r| == n
  {
    seq(n, _ => 0)
  }

  function Pad(c: Command): (r: seq<byte>)
    ensures |r| == Align16(|c|) && c <= r
  {
    c + Zeros(Align16(|c|) - |c|)
  }

  /** A command that announces exactly the room it takes in the stream. */
  predicate WellFramed(c: Command) {
    HEADER_SIZE <= |c| && CommandSize(c) == Align16(|c|)
  }

  predicate AllFramed(commands: seq<Command>) {
    forall k | 0 <= k < |commands| :: WellFramed(commands[k])
  }

  /** Commands as WriteCommand accepts them. */
  predicate AllHeaded(commands: seq<Command>) {
    forall k | 0 <= k < |commands| :: HEADER_SIZE <= |commands[k]|
  }

  // ---- Streams of padded commands ---------------------------------------------------------

  function Pads(commands: seq<Command>): (r: seq<seq<byte>>)
    ensures |r| == |commands|
  {
    seq(|commands|, k requires 0 <= k < |commands| => Pad(commands[k]))
  }

  function Padded(commands: seq<Command>): seq<byte> {
    if commands == [] then [] else Padded(commands[..|commands| - 1]) + Pad(commands[|commands| - 1])
  }

  lemma PaddedAppend(commands: seq<Command>, c: Command)
    ensures Padded(commands + [c]) == Padded(commands) + Pad(c)
  {
    assert (commands + [c])[..|commands|] == commands;
  }

  /** A front part of the commands makes a front part of the stream. */
  lemma {:induction false} PaddedFront(commands: seq<Command>, n: nat)
    requires n <= |commands|
    ensures Padded(commands[..n]) <= Padded(commands)
    decreases |commands|
  {
    if n < |commands| {
      var front := commands[..|commands| - 1];
      PaddedFront(front, n);
      assert front[..n] == commands[..n];
    } else {
      assert commands[..n] == commands;
    }
  }

  /** Where command n lies in the stream. */
  lemma PaddedAt(commands: seq<Command>, n: nat)
    requires n < |commands|
    ensures var start := |Padded(commands[..n])|; var end := start + Align16(|commands[n]|);
      && end == |Padded(commands[..n + 1])| && end <= |Padded(commands)|
      && Padded(commands)[start..end] == Pad(commands[n])
  {
    PaddedFront(commands, n + 1);
    assert commands[..n + 1][..n] == commands[..n];
  }

  /** A longer front part reaches strictly further. */
  lemma {:induction false} PaddedGrows(commands: seq<Command>, m: nat, n: nat)
    requires m <= n <= |commands| && AllHeaded(commands)
    ensures |Padded(commands[..m])| <= |Padded(commands[..n])|
    ensures m < n ==> |Padded(commands[..m])| < |Padded(commands[..n])|
  {
    PaddedFront(commands[..n], m);
    assert commands[..n][..m] == commands[..m];
    if m < n {
      PaddedAt(commands, m);
      PaddedFront(commands[..n], m + 1);
      assert commands[..n][..m + 1] == commands[..m + 1];
    }
  }
}
