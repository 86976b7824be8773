/** What a completed fence means. The backend's completed fence is the largest fence value among
    the commands it handled and each rise of it is one interrupt; when the driver numbers its
    fences as it does, seeing a fence completed means that everything written before it was
    handled and consumed. */
module Fences {
  import opened Bytes
  import opened Transport
  import opened Delivery

  // ---- Fences among handled commands ------------------------------------------------------

  function LastFence(done: seq<seq<byte>>): nat {
    if done == [] then 0 else
      var front, last := done[..|done| - 1], done[|done| - 1];
      if IsFence(last) then FenceValue(last) else LastFence(front)
  }

  function MaxFence(done: seq<seq<byte>>): nat {
    if done == [] then 0 else
      var front, last := done[..|done| - 1], done[|done| - 1];
      if IsFence(last) && FenceValue(last) > MaxFence(front) then FenceValue(last) else MaxFence(front)
  }

  /** How often the largest fence value so far has risen. */
  function Rises(done: seq<seq<byte>>): nat {
    if done == [] then 0 else
      var front, last := done[..|done| - 1], done[|done| - 1];
      Rises(front) + if IsFence(last) && FenceValue(last) > MaxFence(front) then 1 else 0
  }

  /** MaxFence is the maximum: an upper bound that is attained unless it is zero. */
  lemma {:induction false} MaxFenceIsMaximum(done: seq<seq<byte>>)
    ensures forall k | 0 <= k < |done| && IsFence(done[k]) :: FenceValue(done[k]) <= MaxFence(done)
    ensures MaxFence(done) == 0 ||
      exists k :: 0 <= k < |done| && IsFence(done[k]) && FenceValue(done[k]) == MaxFence(done)
    ensures LastFence(done) <= MaxFence(done)
    decreases |done|
  {
    if done != [] {
      var d := |done| - 1;
      MaxFenceIsMaximum(done[..d]);
      if MaxFence(done) == MaxFence(done[..d]) && MaxFence(done) != 0 {
        var k :| 0 <= k < d && IsFence(done[..d][k]) && FenceValue(done[..d][k]) == MaxFence(done);
        assert done[..d][k] == done[k];
      }
      forall k | 0 <= k < |done| && IsFence(done[k]) ensures FenceValue(done[k]) <= MaxFence(done) {
        assert k < d ==> done[..d][k] == done[k];
      }
    }
  }

  // ---- The completed fence in every state -------------------------------------------------

  /** The handled commands whose fence is already taken into account. */
  function Counted(s: State): seq<seq<byte>> {
    if (s.host.Advancing? || s.host.Fencing?) && s.done != [] then s.done[..|s.done| - 1] else s.done
  }

  predicate FenceOk(s: State) {
    && s.currentFence == LastFence(s.done) && s.lastIrqFence == s.hostFence
    && (s.host.Advancing? || s.host.Fencing? ==> s.done != [])
    && s.hostFence == MaxFence(Counted(s))
    && s.irqs + (if s.host.Interrupting? then 1 else 0) == Rises(Counted(s))
  }

  lemma FencingFenceOk(s: State)
    requires 0 < |s.ring| && FenceOk(s) && s.host.Fencing?
    ensures FenceOk(HostStep(s, true)) && s.hostFence <= HostStep(s, true).hostFence
  {
    MaxFenceIsMaximum(s.done[..|s.done| - 1]);
  }

  lemma HandlingFenceOk(s: State, handled: bool)
    requires 0 < |s.ring| && FenceOk(s) && s.host.Handling?
    ensures FenceOk(HostStep(s, handled)) && s.hostFence == HostStep(s, handled).hostFence
  {
    assert (s.done + [s.host.command])[..|s.done|] == s.done;
  }

  /** Nothing about fences changes but a pending interrupt being sent. */
  predicate Quiet(s: State, t: State) {
    && t.done == s.done && t.hostFence == s.hostFence
    && t.currentFence == s.currentFence && t.lastIrqFence == s.lastIrqFence
    && t.irqs + (if t.host.Interrupting? then 1 else 0) == s.irqs + (if s.host.Interrupting? then 1 else 0)
    && (t.host.Advancing? || t.host.Fencing? <==> s.host.Advancing? || s.host.Fencing?)
  }

  lemma HostIsQuiet(s: State, handled: bool)
    requires 0 < |s.ring| && !s.host.Handling? && !s.host.Fencing?
    ensures Quiet(s, HostStep(s, handled))
  {
  }

  lemma QuietFenceOk(s: State, t: State)
    requires FenceOk(s) && Quiet(s, t)
    ensures FenceOk(t)
  {
    assert Counted(t) == Counted(s);
  }

  lemma HostFenceOk(s: State, handled: bool)
    requires 0 < |s.ring| && FenceOk(s)
    ensures FenceOk(HostStep(s, handled)) && s.hostFence <= HostStep(s, handled).hostFence
  {
    if s.host.Handling? {
      HandlingFenceOk(s, handled);
    } else if s.host.Fencing? {
      FencingFenceOk(s);
    } else {
      HostIsQuiet(s, handled);
      QuietFenceOk(s, HostStep(s, handled));
    }
  }

  lemma GuestIsQuiet(s: State, a: Action)
    requires 0 < |s.ring| && (a.Write? || a.Flush? || a.GuestGo?)
    ensures Quiet(s, Step(s, a))
  {
  }

  lemma EveryStepFenceOk(s: State, a: Action)
    requires 0 < |s.ring| && FenceOk(s)
    ensures FenceOk(Step(s, a)) && s.hostFence <= Step(s, a).hostFence
  {
    if a.HostGo? {
      HostFenceOk(s, true);
    } else if a.HandlerFails? {
      if s.host.Handling? {
        HostFenceOk(s, false);
      }
    } else {
      GuestIsQuiet(s, a);
      QuietFenceOk(s, Step(s, a));
    }
  }

  /** Under any schedule and for any commands: between commands the completed fence is the largest
      among the handled fences, it never falls, and there was one interrupt for each rise. */
  lemma {:induction false} CompletedFenceIsMaximum(size: nat, actions: seq<Action>)
    requires 0 < size
    ensures FenceOk(After(size, actions))
    ensures var s := After(size, actions);
      (s.host.Resting? ==> s.hostFence == MaxFence(s.done) && s.irqs == Rises(s.done))
      && forall a: Action :: s.hostFence <= Step(s, a).hostFence
  {
    if actions != [] {
      var before := actions[..|actions| - 1];
      CompletedFenceIsMaximum(size, before);
      EveryStepFenceOk(After(size, before), actions[|actions| - 1]);
    }
    forall a: Action ensures After(size, actions).hostFence <= Step(After(size, actions), a).hostFence {
      EveryStepFenceOk(After(size, actions), a);
    }
  }

  // ---- Fences as the driver numbers them --------------------------------------------------

  /** A written command that the backend will see as a fence. */
  predicate FenceCommand(c: Command) {
    HEADER_SIZE <= |c| && IsFence(Pad(c))
  }

  /** How many fences the guest has issued; the next one gets the next number. */
  function Issued(written: seq<Command>): nat {
    if written == [] then 0 else
      Issued(written[..|written| - 1]) + if FenceCommand(written[|written| - 1]) then 1 else 0
  }

  predicate Numbered(written: seq<Command>) {
    forall k | 0 <= k < |written| && FenceCommand(written[k]) :: FenceValue(Pad(written[k])) == Issued(written[..k]) + 1
  }

  lemma {:induction false} IssuedGrows(written: seq<Command>, m: nat, n: nat)
    requires m <= n <= |written|
    ensures Issued(written[..m]) <= Issued(written[..n])
    ensures m < n && FenceCommand(written[m]) ==> Issued(written[..m]) < Issued(written[..n])
    decreases n
  {
    if m < n {
      IssuedGrows(written, m, n - 1);
      assert written[..n][..n - 1] == written[..n - 1];
    }
  }

  lemma FencesNext(front: seq<seq<byte>>, last: seq<byte>)
    ensures var rises := IsFence(last) && FenceValue(last) > MaxFence(front);
      && MaxFence(front + [last]) == (if rises then FenceValue(last) else MaxFence(front))
      && Rises(front + [last]) == Rises(front) + if rises then 1 else 0
  {
    assert (front + [last])[..|front|] == front;
  }

  lemma IssuedNext(written: seq<Command>, n: nat)
    requires n < |written|
    ensures Issued(written[..n + 1]) == Issued(written[..n]) + if FenceCommand(written[n]) then 1 else 0
  {
    assert written[..n + 1][..n] == written[..n];
  }

  /** Delivered fences count up, so the largest is the number of fences delivered. */
  lemma {:induction false} NumberedFences(written: seq<Command>, d: nat)
    requires Numbered(written) && AllHeaded(written) && d <= |written|
    ensures MaxFence(Pads(written[..d])) == Issued(written[..d]) == Rises(Pads(written[..d]))
    decreases d
  {
    if d > 0 {
      NumberedFences(written, d - 1);
      PadsAppend(written, d - 1);
      FencesNext(Pads(written[..d - 1]), Pad(written[d - 1]));
      IssuedNext(written, d - 1);
    }
  }

  /** The completed fence never runs ahead of the fences issued, and between commands it is the
      number of fences delivered; so is the number of interrupts. */
  lemma CompletedIsIssued(size: nat, actions: seq<Action>)
    requires 0 < size && AllFramed(After(size, actions).written) && Numbered(After(size, actions).written)
    ensures var s := After(size, actions);
      && s.hostFence <= Issued(s.written)
      && |s.done| <= |s.written|
      && (s.host.Resting? ==> s.hostFence == Issued(s.written[..|s.done|]) == s.irqs)
  {
    var s := After(size, actions);
    DeliveredInOrder(size, actions);
    RingIsSafe(size, actions);
    CompletedFenceIsMaximum(size, actions);
    CountedIsIssued(s);
  }

  lemma CountedIsIssued(s: State)
    requires FenceOk(s) && Numbered(s.written) && AllHeaded(s.written)
    requires |s.done| <= |s.written| && s.done == Pads(s.written[..|s.done|])
    ensures s.hostFence <= Issued(s.written)
    ensures s.host.Resting? ==> s.hostFence == Issued(s.written[..|s.done|]) == s.irqs
  {
    CountedIssued(s.written, s.done, |Counted(s)|);
    assert Counted(s) == s.done[..|Counted(s)|];
  }

  lemma PadsFront(written: seq<Command>, m: nat, d: nat)
    requires d <= m <= |written|
    ensures Pads(written[..m])[..d] == Pads(written[..d])
  {
  }

  lemma CountedIssued(written: seq<Command>, done: seq<seq<byte>>, d: nat)
    requires Numbered(written) && AllHeaded(written) && d <= |done| <= |written| && done == Pads(written[..|done|])
    ensures MaxFence(done[..d]) == Issued(written[..d]) == Rises(done[..d])
    ensures Issued(written[..d]) <= Issued(written)
  {
    PadsFront(written, |done|, d);
    NumberedFences(written, d);
    IssuedFront(written, d);
  }

  lemma IssuedFront(written: seq<Command>, d: nat)
    requires d <= |written|
    ensures Issued(written[..d]) <= Issued(written)
  {
    IssuedGrows(written, d, |written|);
    assert written[..|written|] == written;
  }

  lemma {:induction false} MaxFenceOfFront(done: seq<seq<byte>>, n: nat)
    requires n <= |done|
    ensures MaxFence(done[..n]) <= MaxFence(done)
    decreases |done|
  {
    if n < |done| {
      MaxFenceOfFront(done[..|done| - 1], n);
      assert done[..|done| - 1][..n] == done[..n];
    } else {
      assert done[..n] == done;
    }
  }

  /** A guest that sees fence n completed knows that every command written before it was handled,
      in order and whole, that the fence itself was handled, and that all of them are consumed.
      Commands from the fence on need not be framed, so this holds for the driver's own 24-byte
      fence as long as it is the first of its kind. */
  lemma CompletedMeansDone(size: nat, actions: seq<Action>, n: nat)
    requires 0 < size
    requires var s := After(size, actions);
      && FramedUpTo(s.written, n) && n < |s.written| && Numbered(s.written)
      && FenceCommand(s.written[n]) && FenceValue(Pad(s.written[n])) <= s.hostFence
    ensures var s := After(size, actions);
      && n < |s.done| && s.done[..n] == Pads(s.written[..n])
      && |Padded(s.written[..n])| + |s.done[n]| <= s.consumer
  {
    var s := After(size, actions);
    ConsumesExactly(size, actions);
    CompletedFenceIsMaximum(size, actions);
    var counted := Counted(s);
    if |counted| <= n {
      var d := |counted|;
      DeliveredUpTo(size, actions, n);
      assert counted == s.done[..d];
      ParsedFront(s.stream, s.done, d);
      StreamIsFront(s);
      ParseIsDelivery(s.written, n, s.stream, counted);
      NumberedFences(s.written, d);
      IssuedGrows(s.written, d, n);
    } else {
      ConsumedBehind(size, actions, n);
    }
  }

  lemma ConsumedBehind(size: nat, actions: seq<Action>, n: nat)
    requires 0 < size && FramedUpTo(After(size, actions).written, n)
    requires n < |Counted(After(size, actions))|
    ensures var s := After(size, actions);
      && n < |s.done| && s.done[..n] == Pads(s.written[..n])
      && |Padded(s.written[..n])| + |s.done[n]| <= s.consumer
  {
    ConsumesExactly(size, actions);
    DeliveredUpTo(size, actions, n);
    CountedBehind(After(size, actions), n);
  }

  lemma CountedBehind(s: State, n: nat)
    requires Consumes(s) && HostOk(s) && n < |Counted(s)|
    ensures n < |s.done| && |Joined(s.done[..n])| + |s.done[n]| <= s.consumer
  {
    var counted := Counted(s);
    CountedIsConsumed(s);
    JoinedFront(s.stream, counted, n);
    assert counted[..n] == s.done[..n] && counted[n] == s.done[n];
  }

  lemma JoinedFront(stream: seq<byte>, done: seq<seq<byte>>, n: nat)
    requires Parsed(stream, done) && n < |done|
    ensures |Joined(done[..n])| + |done[n]| <= |Joined(done)|
  {
    ParsedFront(stream, done, n + 1);
    assert done[..n + 1][..n] == done[..n];
  }

  lemma CountedIsConsumed(s: State)
    requires Consumes(s) && HostOk(s)
    ensures Parsed(s.stream, Counted(s)) && |Joined(Counted(s))| <= s.consumer
  {
  }

  /** The first ill-framed command, if it announces its own length, is the last one delivered. */
  lemma DeliveredToFirst(size: nat, actions: seq<Action>, n: nat)
    requires 0 < size
    requires var w := After(size, actions).written; FramedUpTo(w, n) && n < |w| && ShortFramed(w[n])
    ensures var s := After(size, actions);
      && AllHeaded(s.written)
      && (|s.done| <= n ==> s.done == Pads(s.written[..|s.done|]))
      && (n < |s.done| ==>
            s.done[..n] == Pads(s.written[..n]) && s.done[n] == s.written[n]
            && forall k | n < k < |s.done| :: s.done[k] == [])
  {
    var s := After(size, actions);
    RingIsSafe(size, actions);
    if |s.done| <= n {
      DeliveredUpTo(size, actions, n);
      assert s.done[..|s.done|] == s.done;
    } else {
      NothingAfterShortFramed(size, actions, n);
    }
  }

  lemma HostFenceIsCounted(size: nat, actions: seq<Action>)
    requires 0 < size
    ensures var s := After(size, actions); exists n: nat :: n <= |s.done| && s.hostFence == MaxFence(s.done[..n])
  {
    var s := After(size, actions);
    CompletedFenceIsMaximum(size, actions);
    assert Counted(s) == s.done[..|Counted(s)|];
  }

  /** With commands that announce their unpadded length, like the driver's fence, the transport
      stops at the first of them: whatever is written later, the completed fence never rises above
      the fences issued up to that command. If it is a fence, that is its own number. */
  lemma FencesStopAtFirstShort(size: nat, actions: seq<Action>, n: nat)
    requires 0 < size
    requires var w := After(size, actions).written;
      FramedUpTo(w, n) && n < |w| && Numbered(w) && ShortFramed(w[n])
    ensures var s := After(size, actions);
      && s.hostFence <= Issued(s.written[..n + 1])
      && (FenceCommand(s.written[n]) ==> Issued(s.written[..n + 1]) == FenceValue(Pad(s.written[n])))
  {
    DeliveredToFirst(size, actions, n);
    HostFenceIsCounted(size, actions);
    var s := After(size, actions);
    var counted: nat :| counted <= |s.done| && s.hostFence == MaxFence(s.done[..counted]);
    FirstShortBounds(s.written, n, s.done, counted);
    IssuedNext(s.written, n);
  }

  lemma FirstShortBounds(written: seq<Command>, n: nat, done: seq<seq<byte>>, counted: nat)
    requires n < |written| && Numbered(written) && AllHeaded(written) && counted <= |done|
    requires |done| <= n ==> done == Pads(written[..|done|])
    requires n < |done| ==>
      done[..n] == Pads(written[..n]) && done[n] == written[n] && forall k | n < k < |done| :: done[k] == []
    ensures MaxFence(done[..counted]) <= Issued(written[..n + 1])
  {
    MaxFenceOfFront(done, counted);
    if |done| <= n {
      FrontIsMax(written, n, |done|);
    } else {
      ShortIsMax(written, n, done);
    }
  }

  lemma FrontIsMax(written: seq<Command>, n: nat, m: nat)
    requires m <= n < |written| && Numbered(written) && AllHeaded(written)
    ensures MaxFence(Pads(written[..m])) <= Issued(written[..n + 1])
  {
    NumberedFences(written, m);
    IssuedGrows(written, m, n + 1);
  }

  lemma ShortIsMax(written: seq<Command>, n: nat, done: seq<seq<byte>>)
    requires n < |written| && Numbered(written) && AllHeaded(written) && n < |done|
    requires done[..n] == Pads(written[..n]) && done[n] == written[n]
    requires forall k | n < k < |done| :: done[k] == []
    ensures MaxFence(done) <= Issued(written[..n + 1])
  {
    NumberedFences(written, n);
    IssuedNext(written, n);
    EmptyTailKeepsMax(done, n);
    MaxFenceNext(done, n);
    PaddedFence(written[n]);
  }

  lemma MaxFenceNext(done: seq<seq<byte>>, n: nat)
    requires n < |done|
    ensures MaxFence(done[..n + 1])
         == if IsFence(done[n]) && FenceValue(done[n]) > MaxFence(done[..n]) then FenceValue(done[n])
            else MaxFence(done[..n])
  {
    assert done[..n + 1][..n] == done[..n];
  }

  /** Padding does not change a fence. */
  lemma PaddedFence(c: Command)
    ensures IsFence(c) ==> FenceCommand(c) && FenceValue(Pad(c)) == FenceValue(c)
  {
    if IsFence(c) {
      assert forall k | 0 <= k < 24 :: Pad(c)[k] == c[k];
    }
  }

  lemma {:induction false} EmptyTailKeepsMax(done: seq<seq<byte>>, n: nat)
    requires n < |done| && forall k | n < k < |done| :: done[k] == []
    ensures MaxFence(done) == MaxFence(done[..n + 1])
    decreases |done|
  {
    if n + 1 < |done| {
      EmptyTailKeepsMax(done[..|done| - 1], n);
      assert done[..|done| - 1][..n + 1] == done[..n + 1];
    } else {
      assert done[..n + 1] == done;
    }
  }
}
