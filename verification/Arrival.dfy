/** How long a published command waits: whatever the guest does in between, the host handles the
    next one after a number of its own steps that only depends on the command's size. */
module Arrival {
  import opened Bytes
  import opened Transport
  import opened Delivery

  /** The host's own steps in a schedule. */
  function HostMoves(actions: seq<Action>): nat {
    if actions == [] then 0 else
      HostMoves(actions[..|actions| - 1]) + if actions[|actions| - 1].HostGo? then 1 else 0
  }

  lemma AfterMore(size: nat, actions: seq<Action>, more: seq<Action>)
    requires 0 < size && more != []
    ensures After(size, actions + more)
         == Step(After(size, actions + more[..|more| - 1]), more[|more| - 1])
  {
    assert (actions + more)[..|actions + more| - 1] == actions + more[..|more| - 1];
  }

  lemma StepOnlyWrites(s: State, a: Action)
    requires 0 < |s.ring|
    ensures s.written <= Step(s, a).written
  {
  }

  lemma FramedBefore(size: nat, actions: seq<Action>, more: seq<Action>)
    requires 0 < size && more != [] && AllFramed(After(size, actions + more).written)
    ensures AllFramed(After(size, actions + more[..|more| - 1]).written)
  {
    AfterMore(size, actions, more);
    var s := After(size, actions + more[..|more| - 1]);
    StepOnlyWrites(s, more[|more| - 1]);
    forall k | 0 <= k < |s.written| ensures WellFramed(s.written[k]) {
      assert s.written[k] == Step(s, more[|more| - 1]).written[k];
    }
  }

  /** The host has come nearer to command d since s, and has handled nothing. */
  predicate OnTheWay(s: State, t: State, moves: nat)
    requires |s.done| < |s.written|
  {
    var size := Align16(|s.written[|s.done|]|);
    && Coming(t) && t.done == s.done && s.written <= t.written
    && Distance(t.host, size) + moves <= Distance(s.host, size)
  }

  predicate Handles(t: State, c: Command) {
    t.host == Handling(Pad(c))
  }

  /** A guest step leaves the host where it is and only adds to what is unread. */
  lemma GuestLeavesHost(s: State, a: Action)
    requires Safe(s) && Coming(s) && !a.HostGo?
    ensures var t := Step(s, a); Coming(t) && t.done == s.done && t.host == s.host
  {
  }

  lemma HostStepOnTheWay(s: State, t: State, moves: nat)
    requires |s.done| < |s.written| && OnTheWay(s, t, moves) && AtCommand(t, |t.done|)
    ensures var u := HostStep(t, true); Handles(u, s.written[|s.done|]) || OnTheWay(s, u, moves + 1)
  {
    HostComesNearer(t, |t.done|);
    assert t.written[|s.done|] == s.written[|s.done|];
    var u := HostStep(t, true);
    assert u.consumer == t.consumer && u.producer == t.producer && u.written == t.written;
    if Reading(u.host) {
      assert u.done == t.done;
    }
  }

  predicate HandledBy(size: nat, actions: seq<Action>, more: seq<Action>, k: nat, c: Command)
    requires 0 < size
  {
    k <= |more| && Handles(After(size, actions + more[..k]), c)
  }

  lemma {:induction false} StillOnTheWay(size: nat, actions: seq<Action>, more: seq<Action>)
    requires 0 < size && AllFramed(After(size, actions + more).written) && Coming(After(size, actions))
    requires var s := After(size, actions); |s.done| < |s.written|
    requires var s := After(size, actions);
      forall k | 0 <= k <= |more| :: !HandledBy(size, actions, more, k, s.written[|s.done|])
    ensures OnTheWay(After(size, actions), After(size, actions + more), HostMoves(more))
    decreases |more|
  {
    var s := After(size, actions);
    if more == [] {
      assert actions + more == actions;
    } else {
      var front, a := more[..|more| - 1], more[|more| - 1];
      var t := After(size, actions + front);
      AfterMore(size, actions, more);
      FramedBefore(size, actions, more);
      NotHandledBefore(size, actions, more, front, s.written[|s.done|]);
      StillOnTheWay(size, actions, front);
      assert more[..|more|] == more;
      assert !HandledBy(size, actions, more, |more|, s.written[|s.done|]);
      if a.HostGo? {
        StandsAtCommand(size, actions + front);
        HostStepOnTheWay(s, t, HostMoves(front));
      } else {
        RingIsSafe(size, actions + front);
        GuestLeavesHost(t, a);
        StepOnlyWrites(t, a);
      }
    }
  }

  lemma NotHandledBefore(size: nat, actions: seq<Action>, more: seq<Action>, front: seq<Action>, c: Command)
    requires 0 < size && more != [] && front == more[..|more| - 1]
    requires forall k | 0 <= k <= |more| :: !HandledBy(size, actions, more, k, c)
    ensures forall k | 0 <= k <= |front| :: !HandledBy(size, actions, front, k, c)
  {
    forall k | 0 <= k <= |front| ensures !HandledBy(size, actions, front, k, c) {
      assert front[..k] == more[..k];
      assert !HandledBy(size, actions, more, k, c);
    }
  }

  lemma {:induction false} FramedAtFirst(size: nat, actions: seq<Action>, more: seq<Action>)
    requires 0 < size && AllFramed(After(size, actions + more).written)
    ensures AllFramed(After(size, actions).written)
    decreases |more|
  {
    if more == [] {
      assert actions + more == actions;
    } else {
      FramedBefore(size, actions, more);
      FramedAtFirst(size, actions, more[..|more| - 1]);
    }
  }

  /** With framed commands: once something is unread and the host polls or reads, the next command
      is handed to its handler within eleven host steps more than it has bytes, under any
      interleaving with the guest. */
  lemma NextCommandIsHandled(size: nat, actions: seq<Action>, more: seq<Action>)
    requires 0 < size && AllFramed(After(size, actions + more).written) && Coming(After(size, actions))
    requires var s := After(size, actions);
      |s.done| < |s.written| ==> Align16(|s.written[|s.done|]|) + 11 <= HostMoves(more)
    ensures var s := After(size, actions);
      |s.done| < |s.written| && exists k: nat :: HandledBy(size, actions, more, k, s.written[|s.done|])
  {
    var s := After(size, actions);
    FramedAtFirst(size, actions, more);
    FramedNeverGivesUp(size, actions);
    if forall k: nat :: !HandledBy(size, actions, more, k, s.written[|s.done|]) {
      StillOnTheWay(size, actions, more);
      ReadingIsAway(After(size, actions + more).host, Align16(|s.written[|s.done|]|));
    }
  }

  lemma ReadingIsAway(h: Host, size: nat)
    ensures Distance(h, size) <= size + 11
    ensures h.Resting? || Reading(h) ==> 0 < Distance(h, size)
  {
  }
}
