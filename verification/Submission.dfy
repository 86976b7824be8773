/** The commands that the guest's caller submitted, told from the calls alone, and what becomes of
    them: they are staged, published and handled in that order, and none is lost. */
module Submission {
  import opened Bytes
  import opened Driver
  import opened Transport
  import opened Delivery

  /** A call that WriteCommand accepts. */
  predicate Accepted(a: Action) {
    a.Write? && HEADER_SIZE <= |a.command| <= STAGING_SIZE
  }

  /** The accepted commands of the calls made while no earlier call was still flushing. */
  function Submitted(size: nat, actions: seq<Action>): seq<Command>
    requires 0 < size
  {
    if actions == [] then [] else
      var before, last := actions[..|actions| - 1], actions[|actions| - 1];
      Submitted(size, before)
      + if Accepted(last) && After(size, before).guest.Ready? then [last.command] else []
  }

  /** The command that waits for its flush. */
  function Held(s: State): seq<Command> {
    if !s.guest.Ready? && s.guest.next.Some? then [s.guest.next.value] else []
  }

  lemma StepHolds(s: State, a: Action)
    requires 0 < |s.ring|
    ensures Step(s, a).written + Held(Step(s, a))
         == s.written + Held(s) + if Accepted(a) && s.guest.Ready? then [a.command] else []
  {
  }

  /** In every reachable state the commands written and the one that waits are those submitted, in
      order. */
  lemma {:induction false} NothingIsLost(size: nat, actions: seq<Action>)
    requires 0 < size
    ensures After(size, actions).written + Held(After(size, actions)) == Submitted(size, actions)
  {
    if actions != [] {
      var before := actions[..|actions| - 1];
      NothingIsLost(size, before);
      StepHolds(After(size, before), actions[|actions| - 1]);
    }
  }

  lemma WrittenIsFront(size: nat, actions: seq<Action>)
    requires 0 < size
    ensures After(size, actions).written <= Submitted(size, actions)
  {
    NothingIsLost(size, actions);
  }

  lemma FramedFront(submitted: seq<Command>, written: seq<Command>, n: nat)
    requires written <= submitted && n <= |submitted| && FramedUpTo(submitted, n)
    ensures n <= |written| ==> FramedUpTo(written, n) && written[..n] == submitted[..n]
    ensures |written| <= n ==> AllFramed(written)
  {
    forall k | 0 <= k < |written| && k < n ensures WellFramed(written[k]) {
      assert written[k] == submitted[k];
    }
  }

  /** The first submitted commands are handled whole and in order as far as they are framed. */
  lemma FrontIsDelivered(size: nat, actions: seq<Action>, n: nat)
    requires 0 < size && n <= |After(size, actions).done|
    requires FramedUpTo(Submitted(size, actions), n)
    ensures After(size, actions).done[..n] == Pads(Submitted(size, actions)[..n])
  {
    var s := After(size, actions);
    WrittenIsFront(size, actions);
    FramedFront(Submitted(size, actions), s.written, n);
    if |s.written| < n {
      DeliveredInOrder(size, actions);
    }
    DeliveredUpTo(size, actions, n);
  }

  /** End to end, from the calls alone: as long as the submitted commands are framed, those handled
      are the first ones submitted, padded, each once and in order; when the guest is done and
      nothing is staged or unread, all submitted commands were handled. */
  lemma SubmittedAreDelivered(size: nat, actions: seq<Action>)
    requires 0 < size && AllFramed(Submitted(size, actions))
    ensures var s, submitted := After(size, actions), Submitted(size, actions);
      && |s.done| <= |submitted| && s.done == Pads(submitted[..|s.done|])
      && (s.guest.Ready? && s.staging == [] && s.consumer == s.producer && !s.host.Advancing? ==>
            s.done == Pads(submitted))
  {
    var s, submitted := After(size, actions), Submitted(size, actions);
    NothingIsLost(size, actions);
    FramedFront(submitted, s.written, |submitted|);
    DeliveredInOrder(size, actions);
    assert s.written[..|s.done|] == submitted[..|s.done|];
    if s.guest.Ready? && s.staging == [] && s.consumer == s.producer && !s.host.Advancing? {
      assert s.written == submitted;
      RingIsSafe(size, actions);
      AllPublished(s);
      assert submitted[..|submitted|] == submitted;
    }
  }

  /** With nothing staged, everything written is published. */
  lemma AllPublished(s: State)
    requires Safe(s) && s.staging == []
    ensures s.published == |s.written|
  {
    assert s.stream + [] == s.stream;
    assert s.written[..|s.written|] == s.written;
    PaddedGrows(s.written, s.published, |s.written|);
  }
}
