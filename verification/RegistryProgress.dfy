/** The registry never deadlocks: the guard holder never waits, gives the guard up after a bounded
    number of its own steps, and everyone else waits for the guard alone. */
module RegistryProgress {
  import opened Wrappers
  import opened Registry
  import opened RegistryInvariant

  const LONGEST_HOLD: nat := 14

  function AskSteps(ask: Ask): nat {
    if ask == StopBefore then 8 else 1
  }

  /** How many steps of its own the guard holder takes at most until it leaves the guard. */
  function Remaining(q: Proc): nat {
    match q
    case Leaving => 1
    case RegisterMkdir(_, _) => 4
    case RegisterWrite(_, _) => 3
    case RegisterUndo(_) => 2
    case UpdateLease(_, _) => 5
    case UpdateRead(_, _, _) => 4
    case UpdateWrite(_, _, _, _) => 3
    case UpdateDrop(_, _) => 2
    case UnregisterLease(_) => 9
    case UnregisterScan(_, _) => 8
    case UnregisterDrop(_, _, _) => 7
    case UnregisterRemove(_, removed) => if removed < REMOVALS then 1 + REMOVALS - removed else 2
    case StatusRecord(_, ask) => AskSteps(ask) + 6
    case StatusProbe(_, ask, _) => AskSteps(ask) + 5
    case StatusProbeDrop(_, ask, _, _) => AskSteps(ask) + 4
    case StatusRun(_, ask, _, _, _) => AskSteps(ask) + 3
    case StatusStop(_, ask, _, _, _, _) => AskSteps(ask) + 2
    case StatusDone(_, ask, _, _) => AskSteps(ask) + 1
    case StopWrite(_, _) => 8
    case StartRecord(_) => 5
    case StartLease(_, _) => 4
    case StartWrite(_, _, _) => 3
    case StartUndo(_, _) => 2
    case StartLeave(_) => 1
    case SaveRead(_, _) => 3
    case SaveWrite(_, _, _) => 2
    case SaveLeave(_, _, _) => 1
    case _ => 0
  }

  /** A step the scheduler gives to p, whether its I/O succeeds or not. */
  predicate Moves(c: Choice) {
    c.Go? || c.Fail? || c.Crash?
  }

  /** The guard is free, or its holder p has fewer steps to go. */
  predicate Closer(s: State, t: State, p: Pid) {
    t.guard.None? || (t.guard == Some(p) && Remaining(ProcOf(t, p)) < Remaining(ProcOf(s, p)))
  }

  lemma RegisterCloser(s: State, p: Pid, q: Proc, c: Choice)
    requires s.guard == Some(p) && ProcOf(s, p) == q
    requires q.RegisterMkdir? || q.RegisterWrite? || q.RegisterUndo?
    ensures Closer(s, StepRegister(s, p, q, c), p)
  {
  }

  lemma UpdateCloser(s: State, p: Pid, q: Proc, c: Choice)
    requires s.guard == Some(p) && ProcOf(s, p) == q
    requires q.UpdateLease? || q.UpdateRead? || q.UpdateWrite? || q.UpdateDrop?
    ensures Closer(s, StepUpdate(s, p, q, c), p)
  {
  }

  lemma UnregisterCloser(s: State, p: Pid, q: Proc, c: Choice)
    requires s.guard == Some(p) && ProcOf(s, p) == q
    requires q.UnregisterLease? || q.UnregisterScan? || q.UnregisterDrop? || q.UnregisterRemove?
    ensures Closer(s, StepUnregister(s, p, q, c), p)
  {
  }

  lemma StartCloser(s: State, p: Pid, q: Proc, c: Choice)
    requires s.guard == Some(p) && ProcOf(s, p) == q
    requires q.StartRecord? || q.StartLease? || q.StartWrite? || q.StartUndo? || q.StartLeave?
    ensures Closer(s, StepStart(s, p, q, c), p)
  {
  }

  lemma SaveCloser(s: State, p: Pid, q: Proc, c: Choice)
    requires s.guard == Some(p) && ProcOf(s, p) == q
    requires q.SaveRead? || q.SaveWrite? || q.SaveLeave?
    ensures Closer(s, StepSave(s, p, q, c), p)
  {
  }

  lemma StatusCloser(s: State, p: Pid, q: Proc, c: Choice)
    requires s.guard == Some(p) && ProcOf(s, p) == q
    requires q.StatusRecord? || q.StatusProbe? || q.StatusProbeDrop? || q.StatusRun? || q.StatusStop?
             || q.StatusDone? || q.StopWrite?
    ensures Closer(s, StepStatus(s, p, q, c), p)
  {
  }

  /** Whatever the guard holder does next brings it closer to leaving the guard. No step of the
      holder waits: leases are only tried. */
  lemma HolderMovesCloser(s: State, p: Pid, c: Choice)
    requires Inv(s) && s.guard == Some(p) && Moves(c)
    ensures Closer(s, Step(s, p, c), p)
    ensures Remaining(ProcOf(s, p)) <= LONGEST_HOLD
  {
    var q := ProcOf(s, p);
    if c.Crash? || q.Leaving? {
    } else if q.RegisterMkdir? || q.RegisterWrite? || q.RegisterUndo? {
      RegisterCloser(s, p, q, c);
    } else if q.UpdateLease? || q.UpdateRead? || q.UpdateWrite? || q.UpdateDrop? {
      UpdateCloser(s, p, q, c);
    } else if q.UnregisterLease? || q.UnregisterScan? || q.UnregisterDrop? || q.UnregisterRemove? {
      UnregisterCloser(s, p, q, c);
    } else if q.StartRecord? || q.StartLease? || q.StartWrite? || q.StartUndo? || q.StartLeave? {
      StartCloser(s, p, q, c);
    } else if q.SaveRead? || q.SaveWrite? || q.SaveLeave? {
      SaveCloser(s, p, q, c);
    } else {
      StatusCloser(s, p, q, c);
    }
  }

  /** Nobody else can delay the holder or take the guard from it. */
  lemma OthersDoNotInterfere(s: State, p: Pid, other: Pid, c: Choice)
    requires Inv(s) && s.guard == Some(p) && other != p
    ensures var t := Step(s, other, c); t.guard == s.guard && ProcOf(t, p) == ProcOf(s, p)
  {
    var q := ProcOf(s, other);
    assert !HoldsGuard(q);
  }

  /** The holder's own steps in a schedule, however they turn out. */
  function OwnMoves(schedule: Schedule, p: Pid): nat {
    if schedule == [] then 0 else
      var last := schedule[|schedule| - 1];
      OwnMoves(schedule[..|schedule| - 1], p) + if last.first == p && Moves(last.second) then 1 else 0
  }

  function Run(s: State, schedule: Schedule): State {
    if schedule == [] then s else
      var last := schedule[|schedule| - 1];
      Step(Run(s, schedule[..|schedule| - 1]), last.first, last.second)
  }

  predicate GuardFreeAfter(s: State, schedule: Schedule, k: nat) {
    k <= |schedule| && Run(s, schedule[..k]).guard.None?
  }

  lemma {:induction false} HoldIsBounded(s: State, p: Pid, schedule: Schedule)
    requires Inv(s) && s.guard == Some(p)
    requires forall k | 0 <= k <= |schedule| :: !GuardFreeAfter(s, schedule, k)
    ensures var t := Run(s, schedule);
      Inv(t) && t.guard == Some(p) && Remaining(ProcOf(t, p)) + OwnMoves(schedule, p) <= LONGEST_HOLD
  {
    if schedule == [] {
      HolderMovesCloser(s, p, Go);
    } else {
      var before, last := schedule[..|schedule| - 1], schedule[|schedule| - 1];
      forall k | 0 <= k <= |before| ensures !GuardFreeAfter(s, before, k) {
        assert before[..k] == schedule[..k];
        assert !GuardFreeAfter(s, schedule, k);
      }
      HoldIsBounded(s, p, before);
      var u := Run(s, before);
      EveryStepKeeps(u, last.first, last.second);
      assert schedule[..|schedule|] == schedule;
      assert !GuardFreeAfter(s, schedule, |schedule|);
      if last.first != p {
        OthersDoNotInterfere(u, p, last.first, last.second);
      } else if Moves(last.second) {
        HolderMovesCloser(u, p, last.second);
      } else {
        StaysWithoutMoving(u, p, last.second);
      }
    }
  }

  lemma StaysWithoutMoving(s: State, p: Pid, c: Choice)
    requires Inv(s) && s.guard == Some(p) && !Moves(c)
    ensures Step(s, p, c) == s
  {
    assert HoldsGuard(ProcOf(s, p));
  }

  lemma HoldEnds(s: State, p: Pid, schedule: Schedule)
    requires Inv(s) && s.guard == Some(p) && LONGEST_HOLD <= OwnMoves(schedule, p)
    ensures exists k: nat :: GuardFreeAfter(s, schedule, k)
  {
    if forall k: nat :: !GuardFreeAfter(s, schedule, k) {
      HoldIsBounded(s, p, schedule);
      HolderHasStep(Run(s, schedule), p);
    }
  }

  /** A process that holds the guard is never without a next step. */
  lemma HolderHasStep(s: State, p: Pid)
    requires Inv(s) && s.guard == Some(p)
    ensures HoldsGuard(ProcOf(s, p)) && 0 < Remaining(ProcOf(s, p))
    ensures ProcOf(Step(s, p, Go), p) != ProcOf(s, p)
  {
    HolderMovesCloser(s, p, Go);
    EveryStepKeeps(s, p, Go);
  }

  /** From any reachable state, whatever the others do: once the holder has been given fourteen
      steps, the guard has been free. */
  lemma GuardIsFreed(history: Schedule, p: Pid, schedule: Schedule)
    requires After(history).guard == Some(p) && LONGEST_HOLD <= OwnMoves(schedule, p)
    ensures exists k: nat :: GuardFreeAfter(After(history), schedule, k)
  {
    Reachable(history);
    HoldEnds(After(history), p, schedule);
  }

  predicate Busy(q: Proc) {
    !q.Idle? && !q.Supervising?
  }

  /** When the guard is free, whoever is inside an operation can go on. */
  lemma FreeGuardLetsGo(s: State, p: Pid)
    requires Inv(s) && s.guard.None? && Busy(ProcOf(s, p))
    ensures ProcOf(Step(s, p, Go), p) != ProcOf(s, p)
  {
    assert !HoldsGuard(ProcOf(s, p));
  }

  /** No deadlock: while any process is inside an operation, some process inside an operation has
      a step that changes the state. */
  lemma NoDeadlock(history: Schedule, p: Pid)
    requires Busy(ProcOf(After(history), p))
    ensures exists q: Pid ::
      Busy(ProcOf(After(history), q)) && ProcOf(Step(After(history), q, Go), q) != ProcOf(After(history), q)
  {
    var s := After(history);
    Reachable(history);
    if s.guard.Some? {
      HolderHasStep(s, s.guard.value);
    } else {
      FreeGuardLetsGo(s, p);
    }
  }
}
