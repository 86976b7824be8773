/** Stop requests over every schedule: a request file names a run only because a forced stop found
    that run's supervisor holding the lease and wrote the file before it let go of the guard. So
    a request reaches only the run it was made for. */
module RegistryStops {
  import opened Wrappers
  import opened Registry
  import opened RegistryInvariant
  import opened RegistrySafety

  // ---- From the probe to the write --------------------------------------------------------

  /** The forced stop of name by p finds the lease held by the supervisor of run. */
  predicate FindsIn(s: State, step: Pair<Pid, Choice>, p: Pid, name: Name, holder: Pid, run: RunId) {
    var q := ProcOf(s, p);
    && step.first == p && step.second.Go?
    && q.StatusProbe? && q.ask == StopBefore && q.name == name && Supervises(s, holder, name, run)
  }

  ghost predicate FoundAt(schedule: Schedule, j: nat, p: Pid, name: Name, run: RunId) {
    j < |schedule| && exists holder: Pid :: FindsIn(After(schedule[..j]), schedule[j], p, name, holder, run)
  }

  ghost predicate GuardedAt(schedule: Schedule, i: nat, p: Pid)
    requires i <= |schedule|
  {
    After(schedule[..i]).guard == Some(p)
  }

  /** p has held the guard ever since step j. */
  ghost predicate HeldSince(schedule: Schedule, j: nat, p: Pid) {
    forall i | j <= i <= |schedule| :: GuardedAt(schedule, i, p)
  }

  /** On its way from a probe that found run to the write of a request for it. */
  predicate Asking(q: Proc, name: Name, run: RunId) {
    match q
    case StatusRun(n, ask, _, _, holder) => n == name && ask == StopBefore && holder == Some(run)
    case StatusStop(n, ask, _, _, holder, _) => n == name && ask == StopBefore && holder == Some(run)
    case StatusDone(n, ask, _, holder) => n == name && ask == StopBefore && holder == Some(run)
    case StopWrite(n, target) => n == name && target == run
    case _ => false
  }

  ghost predicate FoundBefore(schedule: Schedule, p: Pid, name: Name, run: RunId) {
    exists j: nat :: FoundAt(schedule, j, p, name, run) && HeldSince(schedule, j, p)
  }

  /** Who asks now has asked before, or has just probed. */
  lemma AskingBegins(s: State, p: Pid, c: Choice, name: Name, run: RunId) returns (holder: Pid)
    requires Inv(s) && Asking(ProcOf(Step(s, p, c), p), name, run) && !Asking(ProcOf(s, p), name, run)
    ensures FindsIn(s, Pair(p, c), p, name, holder, run)
  {
    var q := ProcOf(s, p);
    AskingFromStatus(s, p, c, name, run);
    DoneKnowsRun(s, p);
    if q.StatusDone? {
      assert false;
    } else {
      holder := FoundHolder(s, p, name);
    }
  }

  lemma DoneKnowsRun(s: State, p: Pid)
    requires Inv(s)
    ensures var q := ProcOf(s, p);
      q.StatusDone? && q.status.active ==> q.status.run.Some? && q.holder == Some(q.status.run.value.id)
  {
    if ProcOf(s, p).StatusDone? {
      assert HoldsGuard(ProcOf(s, p));
      assert HolderOk(s, p);
    }
  }

  /** Only a status goes on to ask. */
  lemma AskingFromStatus(s: State, p: Pid, c: Choice, name: Name, run: RunId)
    requires Asking(ProcOf(Step(s, p, c), p), name, run) && !Asking(ProcOf(s, p), name, run)
    ensures var q := ProcOf(s, p);
      || (q.StatusDone? && q.ask == StopBefore && q.name == name && q.status.active && q.status.run.Some?
          && q.status.run.value.id == run && q.holder != Some(run))
      || (q.StatusProbe? && q.ask == StopBefore && q.name == name && c.Go? && name in s.dirs && !LeaseFree(s, name)
          && HolderRun(s, LockOf(s, name)) == Some(run))
  {
    var q := ProcOf(s, p);
    if c.Crash? || q.Idle? || q.Waiting? || q.Supervising? || !(c.Go? || c.Fail?) {
      NobodyBeginsToAsk(s, p, c, name, run);
    } else {
      GuardedAsking(s, p, q, c, name, run);
    }
  }

  lemma NobodyBeginsToAsk(s: State, p: Pid, c: Choice, name: Name, run: RunId)
    requires c.Crash? || ProcOf(s, p).Idle? || ProcOf(s, p).Waiting? || ProcOf(s, p).Supervising? || !(c.Go? || c.Fail?)
    ensures Asking(ProcOf(Step(s, p, c), p), name, run) ==> Asking(ProcOf(s, p), name, run)
  {
  }

  lemma GuardedAsking(s: State, p: Pid, q: Proc, c: Choice, name: Name, run: RunId)
    requires ProcOf(s, p) == q && !q.Idle? && !q.Waiting? && !q.Supervising? && (c.Go? || c.Fail?)
    requires Asking(ProcOf(StepGuarded(s, p, q, c), p), name, run) && !Asking(q, name, run)
    ensures
      || (q.StatusDone? && q.ask == StopBefore && q.name == name && q.status.active && q.status.run.Some?
          && q.status.run.value.id == run && q.holder != Some(run))
      || (q.StatusProbe? && q.ask == StopBefore && q.name == name && c.Go? && name in s.dirs && !LeaseFree(s, name)
          && HolderRun(s, LockOf(s, name)) == Some(run))
  {
  }

  /** The process that holds the lease that a probe found taken. */
  lemma FoundHolder(s: State, p: Pid, name: Name) returns (holder: Pid)
    requires Inv(s) && s.guard == Some(p) && LeaseOf(ProcOf(s, p)).None? && name in s.dirs && !LeaseFree(s, name)
    ensures HolderRun(s, LockOf(s, name)).Some?
    ensures Supervises(s, holder, name, HolderRun(s, LockOf(s, name)).value)
  {
    HolderSupervises(s, p, name);
    var lock := LockOf(s, name);
    holder := s.held[lock];
    assert HeldOk(s, lock) && LeaseOk(s, holder);
    assert OwnLock(s, name, LeaseOf(ProcOf(s, holder)).value.first);
  }

  lemma AskerHoldsGuard(s: State, p: Pid, name: Name, run: RunId)
    requires Inv(s) && Asking(ProcOf(s, p), name, run)
    ensures s.guard == Some(p)
  {
    assert HoldsGuard(ProcOf(s, p));
  }

  /** A step of another process leaves the asker where it is. */
  lemma OthersStay(s: State, p: Pid, other: Pid, c: Choice)
    requires other != p
    ensures ProcOf(Step(s, other, c), p) == ProcOf(s, p)
  {
    var q := ProcOf(s, other);
    if !c.Crash? && !q.Idle? && !q.Waiting? && !q.Supervising? && (c.Go? || c.Fail?) {
      GuardedOthersStay(s, p, other, q, c);
    }
  }

  lemma GuardedOthersStay(s: State, p: Pid, other: Pid, q: Proc, c: Choice)
    requires other != p && ProcOf(s, other) == q && !q.Idle? && !q.Waiting? && !q.Supervising?
    ensures ProcOf(StepGuarded(s, other, q, c), p) == ProcOf(s, p)
  {
  }

  lemma FoundEarlier(schedule: Schedule, before: Schedule, p: Pid, name: Name, run: RunId)
    requires schedule != [] && before == schedule[..|schedule| - 1] && FoundBefore(before, p, name, run)
    requires After(schedule).guard == Some(p)
    ensures FoundBefore(schedule, p, name, run)
  {
    var j: nat :| FoundAt(before, j, p, name, run) && HeldSince(before, j, p);
    assert before[..j] == schedule[..j];
    forall i | j <= i <= |schedule| ensures GuardedAt(schedule, i, p) {
      if i < |schedule| {
        assert before[..i] == schedule[..i];
        assert GuardedAt(before, i, p);
      } else {
        assert schedule[..i] == schedule;
      }
    }
    assert FoundAt(schedule, j, p, name, run);
  }

  lemma FoundNow(schedule: Schedule, before: Schedule, p: Pid, name: Name, holder: Pid, run: RunId)
    requires schedule != [] && before == schedule[..|schedule| - 1]
    requires FindsIn(After(before), schedule[|before|], p, name, holder, run)
    requires After(before).guard == Some(p) && After(schedule).guard == Some(p)
    ensures FoundBefore(schedule, p, name, run)
  {
    assert FoundAt(schedule, |before|, p, name, run);
    forall i | |before| <= i <= |schedule| ensures GuardedAt(schedule, i, p) {
      assert schedule[..|schedule|] == schedule;
    }
  }

  /** Whoever is about to write a request for a run found that run's supervisor by its own probe
      and has held the guard since. */
  lemma {:induction false} AskersHaveProbed(schedule: Schedule, p: Pid, name: Name, run: RunId)
    requires Asking(ProcOf(After(schedule), p), name, run)
    ensures FoundBefore(schedule, p, name, run)
    decreases |schedule|
  {
    var before, last := schedule[..|schedule| - 1], schedule[|schedule| - 1];
    var s := After(before);
    Reachable(before);
    Reachable(schedule);
    AskerHoldsGuard(After(schedule), p, name, run);
    if last.first != p {
      OthersStay(s, p, last.first, last.second);
    }
    if Asking(ProcOf(s, p), name, run) {
      AskersHaveProbed(before, p, name, run);
      FoundEarlier(schedule, before, p, name, run);
    } else {
      var holder := AskingBegins(s, p, last.second, name, run);
      assert HoldsGuard(ProcOf(s, p));
      FoundNow(schedule, before, p, name, holder, run);
    }
  }

  // ---- The request file -------------------------------------------------------------------

  predicate Names(s: State, name: Name, run: RunId) {
    name in s.dirs && s.dirs[name].stop == Some(run)
  }

  /** Step k writes the request for run, and the writer's own probe found the supervisor of run
      under the same hold of the guard. */
  ghost predicate RequestedAt(schedule: Schedule, k: nat, name: Name, run: RunId) {
    k < |schedule| && schedule[k].second.Go?
    && ProcOf(After(schedule[..k]), schedule[k].first) == StopWrite(name, run)
    && FoundBefore(schedule[..k], schedule[k].first, name, run)
  }

  lemma StatusKeepsStop(s: State, p: Pid, q: Proc, c: Choice, name: Name, run: RunId)
    requires q.StatusRecord? || q.StatusProbe? || q.StatusProbeDrop? || q.StatusRun? || q.StatusStop?
             || q.StatusDone? || q.StopWrite?
    requires Names(StepStatus(s, p, q, c), name, run) && !Names(s, name, run)
    ensures q == StopWrite(name, run) && !c.Fail?
  {
  }

  lemma UnregisterKeepsStop(s: State, p: Pid, q: Proc, c: Choice, name: Name, run: RunId)
    requires q.UnregisterLease? || q.UnregisterScan? || q.UnregisterDrop? || q.UnregisterRemove?
    ensures Names(StepUnregister(s, p, q, c), name, run) ==> Names(s, name, run)
  {
  }

  lemma StartKeepsStop(s: State, p: Pid, q: Proc, c: Choice, name: Name, run: RunId)
    requires q.StartRecord? || q.StartLease? || q.StartWrite? || q.StartUndo? || q.StartLeave?
    ensures Names(StepStart(s, p, q, c), name, run) ==> Names(s, name, run)
  {
  }

  lemma SaveKeepsStop(s: State, p: Pid, q: Proc, c: Choice, name: Name, run: RunId)
    requires q.SaveWait? || q.SaveRead? || q.SaveWrite? || q.SaveLeave? || q.Closing?
    ensures Names(StepSave(s, p, q, c), name, run) ==> Names(s, name, run)
  {
  }

  lemma ProfilesKeepStop(s: State, p: Pid, q: Proc, c: Choice, name: Name, run: RunId)
    requires q.Leaving? || q.RegisterMkdir? || q.RegisterWrite? || q.RegisterUndo?
             || q.UpdateLease? || q.UpdateRead? || q.UpdateWrite? || q.UpdateDrop?
    ensures Names(StepGuarded(s, p, q, c), name, run) ==> Names(s, name, run)
  {
  }

  lemma OthersKeepStop(s: State, p: Pid, q: Proc, c: Choice, name: Name, run: RunId)
    requires !q.Idle? && !q.Waiting? && !q.Supervising?
    requires !q.StatusRecord? && !q.StatusProbe? && !q.StatusProbeDrop? && !q.StatusRun? && !q.StatusStop?
             && !q.StatusDone? && !q.StopWrite?
    ensures Names(StepGuarded(s, p, q, c), name, run) ==> Names(s, name, run)
  {
    if q.UnregisterLease? || q.UnregisterScan? || q.UnregisterDrop? || q.UnregisterRemove? {
      UnregisterKeepsStop(s, p, q, c, name, run);
    } else if q.StartRecord? || q.StartLease? || q.StartWrite? || q.StartUndo? || q.StartLeave? {
      StartKeepsStop(s, p, q, c, name, run);
    } else if q.SaveWait? || q.SaveRead? || q.SaveWrite? || q.SaveLeave? || q.Closing? {
      SaveKeepsStop(s, p, q, c, name, run);
    } else {
      ProfilesKeepStop(s, p, q, c, name, run);
    }
  }

  lemma OutsideKeepsStop(s: State, p: Pid, c: Choice, name: Name, run: RunId)
    requires c.Crash? || ProcOf(s, p).Idle? || ProcOf(s, p).Waiting? || ProcOf(s, p).Supervising? || !(c.Go? || c.Fail?)
    ensures Names(Step(s, p, c), name, run) ==> Names(s, name, run)
  {
  }

  lemma NewNameIsWritten(s: State, p: Pid, c: Choice, name: Name, run: RunId)
    requires Names(Step(s, p, c), name, run) && !Names(s, name, run)
    ensures ProcOf(s, p) == StopWrite(name, run) && c.Go?
  {
    var q := ProcOf(s, p);
    if c.Crash? || q.Idle? || q.Waiting? || q.Supervising? || !(c.Go? || c.Fail?) {
      OutsideKeepsStop(s, p, c, name, run);
    } else if q.StatusRecord? || q.StatusProbe? || q.StatusProbeDrop? || q.StatusRun? || q.StatusStop?
              || q.StatusDone? || q.StopWrite? {
      StatusKeepsStop(s, p, q, c, name, run);
    } else {
      OthersKeepStop(s, p, q, c, name, run);
    }
  }

  /** A request file names a run only because a forced stop wrote it after its own probe, under the
      same hold of the guard, found the supervisor of that run. */
  lemma RequestWasMade(schedule: Schedule, name: Name, run: RunId)
    requires Names(After(schedule), name, run)
    ensures exists k: nat :: RequestedAt(schedule, k, name, run)
  {
    var k := ItBegan(schedule, (s: State) => Names(s, name, run));
    NewNameIsWritten(After(schedule[..k]), schedule[k].first, schedule[k].second, name, run);
    AskersHaveProbed(schedule[..k], schedule[k].first, name, run);
    assert RequestedAt(schedule, k, name, run);
  }

  // ---- Who sees a request -----------------------------------------------------------------

  lemma SeesOnlyItsName(s: State, p: Pid, c: Choice, run: RunId)
    requires Inv(s) && run in Step(s, p, c).sawStop && run !in s.sawStop
    ensures ProcOf(s, p).Supervising? && ProcOf(s, p).sup.run == run && Names(s, ProcOf(s, p).sup.name, run)
  {
    var q := ProcOf(s, p);
    if !c.Crash? && !q.Idle? && !q.Waiting? && !q.Supervising? && (c.Go? || c.Fail?) {
      EveryStepKeepsHistory(s, p, q, c);
    }
  }

  lemma RequestedEarlier(schedule: Schedule, n: nat, k: nat, name: Name, run: RunId)
    requires n <= |schedule| && RequestedAt(schedule[..n], k, name, run)
    ensures RequestedAt(schedule, k, name, run)
  {
    assert schedule[..n][..k] == schedule[..k];
  }

  /** A run sees a stop request only if a forced stop found its own supervisor holding the lease
      and then wrote the request, so a file left behind by an earlier run never stops a later
      one. */
  lemma StopReachesOnlyItsRun(schedule: Schedule, run: RunId)
    requires run in After(schedule).sawStop
    ensures exists k: nat, name: Name :: RequestedAt(schedule, k, name, run)
  {
    var n := ItBegan(schedule, (s: State) => run in s.sawStop);
    var s, p := After(schedule[..n]), schedule[n].first;
    Reachable(schedule[..n]);
    SeesOnlyItsName(s, p, schedule[n].second, run);
    var name := ProcOf(s, p).sup.name;
    RequestWasMade(schedule[..n], name, run);
    var k: nat :| RequestedAt(schedule[..n], k, name, run);
    RequestedEarlier(schedule, n, k, name, run);
  }
}
