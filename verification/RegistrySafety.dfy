/** What the registry protocol guarantees over every schedule: one supervisor per VM, whose run
    state nobody else touches; exact status; run states that only move forward. */
module RegistrySafety {
  import opened Wrappers
  import opened Registry
  import opened RegistryInvariant

  // ---- Leases and supervisors -------------------------------------------------------------

  predicate Supervises(s: State, p: Pid, name: Name, run: RunId) {
    var sup := SupOf(ProcOf(s, p));
    sup.Some? && sup.value.name == name && sup.value.run == run
  }

  /** No two processes ever hold the lease of one VM; a supervisor holds it. */
  lemma OneLease(schedule: Schedule, p: Pid, q: Pid)
    requires var s := After(schedule);
      && LeaseOf(ProcOf(s, p)).Some? && LeaseOf(ProcOf(s, q)).Some?
      && LeaseOf(ProcOf(s, p)).value.first == LeaseOf(ProcOf(s, q)).value.first
    ensures p == q
  {
    var s := After(schedule);
    Reachable(schedule);
    assert LeaseOk(s, p) && LeaseOk(s, q);
  }

  /** As long as a supervisor lives, its VM is registered at the revision it was started with and
      the run state on disk is its own. So a save never finds the run state missing or changed:
      unless its I/O fails, the step that reads it goes on to write. */
  lemma SupervisorOwnsRun(schedule: Schedule, p: Pid)
    requires SupOf(ProcOf(After(schedule), p)).Some?
    ensures var s := After(schedule); var q := ProcOf(s, p); var sup := SupOf(q).value;
      && sup.name in s.dirs
      && var d := s.dirs[sup.name];
      && d.record.Some? && d.record.value.revision == sup.revision
      && d.run.Some? && d.run.value.id == sup.run && d.run.value.revision == sup.revision
      && d.lock == Some(sup.lock) && sup.lock in s.held && s.held[sup.lock] == p
      && (q.SaveRead? ==> ProcOf(Step(s, p, Go), p) == SaveWrite(sup, q.event, d.run.value))
  {
    Reachable(schedule);
    OwnsRun(After(schedule), p);
    if ProcOf(After(schedule), p).SaveRead? {
      ReadGoesOn(After(schedule), p);
    }
  }

  lemma OwnsRun(s: State, p: Pid)
    requires Inv(s)
    ensures LeaseOk(s, p) && SupOk(s, p)
  {
  }

  lemma ReadGoesOn(s: State, p: Pid)
    requires SupOk(s, p) && ProcOf(s, p).SaveRead?
    ensures var q := ProcOf(s, p);
      ProcOf(Step(s, p, Go), p) == SaveWrite(q.sup, q.event, s.dirs[q.sup.name].run.value)
  {
  }

  // ---- Persisted run states ---------------------------------------------------------------

  /** One write to a run state: the state advances by one edge, and verified stays verified. */
  predicate Advances(a: RunState, b: RunState) {
    && a.id == b.id && a.revision == b.revision && (a.verified ==> b.verified)
    && match a.state
       case Starting => b.state in {Starting, Running, Failed}
       case Running => b.state in {Running, Stopped, Failed}
       case _ => b.state == a.state
  }

  /** Any number of such writes. */
  predicate Onward(a: RunState, b: RunState) {
    && a.id == b.id && a.revision == b.revision && (a.verified ==> b.verified)
    && match a.state
       case Starting => b.state in {Starting, Running, Stopped, Failed}
       case Running => b.state in {Running, Stopped, Failed}
       case _ => b.state == a.state
  }

  predicate HasRun(s: State, name: Name) {
    name in s.dirs && s.dirs[name].run.Some?
  }

  function RunOf(s: State, name: Name): RunState
    requires HasRun(s, name)
  {
    s.dirs[name].run.value
  }

  predicate StartsRun(q: Proc, name: Name) {
    q.StartWrite? && q.name == name
  }

  predicate RunMoves(s: State, t: State, p: Pid, name: Name) {
    HasRun(t, name) ==>
      || (HasRun(s, name) && Advances(RunOf(s, name), RunOf(t, name)))
      || (StartsRun(ProcOf(s, p), name) && RunOf(t, name).id == s.nextRun && RunOf(t, name).state == Starting
          && s.nextRun < t.nextRun)
  }

  lemma SaveMovesRun(s: State, p: Pid, sup: Sup, event: Edit, stored: RunState, c: Choice, name: Name)
    requires Inv(s) && ProcOf(s, p) == SaveWrite(sup, event, stored)
    ensures RunMoves(s, StepSave(s, p, SaveWrite(sup, event, stored), c), p, name)
  {
    assert SupOk(s, p);
    EditedSaved(sup, event, stored);
    assert Advances(stored, Edited(stored, event));
  }

  /** A step from q other than a close loses no run, and no step under the guard or at its door
      sees a stop request. */
  predicate KeepsHistory(s: State, t: State, q: Proc) {
    (q.Closing? || t.lost == s.lost) && t.sawStop == s.sawStop
  }

  predicate KeepsRun(s: State, t: State, name: Name) {
    HasRun(t, name) ==> HasRun(s, name) && RunOf(t, name) == RunOf(s, name)
  }

  lemma RegisterKeepsRuns(s: State, p: Pid, q: Proc, c: Choice, name: Name)
    requires q.RegisterMkdir? || q.RegisterWrite? || q.RegisterUndo?
    ensures KeepsRun(s, StepRegister(s, p, q, c), name)
    ensures KeepsHistory(s, StepRegister(s, p, q, c), q)
  {
  }

  lemma UpdateKeepsRuns(s: State, p: Pid, q: Proc, c: Choice, name: Name)
    requires q.UpdateLease? || q.UpdateRead? || q.UpdateWrite? || q.UpdateDrop?
    ensures KeepsRun(s, StepUpdate(s, p, q, c), name)
    ensures KeepsHistory(s, StepUpdate(s, p, q, c), q)
  {
  }

  lemma UnregisterKeepsRuns(s: State, p: Pid, q: Proc, c: Choice, name: Name)
    requires q.UnregisterLease? || q.UnregisterScan? || q.UnregisterDrop? || q.UnregisterRemove?
    ensures KeepsRun(s, StepUnregister(s, p, q, c), name)
    ensures KeepsHistory(s, StepUnregister(s, p, q, c), q)
  {
  }

  lemma StartKeepsRuns(s: State, p: Pid, q: Proc, c: Choice, name: Name)
    requires q.StartRecord? || q.StartLease? || q.StartUndo? || q.StartLeave?
    ensures KeepsRun(s, StepStart(s, p, q, c), name)
    ensures KeepsHistory(s, StepStart(s, p, q, c), q)
  {
  }

  lemma SaveKeepsRuns(s: State, p: Pid, q: Proc, c: Choice, name: Name)
    requires q.SaveWait? || q.SaveRead? || q.SaveLeave? || q.Closing?
    ensures KeepsRun(s, StepSave(s, p, q, c), name)
    ensures KeepsHistory(s, StepSave(s, p, q, c), q)
  {
  }

  lemma StatusKeepsRuns(s: State, p: Pid, q: Proc, c: Choice, name: Name)
    requires q.StatusRecord? || q.StatusProbe? || q.StatusProbeDrop? || q.StatusRun? || q.StatusStop?
             || q.StatusDone? || q.StopWrite?
    ensures KeepsRun(s, StepStatus(s, p, q, c), name)
    ensures KeepsHistory(s, StepStatus(s, p, q, c), q)
  {
  }

  lemma OthersKeepRuns(s: State, p: Pid, q: Proc, c: Choice, name: Name)
    requires !q.Idle? && !q.Waiting? && !q.Supervising? && !q.SaveWrite? && !q.StartWrite?
    ensures KeepsRun(s, StepGuarded(s, p, q, c), name)
    ensures KeepsHistory(s, StepGuarded(s, p, q, c), q)
  {
    if q.RegisterMkdir? || q.RegisterWrite? || q.RegisterUndo? {
      RegisterKeepsRuns(s, p, q, c, name);
    } else if q.UpdateLease? || q.UpdateRead? || q.UpdateWrite? || q.UpdateDrop? {
      UpdateKeepsRuns(s, p, q, c, name);
    } else if q.UnregisterLease? || q.UnregisterScan? || q.UnregisterDrop? || q.UnregisterRemove? {
      UnregisterKeepsRuns(s, p, q, c, name);
    } else if q.StartRecord? || q.StartLease? || q.StartUndo? || q.StartLeave? {
      StartKeepsRuns(s, p, q, c, name);
    } else if q.SaveWait? || q.SaveRead? || q.SaveLeave? || q.Closing? {
      SaveKeepsRuns(s, p, q, c, name);
    } else if !q.Leaving? {
      StatusKeepsRuns(s, p, q, c, name);
    }
  }

  lemma GuardedMovesRun(s: State, p: Pid, q: Proc, c: Choice, name: Name)
    requires Inv(s) && ProcOf(s, p) == q && !q.Idle? && !q.Waiting? && !q.Supervising?
    ensures RunMoves(s, StepGuarded(s, p, q, c), p, name)
  {
    if q.SaveWrite? {
      SaveMovesRun(s, p, q.sup, q.event, q.stored, c, name);
    } else if q.StartWrite? {
      assert RunMoves(s, StepStart(s, p, q, c), p, name);
    } else {
      OthersKeepRuns(s, p, q, c, name);
    }
  }

  /** The persisted state of one run only moves from Starting to Running or Failed and from
      Running to Stopped or Failed; a verified boot is never unverified; the only other way to a
      run state is a new run. */
  lemma EveryStepMovesRun(s: State, p: Pid, c: Choice, name: Name)
    requires Inv(s)
    ensures RunMoves(s, Step(s, p, c), p, name)
    ensures s.nextRun <= Step(s, p, c).nextRun
  {
    var q := ProcOf(s, p);
    if c.Crash? || q.Idle? || q.Waiting? || q.Supervising? || !(c.Go? || c.Fail?) {
      OutsideKeepsRun(s, p, c, name);
    } else {
      GuardedMovesRun(s, p, q, c, name);
    }
  }

  lemma OutsideKeepsRun(s: State, p: Pid, c: Choice, name: Name)
    requires c.Crash? || ProcOf(s, p).Idle? || ProcOf(s, p).Waiting? || ProcOf(s, p).Supervising? || !(c.Go? || c.Fail?)
    ensures KeepsRun(s, Step(s, p, c), name) && s.nextRun == Step(s, p, c).nextRun
  {
  }

  lemma {:induction false} RunsAreDistinct(schedule: Schedule, a: Name, b: Name)
    requires a != b && HasRun(After(schedule), a) && HasRun(After(schedule), b)
    ensures RunOf(After(schedule), a).id != RunOf(After(schedule), b).id
  {
    var before, last := schedule[..|schedule| - 1], schedule[|schedule| - 1];
    var s := After(before);
    Reachable(before);
    EveryStepMovesRun(s, last.first, last.second, a);
    EveryStepMovesRun(s, last.first, last.second, b);
    assert DirOk(s, a) && DirOk(s, b);
    if HasRun(s, a) && HasRun(s, b) {
      RunsAreDistinct(before, a, b);
    }
  }

  /** Over any stretch of a schedule: a run id stays in its directory, and its state only moves
      onward. */
  lemma {:induction false} RunMovesOnward(schedule: Schedule, i: nat, a: Name, b: Name)
    requires i <= |schedule| && HasRun(After(schedule[..i]), a) && HasRun(After(schedule), b)
    requires RunOf(After(schedule[..i]), a).id == RunOf(After(schedule), b).id
    ensures a == b && Onward(RunOf(After(schedule[..i]), a), RunOf(After(schedule), b))
    decreases |schedule|
  {
    if i == |schedule| {
      assert schedule[..i] == schedule;
      if a != b {
        RunsAreDistinct(schedule, a, b);
      }
    } else {
      var before, last := schedule[..|schedule| - 1], schedule[|schedule| - 1];
      Reachable(before);
      assert before[..i] == schedule[..i];
      RunIdsAreOld(before, i, a);
      EveryStepMovesRun(After(before), last.first, last.second, b);
      RunMovesOnward(before, i, a, b);
    }
  }

  lemma {:induction false} RunIdsAreOld(schedule: Schedule, i: nat, name: Name)
    requires i <= |schedule| && HasRun(After(schedule[..i]), name)
    ensures RunOf(After(schedule[..i]), name).id < After(schedule).nextRun
  {
    if i == |schedule| {
      assert schedule[..i] == schedule;
      Reachable(schedule);
      assert DirOk(After(schedule), name);
    } else {
      var before, last := schedule[..|schedule| - 1], schedule[|schedule| - 1];
      assert before[..i] == schedule[..i];
      RunIdsAreOld(before, i, name);
      Reachable(before);
      EveryStepMovesRun(After(before), last.first, last.second, name);
    }
  }

  /** When a stop request is written, any supervisor of the VM is the one it names. */
  lemma StopNamesTheHolder(schedule: Schedule, p: Pid, q: Pid, run: RunId)
    requires ProcOf(After(schedule), p).StopWrite?
    requires Supervises(After(schedule), q, ProcOf(After(schedule), p).name, run)
    ensures run == ProcOf(After(schedule), p).target
  {
    var s := After(schedule);
    Reachable(schedule);
    assert SupOk(s, q) && HolderOk(s, p);
  }

  // ---- Status -----------------------------------------------------------------------------

  /** The probe of a status finds the lease taken exactly if some supervisor of the VM lives. */
  lemma ProbeIsExact(schedule: Schedule, p: Pid)
    requires ProcOf(After(schedule), p).StatusProbe?
    ensures var s := After(schedule); var name := ProcOf(s, p).name;
      && name in s.dirs
      && (!LeaseFree(s, name) <==> exists q: Pid, run: RunId :: Supervises(s, q, name, run))
  {
    var s := After(schedule);
    var name := ProcOf(s, p).name;
    Reachable(schedule);
    assert HolderOk(s, p);
    if !LeaseFree(s, name) {
      HolderSupervises(s, p, name);
      var lock := LockOf(s, name);
      var q := s.held[lock];
      assert HeldOk(s, lock) && LeaseOk(s, q);
      assert OwnLock(s, name, LeaseOf(ProcOf(s, q)).value.first);
      assert Supervises(s, q, name, SupOf(ProcOf(s, q)).value.run);
    } else {
      forall q: Pid, run: RunId ensures !Supervises(s, q, name, run) {
        assert LeaseOk(s, q);
      }
    }
  }

  /** A report agrees with the lease and the run state. An active VM always has the run state of
      its supervisor, so neither a status without run nor a stop request that finds none occurs;
      an interrupted run is one whose supervisor was lost. */
  lemma StatusIsExact(schedule: Schedule, p: Pid)
    requires ProcOf(After(schedule), p).StatusDone?
    ensures var s := After(schedule); var q := ProcOf(s, p); var r := q.status;
      && q.name in s.dirs && s.dirs[q.name].record.Some? && r.revision == s.dirs[q.name].record.value.revision
      && (r.active ==> r.state in {Starting, Running, Stopping} && r.run.Some? && q.holder == Some(r.run.value.id))
      && (!r.active ==> r.state in {VmState.Registered, Stopped, Failed, Interrupted})
      && (!r.active ==> forall other: Pid, run: RunId :: !Supervises(s, other, q.name, run))
      && (forall other: Pid, run: RunId :: Supervises(s, other, q.name, run) ==> q.holder == Some(run))
      && (r.state == VmState.Registered <==> r.run.None?)
      && (r.state == Interrupted ==> r.run.value.id in s.lost)
  {
    var s := After(schedule);
    var q := ProcOf(s, p);
    Reachable(schedule);
    assert HolderOk(s, p) && DirOk(s, q.name);
    forall other: Pid, run: RunId | Supervises(s, other, q.name, run)
      ensures q.status.active && q.holder == Some(run)
    {
      assert LeaseOk(s, other) && SupOk(s, other);
    }
  }

  /** Which state is reported. With a supervisor it is stopping exactly if its end is already saved
      or the request on disk names its run, and otherwise the saved state. Without one an
      unfinished run is interrupted and a finished one is reported as it finished. */
  lemma StateIsExact(schedule: Schedule, p: Pid)
    requires ProcOf(After(schedule), p).StatusDone?
    ensures var s := After(schedule); var q := ProcOf(s, p); var r := q.status;
      && q.name in s.dirs
      && var d := s.dirs[q.name];
      && (r.active ==> d.run.Some? && r.run == d.run)
      && (r.active && (d.stop == Some(d.run.value.id) || d.run.value.state in {Stopped, Failed}) ==>
            r.state == Stopping)
      && (r.active && d.stop != Some(d.run.value.id) && d.run.value.state !in {Stopped, Failed} ==>
            r.state == d.run.value.state)
      && (!r.active && d.run.None? ==> r.state == VmState.Registered && r.run.None?)
      && (!r.active && d.run.Some? && d.run.value.state in {Starting, Running} ==>
            r.state == Interrupted && r.run == Some(d.run.value.(state := Interrupted)))
      && (!r.active && d.run.Some? && d.run.value.state in {Stopped, Failed} ==>
            r.state == d.run.value.state && r.run == d.run)
  {
    var s := After(schedule);
    var q := ProcOf(s, p);
    Reachable(schedule);
    assert HolderOk(s, p) && DirOk(s, q.name);
  }

  lemma EveryStepKeepsHistory(s: State, p: Pid, q: Proc, c: Choice)
    requires Inv(s) && ProcOf(s, p) == q && !q.Idle? && !q.Waiting? && !q.Supervising?
    ensures KeepsHistory(s, StepGuarded(s, p, q, c), q)
  {
    if q.SaveWrite? {
      assert KeepsHistory(s, StepSave(s, p, q, c), q);
    } else if q.StartWrite? {
      assert KeepsHistory(s, StepStart(s, p, q, c), q);
    } else {
      OthersKeepRuns(s, p, q, c, "");
    }
  }

  /** In step k the supervisor of run goes away before the end of the run is saved: it crashes,
      or it gives up on saving. */
  predicate LosesIn(s: State, step: Pair<Pid, Choice>, run: RunId) {
    var q := ProcOf(s, step.first);
    SupOf(q).Some? && SupOf(q).value.run == run
    && (step.second.Crash? || q.Closing?) && !EndSaved(q)
  }

  ghost predicate LostAt(schedule: Schedule, k: nat, run: RunId) {
    k < |schedule| && LosesIn(After(schedule[..k]), schedule[k], run)
  }

  /** A run counts as lost only after its supervisor crashed before the end of the run was saved,
      or could not save it. */
  lemma LostByCrash(schedule: Schedule, run: RunId)
    requires run in After(schedule).lost
    ensures exists k: nat :: LostAt(schedule, k, run)
  {
    var k := ItBegan(schedule, (s: State) => run in s.lost);
    Reachable(schedule[..k]);
    EveryStepLoses(After(schedule[..k]), schedule[k].first, schedule[k].second, run);
    assert LostAt(schedule, k, run);
  }

  lemma EveryStepLoses(s: State, p: Pid, c: Choice, run: RunId)
    requires Inv(s) && run !in s.lost && run in Step(s, p, c).lost
    ensures LosesIn(s, Pair(p, c), run)
  {
    var q := ProcOf(s, p);
    if !c.Crash? && !q.Idle? && !q.Waiting? && !q.Supervising? && (c.Go? || c.Fail?) {
      EveryStepKeepsHistory(s, p, q, c);
    }
  }
}
