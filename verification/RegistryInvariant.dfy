/** What every step of the registry protocol keeps, whatever the interleaving and wherever a
    process crashes. */
module RegistryInvariant {
  import opened Wrappers
  import opened Registry

  // ---- The invariant ----------------------------------------------------------------------

  /** The guard has at most one holder, and it is the process that believes so. */
  ghost predicate GuardOk(s: State) {
    && (s.guard.Some? ==> HoldsGuard(ProcOf(s, s.guard.value)))
    && forall p: Pid :: HoldsGuard(ProcOf(s, p)) ==> s.guard == Some(p)
  }

  /** A process that believes it holds a lease holds the lock of the VM's current lock file. */
  predicate LeaseOk(s: State, p: Pid) {
    var l := LeaseOf(ProcOf(s, p));
    l.Some? ==>
      && l.value.first in s.dirs && s.dirs[l.value.first].lock == Some(l.value.second)
      && l.value.second in s.held && s.held[l.value.second] == p
  }

  predicate HeldOk(s: State, lock: LockFile) {
    lock in s.held ==>
      && lock < s.nextLock
      && LeaseOf(ProcOf(s, s.held[lock])).Some? && LeaseOf(ProcOf(s, s.held[lock])).value.second == lock
  }

  predicate Matches(sup: Sup, r: RunState) {
    r.state == (if sup.started then Running else Starting) && r.verified == sup.verified
  }

  predicate EventOk(sup: Sup, event: Edit) {
    match event
    case MarkStarted => !sup.started
    case MarkVerified => sup.started && !sup.verified
    case Finish(Report(_, marker)) => sup.started && (sup.verified ==> marker)
    case Finish(Error) => true
  }

  predicate Saved(sup: Sup, event: Edit, r: RunState) {
    match event
    case MarkStarted => r.state == Running && r.verified == sup.verified
    case MarkVerified => r.state == Running && r.verified
    case Finish(_) => r.state in {Stopped, Failed}
  }

  /** How far the run state on disk is, for each place a supervisor can be in. */
  predicate PhaseOk(q: Proc, sup: Sup, r: RunState) {
    match q
    case SaveWait(_, event) => EventOk(sup, event) && Matches(sup, r)
    case SaveRead(_, event) => EventOk(sup, event) && Matches(sup, r)
    case SaveWrite(_, event, stored) => EventOk(sup, event) && Matches(sup, r) && stored == r
    case SaveLeave(_, event, saved) => EventOk(sup, event) && if saved then Saved(sup, event, r) else Matches(sup, r)
    case Closing(_, saved) => if saved then r.state in {Stopped, Failed} else Matches(sup, r)
    case _ => Matches(sup, r)
  }

  /** A supervisor's directory holds its own run, of the profile revision it was started with. */
  predicate SupOk(s: State, p: Pid) {
    var sup := SupOf(ProcOf(s, p));
    sup.Some? ==>
      && sup.value.name in s.dirs
      && var d := s.dirs[sup.value.name];
      && d.record.Some? && d.record.value.revision == sup.value.revision
      && d.run.Some? && d.run.value.id == sup.value.run && d.run.value.revision == sup.value.revision
      && PhaseOk(ProcOf(s, p), sup.value, d.run.value)
  }

  /** Some process supervises this run with the VM's lease. */
  predicate Supervised(s: State, d: Dir, run: RunId) {
    && d.lock.Some? && d.lock.value in s.held
    && HolderRun(s, d.lock.value) == Some(run)
  }

  predicate DirOk(s: State, name: Name) {
    name in s.dirs ==>
      var d := s.dirs[name];
      && (d.lock.Some? ==> d.lock.value < s.nextLock)
      && (d.run.Some? ==>
            && d.run.value.id < s.nextRun
            && d.run.value.state in {Starting, Running, Stopped, Failed}
            && (d.run.value.state in {Starting, Running} ==>
                  d.run.value.id in s.lost || Supervised(s, d, d.run.value.id)))
  }

  predicate OwnLock(s: State, a: Name, b: Name) {
    a in s.dirs && b in s.dirs && a != b && s.dirs[a].lock.Some? ==> s.dirs[a].lock != s.dirs[b].lock
  }

  predicate Unleased(s: State, d: Dir) {
    d.lock.Some? ==> d.lock.value !in s.held
  }

  predicate HasRecord(s: State, name: Name, record: Record) {
    name in s.dirs && s.dirs[name].record == Some(record)
  }

  /** What a status knows between its probe of the lease and its report. */
  predicate ProbeOk(s: State, name: Name, active: bool, holder: Option<RunId>) {
    && name in s.dirs
    && active == holder.Some?
    && (active ==>
          s.dirs[name].run.Some? && s.dirs[name].run.value.id == holder.value)
    && (!active ==> Unleased(s, s.dirs[name]))
  }

  /** What the holder of the guard relies on. */
  predicate HolderOk(s: State, p: Pid) {
    match ProcOf(s, p)
    case RegisterWrite(name, _) => name in s.dirs && s.dirs[name] == EMPTY_DIR
    case RegisterUndo(name) => name in s.dirs && s.dirs[name] == EMPTY_DIR
    case UpdateWrite(name, _, edit, record) =>
      name in s.dirs && s.dirs[name].record.Some? && edit(s.dirs[name].record.value) == Some(record)
    case UnregisterRemove(name, removed) =>
      && name in s.dirs && removed < REMOVALS && Unleased(s, s.dirs[name])
      && (removed > 0 ==> s.dirs[name].record.None?) && (removed > 1 ==> s.dirs[name].run.None?)
      && (removed > 2 ==> s.dirs[name].lock.None?) && (removed > 3 ==> s.dirs[name].stop.None?)
    case StatusProbe(name, _, record) => HasRecord(s, name, record)
    case StatusProbeDrop(name, _, record, _) => HasRecord(s, name, record)
    case StatusRun(name, ask, record, active, holder) =>
      HasRecord(s, name, record) && ProbeOk(s, name, active, holder)
    case StatusStop(name, ask, record, active, holder, last) =>
      HasRecord(s, name, record) && ProbeOk(s, name, active, holder) && last == s.dirs[name].run
    case StatusDone(name, ask, status, holder) =>
      && ProbeOk(s, name, status.active, holder) && s.dirs[name].record.Some?
      && status == StatusOf(s.dirs[name].record.value, holder.Some?, s.dirs[name].run, s.dirs[name].stop)
    case StopWrite(name, target) =>
      name in s.dirs && s.dirs[name].run.Some? && s.dirs[name].run.value.id == target
    case StartLease(name, record) => HasRecord(s, name, record)
    case StartWrite(name, record, _) => HasRecord(s, name, record)
    case _ => true
  }

  ghost predicate Inv(s: State) {
    && GuardOk(s)
    && (forall p: Pid :: LeaseOk(s, p))
    && (forall p: Pid :: SupOk(s, p))
    && (forall lock: LockFile :: HeldOk(s, lock))
    && (forall name: Name :: DirOk(s, name))
    && (forall a: Name, b: Name :: OwnLock(s, a, b))
    && (s.guard.Some? ==> HolderOk(s, s.guard.value))
  }

  // ---- What a step by one process leaves alone --------------------------------------------

  /** Process p made a step that concerns the VM name: other processes, other directories and
      locks held by others are as before, and so are the record, the run state and the lock of
      name if another process holds its lease. */
  ghost predicate Framed(s: State, t: State, p: Pid, name: Name) {
    && (forall q: Pid :: q != p ==> ProcOf(t, q) == ProcOf(s, q))
    && (forall m: Name :: m != name ==> (m in t.dirs <==> m in s.dirs) && (m in s.dirs ==> t.dirs[m] == s.dirs[m]))
    && (forall lock | lock in s.held && s.held[lock] != p :: lock in t.held && t.held[lock] == s.held[lock])
    && (forall lock | lock in t.held && t.held[lock] != p :: lock in s.held && t.held[lock] == s.held[lock])
    && (OthersLease(s, p, name) ==> name in t.dirs && t.dirs[name].(stop := s.dirs[name].stop) == s.dirs[name])
    && s.nextLock <= t.nextLock && s.nextRun <= t.nextRun
    && s.lost <= t.lost
    && (SupOf(ProcOf(s, p)).Some? ==> SupOf(ProcOf(s, p)).value.name == name)
  }

  predicate OthersLease(s: State, p: Pid, name: Name) {
    && name in s.dirs && s.dirs[name].lock.Some?
    && s.dirs[name].lock.value in s.held && s.held[s.dirs[name].lock.value] != p
  }

  ghost predicate GuardMoves(s: State, t: State, p: Pid) {
    if HoldsGuard(ProcOf(t, p)) then t.guard == Some(p) && (s.guard.Some? ==> s.guard == Some(p))
    else t.guard == if s.guard == Some(p) then None else s.guard
  }

  /** The lock file of name is the one it had, or a new one. */
  predicate LockKept(s: State, t: State, name: Name) {
    name in t.dirs && t.dirs[name].lock.Some? ==>
      || (name in s.dirs && t.dirs[name].lock == s.dirs[name].lock)
      || (t.dirs[name].lock.value == s.nextLock && s.nextLock < t.nextLock)
  }

  /** Every lock a process holds is the one it believes it holds. */
  predicate OwnLocks(s: State, p: Pid) {
    forall lock | lock in s.held && s.held[lock] == p ::
      lock < s.nextLock && LeaseOf(ProcOf(s, p)).Some? && LeaseOf(ProcOf(s, p)).value.second == lock
  }

  lemma OthersKeep(s: State, t: State, p: Pid, name: Name, q: Pid)
    requires Inv(s) && Framed(s, t, p, name) && q != p
    ensures LeaseOk(t, q) && SupOk(t, q)
  {
    assert LeaseOk(s, q) && SupOk(s, q) && ProcOf(t, q) == ProcOf(s, q);
  }

  lemma OtherDirKeeps(s: State, t: State, p: Pid, name: Name, m: Name)
    requires Inv(s) && Framed(s, t, p, name) && m != name
    ensures DirOk(t, m)
  {
    assert DirOk(s, m);
    if m in s.dirs && s.dirs[m].lock.Some? && s.dirs[m].lock.value in s.held {
      var holder := s.held[s.dirs[m].lock.value];
      assert LeaseOk(s, holder) && HeldOk(s, s.dirs[m].lock.value);
      assert OwnLock(s, m, LeaseOf(ProcOf(s, holder)).value.first);
    }
  }

  lemma LocksStayOwn(s: State, t: State, p: Pid, name: Name, a: Name, b: Name)
    requires Inv(s) && Framed(s, t, p, name) && LockKept(s, t, name)
    ensures OwnLock(t, a, b)
  {
    assert OwnLock(s, a, b) && OwnLock(s, b, a) && DirOk(s, a) && DirOk(s, b);
  }

  lemma GuardKeeps(s: State, t: State, p: Pid, name: Name)
    requires Inv(s) && Framed(s, t, p, name) && GuardMoves(s, t, p)
    ensures GuardOk(t)
  {
    forall q: Pid | HoldsGuard(ProcOf(t, q)) ensures t.guard == Some(q) {
      if q != p {
        assert HoldsGuard(ProcOf(s, q));
      }
    }
  }

  /** A step keeps the invariant if what it did itself is in order. */
  lemma StepKeeps(s: State, t: State, p: Pid, name: Name)
    requires Inv(s) && Framed(s, t, p, name) && GuardMoves(s, t, p) && LockKept(s, t, name)
    requires LeaseOk(t, p) && SupOk(t, p) && DirOk(t, name)
    requires OwnLocks(t, p)
    requires t.guard.Some? ==> HolderOk(t, t.guard.value)
    ensures Inv(t)
  {
    GuardKeeps(s, t, p, name);
    forall q: Pid ensures LeaseOk(t, q) && SupOk(t, q) {
      if q != p {
        OthersKeep(s, t, p, name, q);
      }
    }
    forall lock: LockFile ensures HeldOk(t, lock) {
      assert HeldOk(s, lock);
    }
    forall m: Name ensures DirOk(t, m) {
      if m != name {
        OtherDirKeeps(s, t, p, name, m);
      }
    }
    forall a: Name, b: Name ensures OwnLock(t, a, b) {
      LocksStayOwn(s, t, p, name, a, b);
    }
  }

  /** The guard holder's knowledge survives a step that touches no directory and frees locks. */
  lemma HolderKeeps(s: State, t: State, q: Pid)
    requires HolderOk(s, q) && ProcOf(t, q) == ProcOf(s, q) && t.dirs == s.dirs
    requires t.held.Keys <= s.held.Keys
    ensures HolderOk(t, q)
  {
  }

  // ---- Every step keeps it ----------------------------------------------------------------

  lemma InitKeeps()
    ensures Inv(INIT)
  {
  }

  lemma OwnFacts(s: State, p: Pid, name: Name)
    requires Inv(s)
    ensures LeaseOk(s, p) && SupOk(s, p) && DirOk(s, name)
    ensures s.guard == Some(p) ==> HolderOk(s, p)
    ensures HoldsGuard(ProcOf(s, p)) <==> s.guard == Some(p)
    ensures OwnLocks(s, p)
  {
    forall lock | lock in s.held && s.held[lock] == p
      ensures lock < s.nextLock && LeaseOf(ProcOf(s, p)).Some? && LeaseOf(ProcOf(s, p)).value.second == lock
    {
      assert HeldOk(s, lock);
    }
  }

  lemma IdleKeeps(s: State, p: Pid, c: Choice)
    requires Inv(s) && ProcOf(s, p).Idle?
    ensures Inv(StepIdle(s, p, c))
  {
    var t := StepIdle(s, p, c);
    OwnFacts(s, p, "");
    if t != s {
      if s.guard.Some? {
        HolderKeeps(s, t, s.guard.value);
      }
      StepKeeps(s, t, p, "");
    }
  }

  lemma WaitingKeeps(s: State, p: Pid, op: Op, c: Choice)
    requires Inv(s) && ProcOf(s, p) == Waiting(op)
    ensures Inv(StepWaiting(s, p, op, c))
  {
    if c.Go? && s.guard.None? {
      EnterKeeps(s, p, Enter(op));
    } else if c.Fail? {
      GiveUpKeeps(s, p);
    }
  }

  /** Entering the guard, still relying on nothing. */
  lemma EnterKeeps(s: State, p: Pid, q: Proc)
    requires Inv(s) && ProcOf(s, p).Waiting? && s.guard.None?
    requires HoldsGuard(q) && LeaseOf(q).None? && HolderOk(Become(s, p, q), p)
    ensures Inv(Become(s, p, q).(guard := Some(p)))
  {
    OwnFacts(s, p, "");
    StepKeeps(s, Become(s, p, q).(guard := Some(p)), p, "");
  }

  lemma GiveUpKeeps(s: State, p: Pid)
    requires Inv(s) && ProcOf(s, p).Waiting?
    ensures Inv(Become(s, p, Idle))
  {
    var t := Become(s, p, Idle);
    OwnFacts(s, p, "");
    if s.guard.Some? {
      HolderKeeps(s, t, s.guard.value);
    }
    StepKeeps(s, t, p, "");
  }

  lemma RegisterKeeps(s: State, p: Pid, q: Proc, c: Choice)
    requires Inv(s) && ProcOf(s, p) == q && (q.RegisterMkdir? || q.RegisterWrite? || q.RegisterUndo?)
    ensures Inv(StepRegister(s, p, q, c))
  {
    OwnFacts(s, p, q.name);
    StepKeeps(s, StepRegister(s, p, q, c), p, q.name);
  }

  /** Taking a free lease. */
  lemma TakeKeeps(s: State, p: Pid, name: Name, q: Proc)
    requires Inv(s) && s.guard == Some(p) && LeaseOf(ProcOf(s, p)).None?
    requires name in s.dirs && LeaseFree(s, name)
    requires HoldsGuard(q) && SupOf(q).None? && LeaseOf(q) == Some(Pair(name, LockOf(s, name)))
    requires HolderOk(Become(TakeLease(s, p, name), p, q), p)
    ensures Inv(Become(TakeLease(s, p, name), p, q))
  {
    var t := Become(TakeLease(s, p, name), p, q);
    OwnFacts(s, p, name);
    assert HeldOk(s, LockOf(s, name));
    StepKeeps(s, t, p, name);
  }

  /** Giving a lease back. */
  lemma DropKeeps(s: State, p: Pid, name: Name, lock: LockFile, q: Proc)
    requires Inv(s) && s.guard == Some(p) && SupOf(ProcOf(s, p)).None?
    requires LeaseOf(ProcOf(s, p)) == Some(Pair(name, lock))
    requires HoldsGuard(q) && LeaseOf(q).None?
    requires HolderOk(Become(DropLease(s, lock), p, q), p)
    ensures Inv(Become(DropLease(s, lock), p, q))
  {
    OwnFacts(s, p, name);
    StepKeeps(s, Become(DropLease(s, lock), p, q), p, name);
  }

  /** The guard holder moves on without touching shared state. */
  lemma MoveKeeps(s: State, p: Pid, q: Proc)
    requires Inv(s) && s.guard == Some(p)
    requires SupOf(ProcOf(s, p)).None? && SupOf(q).None? && HoldsGuard(q)
    requires LeaseOf(q) == LeaseOf(ProcOf(s, p))
    requires HolderOk(Become(s, p, q), p)
    ensures Inv(Become(s, p, q))
  {
    OwnFacts(s, p, "");
    StepKeeps(s, Become(s, p, q), p, "");
  }

  /** The guard holder writes one file of a VM directory, other than the lock. */
  lemma WriteKeeps(s: State, p: Pid, name: Name, d: Dir, q: Proc)
    requires Inv(s) && s.guard == Some(p) && name in s.dirs && d.lock == s.dirs[name].lock
    requires SupOf(ProcOf(s, p)).None? && SupOf(q).None? && HoldsGuard(q)
    requires LeaseOf(q) == LeaseOf(ProcOf(s, p))
    requires OthersLease(s, p, name) ==> d.(stop := s.dirs[name].stop) == s.dirs[name]
    requires DirOk(Become(PutDir(s, name, d), p, q), name)
    requires HolderOk(Become(PutDir(s, name, d), p, q), p)
    ensures Inv(Become(PutDir(s, name, d), p, q))
  {
    OwnFacts(s, p, name);
    StepKeeps(s, Become(PutDir(s, name, d), p, q), p, name);
  }

  lemma OwnLease(s: State, p: Pid, name: Name, lock: LockFile)
    requires Inv(s) && LeaseOf(ProcOf(s, p)) == Some(Pair(name, lock))
    ensures name in s.dirs && s.dirs[name].lock == Some(lock) && lock in s.held && s.held[lock] == p
    ensures !OthersLease(s, p, name)
  {
    assert LeaseOk(s, p);
  }

  lemma UpdateLeaseKeeps(s: State, p: Pid, name: Name, edit: Record -> Option<Record>, c: Choice)
    requires Inv(s) && ProcOf(s, p) == UpdateLease(name, edit)
    ensures Inv(StepUpdate(s, p, UpdateLease(name, edit), c))
  {
    OwnFacts(s, p, name);
    if c.Fail? || name !in s.dirs || !LeaseFree(s, name) {
      MoveKeeps(s, p, Leaving);
    } else {
      TakeKeeps(s, p, name, UpdateRead(name, LockOf(s, name), edit));
    }
  }

  lemma UpdateReadKeeps(s: State, p: Pid, name: Name, lock: LockFile, edit: Record -> Option<Record>, c: Choice)
    requires Inv(s) && ProcOf(s, p) == UpdateRead(name, lock, edit)
    ensures Inv(StepUpdate(s, p, UpdateRead(name, lock, edit), c))
  {
    OwnFacts(s, p, name);
    OwnLease(s, p, name, lock);
    if c.Fail? || s.dirs[name].record.None? || edit(s.dirs[name].record.value).None? {
      MoveKeeps(s, p, UpdateDrop(name, lock));
    } else {
      MoveKeeps(s, p, UpdateWrite(name, lock, edit, edit(s.dirs[name].record.value).value));
    }
  }

  lemma UpdateWriteKeeps(
      s: State, p: Pid, name: Name, lock: LockFile, edit: Record -> Option<Record>, record: Record, c: Choice)
    requires Inv(s) && ProcOf(s, p) == UpdateWrite(name, lock, edit, record)
    ensures Inv(StepUpdate(s, p, UpdateWrite(name, lock, edit, record), c))
  {
    OwnFacts(s, p, name);
    OwnLease(s, p, name, lock);
    if c.Fail? {
      MoveKeeps(s, p, UpdateDrop(name, lock));
    } else {
      WriteKeeps(s, p, name, s.dirs[name].(record := Some(record)), UpdateDrop(name, lock));
    }
  }

  lemma UpdateKeeps(s: State, p: Pid, q: Proc, c: Choice)
    requires Inv(s) && ProcOf(s, p) == q && (q.UpdateLease? || q.UpdateRead? || q.UpdateWrite? || q.UpdateDrop?)
    ensures Inv(StepUpdate(s, p, q, c))
  {
    if q.UpdateLease? {
      UpdateLeaseKeeps(s, p, q.name, q.edit, c);
    } else if q.UpdateRead? {
      UpdateReadKeeps(s, p, q.name, q.lock, q.edit, c);
    } else if q.UpdateWrite? {
      UpdateWriteKeeps(s, p, q.name, q.lock, q.edit, q.record, c);
    } else {
      HolderDrops(s, p, q.name, q.lock, Leaving);
    }
  }

  /** The guard holder gives a lease back and relies on nothing that the lease protected. */
  lemma HolderDrops(s: State, p: Pid, name: Name, lock: LockFile, q: Proc)
    requires Inv(s) && HoldsGuard(ProcOf(s, p)) && SupOf(ProcOf(s, p)).None?
    requires LeaseOf(ProcOf(s, p)) == Some(Pair(name, lock))
    requires q == Leaving || q == UnregisterRemove(name, 0)
    ensures Inv(Become(DropLease(s, lock), p, q))
  {
    OwnFacts(s, p, name);
    OwnLease(s, p, name, lock);
    DropKeeps(s, p, name, lock, q);
  }

  lemma UnregisterLeaseKeeps(s: State, p: Pid, name: Name, c: Choice)
    requires Inv(s) && ProcOf(s, p) == UnregisterLease(name)
    ensures Inv(StepUnregister(s, p, UnregisterLease(name), c))
  {
    OwnFacts(s, p, name);
    if c.Fail? || name !in s.dirs || !LeaseFree(s, name) {
      MoveKeeps(s, p, Leaving);
    } else {
      TakeKeeps(s, p, name, UnregisterScan(name, LockOf(s, name)));
    }
  }

  lemma UnregisterScanKeeps(s: State, p: Pid, name: Name, lock: LockFile, remove: bool)
    requires Inv(s) && ProcOf(s, p) == UnregisterScan(name, lock)
    ensures Inv(Become(s, p, UnregisterDrop(name, lock, remove)))
  {
    OwnFacts(s, p, name);
    MoveKeeps(s, p, UnregisterDrop(name, lock, remove));
  }

  lemma UnregisterRemoveKeeps(s: State, p: Pid, name: Name, removed: nat, c: Choice)
    requires Inv(s) && ProcOf(s, p) == UnregisterRemove(name, removed)
    ensures Inv(StepUnregister(s, p, UnregisterRemove(name, removed), c))
  {
    OwnFacts(s, p, name);
    if c.Fail? {
      MoveKeeps(s, p, Leaving);
    } else {
      RemoveKeeps(s, p, name, removed);
    }
  }

  lemma UnregisterKeeps(s: State, p: Pid, q: Proc, c: Choice)
    requires Inv(s) && ProcOf(s, p) == q
    requires q.UnregisterLease? || q.UnregisterScan? || q.UnregisterDrop? || q.UnregisterRemove?
    ensures Inv(StepUnregister(s, p, q, c))
  {
    if q.UnregisterLease? {
      UnregisterLeaseKeeps(s, p, q.name, c);
    } else if q.UnregisterScan? {
      UnregisterScanKeeps(s, p, q.name, q.lock, !c.Fail?);
    } else if q.UnregisterDrop? {
      HolderDrops(s, p, q.name, q.lock, if q.remove then UnregisterRemove(q.name, 0) else Leaving);
    } else {
      UnregisterRemoveKeeps(s, p, q.name, q.removed, c);
    }
  }

  lemma RemoveKeeps(s: State, p: Pid, name: Name, removed: nat)
    requires Inv(s) && ProcOf(s, p) == UnregisterRemove(name, removed)
    ensures Inv(StepUnregister(s, p, UnregisterRemove(name, removed), Go))
  {
    OwnFacts(s, p, name);
    if removed == 2 {
      RemoveLockKeeps(s, p, name);
    } else if removed == 4 {
      RemoveDirKeeps(s, p, name);
    } else {
      var d := s.dirs[name];
      var left :=
        if removed == 0 then d.(record := None)
        else if removed == 1 then d.(run := None)
        else d.(stop := None);
      RemoveFileKeeps(s, p, name, removed, left);
    }
  }

  lemma RemoveFileKeeps(s: State, p: Pid, name: Name, removed: nat, left: Dir)
    requires Inv(s) && ProcOf(s, p) == UnregisterRemove(name, removed) && name in s.dirs
    requires removed == 0 || removed == 1 || removed == 3
    requires var d := s.dirs[name];
      left == if removed == 0 then d.(record := None) else if removed == 1 then d.(run := None) else d.(stop := None)
    ensures Inv(Become(PutDir(s, name, left), p, UnregisterRemove(name, removed + 1)))
  {
    OwnFacts(s, p, name);
    WriteKeeps(s, p, name, left, UnregisterRemove(name, removed + 1));
  }

  /** The lock file goes while nobody holds it. */
  lemma RemoveLockKeeps(s: State, p: Pid, name: Name)
    requires Inv(s) && ProcOf(s, p) == UnregisterRemove(name, 2) && name in s.dirs
    ensures Inv(Become(PutDir(s, name, s.dirs[name].(lock := None)), p, UnregisterRemove(name, 3)))
  {
    OwnFacts(s, p, name);
    StepKeeps(s, Become(PutDir(s, name, s.dirs[name].(lock := None)), p, UnregisterRemove(name, 3)), p, name);
  }

  lemma RemoveDirKeeps(s: State, p: Pid, name: Name)
    requires Inv(s) && ProcOf(s, p) == UnregisterRemove(name, 4)
    ensures Inv(Become(s.(dirs := s.dirs - {name}), p, Leaving))
  {
    OwnFacts(s, p, name);
    StepKeeps(s, Become(s.(dirs := s.dirs - {name}), p, Leaving), p, name);
  }

  /** While another process holds the guard, whoever holds a lease is a supervisor. */
  lemma HolderSupervises(s: State, p: Pid, name: Name)
    requires Inv(s) && s.guard == Some(p) && LeaseOf(ProcOf(s, p)).None?
    requires name in s.dirs && !LeaseFree(s, name)
    ensures var holder := HolderRun(s, LockOf(s, name));
      holder.Some? && holder.value < s.nextRun
      && s.dirs[name].run.Some? && s.dirs[name].run.value.id == holder.value
  {
    var lock := LockOf(s, name);
    assert HeldOk(s, lock);
    var q := s.held[lock];
    assert LeaseOk(s, q) && SupOk(s, q);
    var other := LeaseOf(ProcOf(s, q)).value.first;
    assert OwnLock(s, name, other) && DirOk(s, name);
    assert !HoldsGuard(ProcOf(s, q));
  }

  lemma StatusKeeps(s: State, p: Pid, q: Proc, c: Choice)
    requires Inv(s) && ProcOf(s, p) == q
    requires q.StatusRecord? || q.StatusProbe? || q.StatusProbeDrop? || q.StatusRun? || q.StatusStop?
             || q.StatusDone? || q.StopWrite?
    ensures Inv(StepStatus(s, p, q, c))
  {
    if q.StatusProbe? || q.StatusProbeDrop? {
      LeaseProbeKeeps(s, p, q, c);
    } else if q.StopWrite? {
      StopWriteKeeps(s, p, q.name, q.target, c);
    } else {
      LookKeeps(s, p, q, c);
    }
  }

  lemma LeaseProbeKeeps(s: State, p: Pid, q: Proc, c: Choice)
    requires Inv(s) && ProcOf(s, p) == q && (q.StatusProbe? || q.StatusProbeDrop?)
    ensures Inv(StepStatus(s, p, q, c))
  {
    if q.StatusProbe? {
      TryKeeps(s, p, q.name, q.ask, q.record, c);
    } else {
      ProbeDropKeeps(s, p, q.name, q.ask, q.record, q.lock);
    }
  }

  lemma TryKeeps(s: State, p: Pid, name: Name, ask: Ask, record: Record, c: Choice)
    requires Inv(s) && ProcOf(s, p) == StatusProbe(name, ask, record)
    ensures Inv(StepStatus(s, p, StatusProbe(name, ask, record), c))
  {
    OwnFacts(s, p, name);
    if c.Fail? {
      MoveKeeps(s, p, Leaving);
    } else if LeaseFree(s, name) {
      TakeKeeps(s, p, name, StatusProbeDrop(name, ask, record, LockOf(s, name)));
    } else {
      ProbeKeeps(s, p, name, ask, record);
    }
  }

  lemma ProbeDropKeeps(s: State, p: Pid, name: Name, ask: Ask, record: Record, lock: LockFile)
    requires Inv(s) && ProcOf(s, p) == StatusProbeDrop(name, ask, record, lock)
    ensures Inv(Become(DropLease(s, lock), p, StatusRun(name, ask, record, false, None)))
  {
    OwnFacts(s, p, name);
    OwnLease(s, p, name, lock);
    DropKeeps(s, p, name, lock, StatusRun(name, ask, record, false, None));
  }

  lemma StopWriteKeeps(s: State, p: Pid, name: Name, target: RunId, c: Choice)
    requires Inv(s) && ProcOf(s, p) == StopWrite(name, target)
    ensures Inv(StepStatus(s, p, StopWrite(name, target), c))
  {
    OwnFacts(s, p, name);
    if c.Fail? {
      MoveKeeps(s, p, Leaving);
    } else {
      WriteKeeps(s, p, name, s.dirs[name].(stop := Some(target)), StatusRecord(name, StopAfter));
    }
  }

  /** The steps of a status that only read. */
  lemma LookKeeps(s: State, p: Pid, q: Proc, c: Choice)
    requires Inv(s) && ProcOf(s, p) == q
    requires q.StatusRecord? || q.StatusRun? || q.StatusStop? || q.StatusDone?
    ensures Inv(StepStatus(s, p, q, c))
  {
    if q.StatusRecord? {
      LookAtRecordKeeps(s, p, q.name, q.ask, c);
    } else if q.StatusDone? {
      DoneKeeps(s, p, q.name, q.ask, q.status, q.holder);
    } else if c.Fail? {
      OwnFacts(s, p, q.name);
      MoveKeeps(s, p, Leaving);
    } else if q.StatusRun? {
      LookAtRunKeeps(s, p, q.name, q.ask, q.record, q.active, q.holder);
    } else {
      ReportKeeps(s, p, q.name, q.ask, q.record, q.active, q.holder, q.last);
    }
  }

  lemma LookAtRecordKeeps(s: State, p: Pid, name: Name, ask: Ask, c: Choice)
    requires Inv(s) && ProcOf(s, p) == StatusRecord(name, ask)
    ensures Inv(StepStatus(s, p, StatusRecord(name, ask), c))
  {
    OwnFacts(s, p, name);
    if c.Fail? || name !in s.dirs || s.dirs[name].record.None? {
      MoveKeeps(s, p, Leaving);
    } else {
      MoveKeeps(s, p, StatusProbe(name, ask, s.dirs[name].record.value));
    }
  }

  lemma LookAtRunKeeps(s: State, p: Pid, name: Name, ask: Ask, record: Record, active: bool, holder: Option<RunId>)
    requires Inv(s) && ProcOf(s, p) == StatusRun(name, ask, record, active, holder)
    ensures Inv(StepStatus(s, p, StatusRun(name, ask, record, active, holder), Go))
  {
    OwnFacts(s, p, name);
    MoveKeeps(s, p, StatusStop(name, ask, record, active, holder, s.dirs[name].run));
  }

  lemma ReportKeeps(
      s: State, p: Pid, name: Name, ask: Ask, record: Record, active: bool, holder: Option<RunId>,
      last: Option<RunState>)
    requires Inv(s) && ProcOf(s, p) == StatusStop(name, ask, record, active, holder, last)
    ensures Inv(StepStatus(s, p, StatusStop(name, ask, record, active, holder, last), Go))
  {
    OwnFacts(s, p, name);
    MoveKeeps(s, p, StatusDone(name, ask, StatusOf(record, active, last, s.dirs[name].stop), holder));
  }

  lemma DoneKeeps(s: State, p: Pid, name: Name, ask: Ask, status: Status, holder: Option<RunId>)
    requires Inv(s) && ProcOf(s, p) == StatusDone(name, ask, status, holder)
    ensures Inv(StepStatus(s, p, StatusDone(name, ask, status, holder), Go))
  {
    OwnFacts(s, p, name);
    if ask != StopBefore {
      MoveKeeps(s, p, Leaving);
    } else if !status.active {
      MoveKeeps(s, p, StatusRecord(name, StopAfter));
    } else {
      MoveKeeps(s, p, StopWrite(name, status.run.value.id));
    }
  }

  /** A probe that finds the lease held learns whose run it is. */
  lemma ProbeKeeps(s: State, p: Pid, name: Name, ask: Ask, record: Record)
    requires Inv(s) && ProcOf(s, p) == StatusProbe(name, ask, record)
    requires name in s.dirs && !LeaseFree(s, name)
    ensures Inv(StepStatus(s, p, StatusProbe(name, ask, record), Go))
  {
    OwnFacts(s, p, name);
    HolderSupervises(s, p, name);
    MoveKeeps(s, p, StatusRun(name, ask, record, true, HolderRun(s, LockOf(s, name))));
  }

  lemma StartKeeps(s: State, p: Pid, q: Proc, c: Choice)
    requires Inv(s) && ProcOf(s, p) == q
    requires q.StartRecord? || q.StartLease? || q.StartWrite? || q.StartUndo? || q.StartLeave?
    ensures Inv(StepStart(s, p, q, c))
  {
    if q.StartRecord? || q.StartLease? {
      StartLeaseKeeps(s, p, q, c);
    } else if q.StartWrite? {
      StartWriteKeeps(s, p, q.name, q.record, q.lock, c);
    } else if q.StartUndo? {
      OwnFacts(s, p, q.name);
      DropKeeps(s, p, q.name, q.lock, Leaving);
    } else {
      OwnFacts(s, p, q.sup.name);
      SupMoveKeeps(s, p, q.sup, Supervising(q.sup), q.sup);
    }
  }

  lemma StartLeaseKeeps(s: State, p: Pid, q: Proc, c: Choice)
    requires Inv(s) && ProcOf(s, p) == q && (q.StartRecord? || q.StartLease?)
    ensures Inv(StepStart(s, p, q, c))
  {
    OwnFacts(s, p, q.name);
    if c.Fail? || q.name !in s.dirs {
      MoveKeeps(s, p, Leaving);
    } else if q.StartLease? && LeaseFree(s, q.name) {
      TakeKeeps(s, p, q.name, StartWrite(q.name, q.record, LockOf(s, q.name)));
    } else {
      StartReadKeeps(s, p, q);
    }
  }

  lemma StartReadKeeps(s: State, p: Pid, q: Proc)
    requires Inv(s) && ProcOf(s, p) == q && (q.StartRecord? || q.StartLease?) && q.name in s.dirs
    requires q.StartLease? ==> !LeaseFree(s, q.name)
    ensures Inv(StepStart(s, p, q, Go))
  {
    OwnFacts(s, p, q.name);
    if q.StartRecord? && s.dirs[q.name].record.Some? {
      MoveKeeps(s, p, StartLease(q.name, s.dirs[q.name].record.value));
    } else {
      MoveKeeps(s, p, Leaving);
    }
  }

  /** The run state of a new run replaces whatever the last run left. */
  lemma StartWriteKeeps(s: State, p: Pid, name: Name, record: Record, lock: LockFile, c: Choice)
    requires Inv(s) && ProcOf(s, p) == StartWrite(name, record, lock)
    ensures Inv(StepStart(s, p, StartWrite(name, record, lock), c))
  {
    OwnFacts(s, p, name);
    OwnLease(s, p, name, lock);
    if c.Fail? {
      LostRunIdKeeps(s, p, name, record, lock);
    } else {
      NewRunKeeps(s, p, name, record, lock);
    }
  }

  lemma LostRunIdKeeps(s: State, p: Pid, name: Name, record: Record, lock: LockFile)
    requires Inv(s) && ProcOf(s, p) == StartWrite(name, record, lock)
    ensures Inv(Become(s, p, StartUndo(name, lock)).(nextRun := s.nextRun + 1))
  {
    OwnFacts(s, p, name);
    StepKeeps(s, Become(s, p, StartUndo(name, lock)).(nextRun := s.nextRun + 1), p, name);
  }

  lemma NewRunKeeps(s: State, p: Pid, name: Name, record: Record, lock: LockFile)
    requires Inv(s) && ProcOf(s, p) == StartWrite(name, record, lock) && name in s.dirs
    requires s.dirs[name].lock == Some(lock) && lock in s.held && s.held[lock] == p
    ensures
      var run := RunState(s.nextRun, record.revision, Starting, false);
      var sup := Sup(name, lock, s.nextRun, record.revision, false, false);
      Inv(Become(PutDir(s, name, s.dirs[name].(run := Some(run))), p, StartLeave(sup)).(nextRun := s.nextRun + 1))
  {
    OwnFacts(s, p, name);
    var run := RunState(s.nextRun, record.revision, Starting, false);
    var sup := Sup(name, lock, s.nextRun, record.revision, false, false);
    var t := Become(PutDir(s, name, s.dirs[name].(run := Some(run))), p, StartLeave(sup)).(nextRun := s.nextRun + 1);
    assert HolderRun(t, lock) == Some(run.id);
    assert DirOk(t, name);
    StepKeeps(s, t, p, name);
  }

  /** A supervisor moves on, under the guard or leaving it, without writing. */
  lemma SupMoveKeeps(s: State, p: Pid, sup: Sup, q: Proc, after: Sup)
    requires Inv(s) && (s.guard.None? || s.guard == Some(p)) && SupOf(ProcOf(s, p)) == Some(sup)
    requires SupOf(q) == Some(after) && after.(started := sup.started, verified := sup.verified) == sup
    requires sup.name in s.dirs && s.dirs[sup.name].run.Some? ==> PhaseOk(q, after, s.dirs[sup.name].run.value)
    ensures Inv(Become(s, p, q).(guard := if HoldsGuard(q) then Some(p) else None))
  {
    var t := Become(s, p, q).(guard := if HoldsGuard(q) then Some(p) else None);
    OwnFacts(s, p, sup.name);
    assert LeaseOf(ProcOf(s, p)) == Some(Pair(sup.name, sup.lock)) == LeaseOf(q);
    StepKeeps(s, t, p, sup.name);
  }

  /** A step outside the guard leaves its holder's knowledge as it is. */
  lemma OutsideKeeps(s: State, t: State, p: Pid, name: Name)
    requires Inv(s) && !HoldsGuard(ProcOf(s, p)) && !HoldsGuard(ProcOf(t, p))
    requires t.dirs == s.dirs && t.guard == s.guard && t.held.Keys <= s.held.Keys
    requires Framed(s, t, p, name) && LockKept(s, t, name)
    requires LeaseOk(t, p) && SupOk(t, p) && DirOk(t, name) && OwnLocks(t, p)
    ensures Inv(t)
  {
    if s.guard.Some? {
      HolderKeeps(s, t, s.guard.value);
    }
    StepKeeps(s, t, p, name);
  }

  lemma SuperviseKeeps(s: State, p: Pid, sup: Sup, c: Choice)
    requires Inv(s) && ProcOf(s, p) == Supervising(sup)
    ensures Inv(StepSupervise(s, p, sup, c))
  {
    OwnFacts(s, p, sup.name);
    match c
    case Spawned =>
      if !sup.started {
        EventKeeps(s, p, sup, MarkStarted, s.sawStop);
      }
    case MarkerSeen =>
      if sup.started && !sup.verified {
        EventKeeps(s, p, sup, MarkVerified, s.sawStop);
      }
    case PollStop =>
      if sup.started && sup.name in s.dirs && s.dirs[sup.name].stop == Some(sup.run) {
        EventKeeps(s, p, sup, Finish(Report(true, sup.verified)), s.sawStop + {sup.run});
      }
    case End(outcome) =>
      if EventOk(sup, Finish(outcome)) {
        EventKeeps(s, p, sup, Finish(outcome), s.sawStop);
      }
    case _ =>
  }

  /** A supervisor turns to save an event, perhaps because it saw a stop request for its run. */
  lemma EventKeeps(s: State, p: Pid, sup: Sup, event: Edit, sawStop: set<RunId>)
    requires Inv(s) && ProcOf(s, p) == Supervising(sup) && EventOk(sup, event)
    ensures Inv(Become(s, p, SaveWait(sup, event)).(sawStop := sawStop))
  {
    var t := Become(s, p, SaveWait(sup, event)).(sawStop := sawStop);
    OwnFacts(s, p, sup.name);
    OutsideKeeps(s, t, p, sup.name);
  }

  lemma SaveKeeps(s: State, p: Pid, q: Proc, c: Choice)
    requires Inv(s) && ProcOf(s, p) == q
    requires q.SaveWait? || q.SaveRead? || q.SaveWrite? || q.SaveLeave? || q.Closing?
    ensures Inv(StepSave(s, p, q, c))
  {
    if q.SaveWait? {
      SaveWaitKeeps(s, p, q.sup, q.event, c);
    } else if q.SaveRead? {
      SaveReadKeeps(s, p, q.sup, q.event, c);
    } else if q.SaveWrite? {
      SaveWriteKeeps(s, p, q.sup, q.event, q.stored, c);
    } else if q.SaveLeave? {
      SaveLeaveKeeps(s, p, q.sup, q.event, q.saved, c);
    } else {
      ClosingKeeps(s, p, q.sup, q.saved, c);
    }
  }

  lemma SaveWaitKeeps(s: State, p: Pid, sup: Sup, event: Edit, c: Choice)
    requires Inv(s) && ProcOf(s, p) == SaveWait(sup, event)
    ensures Inv(StepSave(s, p, SaveWait(sup, event), c))
  {
    if c.Fail? {
      SaveFailsKeeps(s, p, sup, event);
    } else if s.guard.None? {
      SaveBeginsKeeps(s, p, sup, event);
    }
  }

  lemma SaveBeginsKeeps(s: State, p: Pid, sup: Sup, event: Edit)
    requires Inv(s) && ProcOf(s, p) == SaveWait(sup, event) && s.guard.None?
    ensures Inv(Become(s, p, SaveRead(sup, event)).(guard := Some(p)))
  {
    OwnFacts(s, p, sup.name);
    SupMoveKeeps(s, p, sup, SaveRead(sup, event), sup);
  }

  lemma SaveFailsKeeps(s: State, p: Pid, sup: Sup, event: Edit)
    requires Inv(s) && ProcOf(s, p) == SaveWait(sup, event)
    ensures Inv(Become(s, p, AfterSave(sup, event, false)))
  {
    OwnFacts(s, p, sup.name);
    OutsideKeeps(s, Become(s, p, AfterSave(sup, event, false)), p, sup.name);
  }

  /** Whenever a supervisor reads its run state under the guard, it finds its own run. */
  lemma SaveReadKeeps(s: State, p: Pid, sup: Sup, event: Edit, c: Choice)
    requires Inv(s) && ProcOf(s, p) == SaveRead(sup, event)
    ensures Inv(StepSave(s, p, SaveRead(sup, event), c))
  {
    if c.Fail? {
      ReadFailsKeeps(s, p, sup, event);
    } else {
      ReadFindsKeeps(s, p, sup, event);
    }
  }

  lemma ReadFindsKeeps(s: State, p: Pid, sup: Sup, event: Edit)
    requires Inv(s) && ProcOf(s, p) == SaveRead(sup, event)
    ensures sup.name in s.dirs && s.dirs[sup.name].run.Some? && s.dirs[sup.name].run.value.id == sup.run
    ensures s.guard == Some(p)
    ensures Inv(Become(s, p, SaveWrite(sup, event, s.dirs[sup.name].run.value)).(guard := Some(p)))
  {
    OwnFacts(s, p, sup.name);
    SupMoveKeeps(s, p, sup, SaveWrite(sup, event, s.dirs[sup.name].run.value), sup);
  }

  lemma ReadFailsKeeps(s: State, p: Pid, sup: Sup, event: Edit)
    requires Inv(s) && ProcOf(s, p) == SaveRead(sup, event)
    ensures Inv(Become(s, p, SaveLeave(sup, event, false)).(guard := Some(p)))
    ensures s.guard == Some(p)
  {
    OwnFacts(s, p, sup.name);
    SupMoveKeeps(s, p, sup, SaveLeave(sup, event, false), sup);
  }

  lemma SaveWriteKeeps(s: State, p: Pid, sup: Sup, event: Edit, stored: RunState, c: Choice)
    requires Inv(s) && ProcOf(s, p) == SaveWrite(sup, event, stored)
    ensures Inv(StepSave(s, p, SaveWrite(sup, event, stored), c))
  {
    OwnFacts(s, p, sup.name);
    OwnLease(s, p, sup.name, sup.lock);
    if c.Fail? {
      SupMoveKeeps(s, p, sup, SaveLeave(sup, event, false), sup);
    } else {
      EditKeeps(s, p, sup, event, stored);
    }
  }

  lemma EditedSaved(sup: Sup, event: Edit, stored: RunState)
    requires EventOk(sup, event) && Matches(sup, stored)
    ensures Saved(sup, event, Edited(stored, event))
    ensures Edited(stored, event).id == stored.id && Edited(stored, event).revision == stored.revision
    ensures Edited(stored, event).state in {Starting, Running, Stopped, Failed}
  {
  }

  lemma EditKeeps(s: State, p: Pid, sup: Sup, event: Edit, stored: RunState)
    requires Inv(s) && ProcOf(s, p) == SaveWrite(sup, event, stored) && sup.name in s.dirs
    requires s.dirs[sup.name].lock == Some(sup.lock) && sup.lock in s.held && s.held[sup.lock] == p
    ensures Inv(Become(PutDir(s, sup.name, s.dirs[sup.name].(run := Some(Edited(stored, event)))), p,
                       SaveLeave(sup, event, true)))
  {
    var r := Edited(stored, event);
    var t := Become(PutDir(s, sup.name, s.dirs[sup.name].(run := Some(r))), p, SaveLeave(sup, event, true));
    OwnFacts(s, p, sup.name);
    EditedSaved(sup, event, stored);
    assert HolderRun(t, sup.lock) == Some(sup.run);
    StepKeeps(s, t, p, sup.name);
  }

  lemma SaveLeaveKeeps(s: State, p: Pid, sup: Sup, event: Edit, saved: bool, c: Choice)
    requires Inv(s) && ProcOf(s, p) == SaveLeave(sup, event, saved)
    ensures Inv(StepSave(s, p, SaveLeave(sup, event, saved), c))
  {
    OwnFacts(s, p, sup.name);
    var q := AfterSave(sup, event, saved);
    SupMoveKeeps(s, p, sup, q, SupOf(q).value);
  }

  lemma ClosingKeeps(s: State, p: Pid, sup: Sup, saved: bool, c: Choice)
    requires Inv(s) && ProcOf(s, p) == Closing(sup, saved)
    ensures Inv(StepSave(s, p, Closing(sup, saved), c))
  {
    OwnFacts(s, p, sup.name);
    OwnLease(s, p, sup.name, sup.lock);
    OutsideKeeps(s, StepSave(s, p, Closing(sup, saved), c), p, sup.name);
  }

  lemma CrashKeeps(s: State, p: Pid)
    requires Inv(s)
    ensures Inv(CrashStep(s, p))
  {
    var t := CrashStep(s, p);
    var name := if LeaseOf(ProcOf(s, p)).Some? then LeaseOf(ProcOf(s, p)).value.first else "";
    OwnFacts(s, p, name);
    if s.guard.Some? && s.guard.value != p {
      HolderKeeps(s, t, s.guard.value);
    }
    StepKeeps(s, t, p, name);
  }

  /** Every step of every process keeps the invariant. */
  lemma EveryStepKeeps(s: State, p: Pid, c: Choice)
    requires Inv(s)
    ensures Inv(Step(s, p, c))
  {
    var q := ProcOf(s, p);
    if c.Crash? {
      CrashKeeps(s, p);
    } else if q.Idle? {
      IdleKeeps(s, p, c);
    } else if q.Waiting? {
      WaitingKeeps(s, p, q.op, c);
    } else if q.Supervising? {
      SuperviseKeeps(s, p, q.sup, c);
    } else if c.Go? || c.Fail? {
      GuardedKeeps(s, p, q, c);
    }
  }

  lemma GuardedKeeps(s: State, p: Pid, q: Proc, c: Choice)
    requires Inv(s) && ProcOf(s, p) == q && !q.Idle? && !q.Waiting? && !q.Supervising?
    ensures Inv(StepGuarded(s, p, q, c))
  {
    if q.Leaving? {
      OwnFacts(s, p, "");
      StepKeeps(s, Leave(s, p, Idle), p, "");
    } else if q.RegisterMkdir? || q.RegisterWrite? || q.RegisterUndo? {
      RegisterKeeps(s, p, q, c);
    } else if q.UpdateLease? || q.UpdateRead? || q.UpdateWrite? || q.UpdateDrop? {
      UpdateKeeps(s, p, q, c);
    } else {
      RunsAndStatusKeep(s, p, q, c);
    }
  }

  lemma RunsAndStatusKeep(s: State, p: Pid, q: Proc, c: Choice)
    requires Inv(s) && ProcOf(s, p) == q && !q.Idle? && !q.Waiting? && !q.Supervising? && !q.Leaving?
    requires !q.RegisterMkdir? && !q.RegisterWrite? && !q.RegisterUndo?
    requires !q.UpdateLease? && !q.UpdateRead? && !q.UpdateWrite? && !q.UpdateDrop?
    ensures Inv(StepGuarded(s, p, q, c))
  {
    if q.UnregisterLease? || q.UnregisterScan? || q.UnregisterDrop? || q.UnregisterRemove? {
      UnregisterKeeps(s, p, q, c);
    } else if q.StartRecord? || q.StartLease? || q.StartWrite? || q.StartUndo? || q.StartLeave? {
      StartKeeps(s, p, q, c);
    } else if q.SaveWait? || q.SaveRead? || q.SaveWrite? || q.SaveLeave? || q.Closing? {
      SaveKeeps(s, p, q, c);
    } else {
      StatusKeeps(s, p, q, c);
    }
  }

  /** Every reachable state, whatever the schedule, satisfies the invariant. */
  lemma {:induction false} Reachable(schedule: Schedule)
    ensures Inv(After(schedule))
  {
    if schedule == [] {
      InitKeeps();
    } else {
      var last := schedule[|schedule| - 1];
      Reachable(schedule[..|schedule| - 1]);
      EveryStepKeeps(After(schedule[..|schedule| - 1]), last.first, last.second);
    }
  }

  /** What holds at the end of a schedule and not at its beginning began with one of its steps. */
  lemma {:induction false} ItBegan(schedule: Schedule, p: State -> bool) returns (k: nat)
    requires !p(INIT) && p(After(schedule))
    ensures k < |schedule| && !p(After(schedule[..k]))
    ensures p(Step(After(schedule[..k]), schedule[k].first, schedule[k].second))
    decreases |schedule|
  {
    var before := schedule[..|schedule| - 1];
    if p(After(before)) {
      k := ItBegan(before, p);
      assert before[..k] == schedule[..k];
    } else {
      k := |before|;
    }
  }
}
