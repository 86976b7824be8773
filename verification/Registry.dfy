/** The managed-VM registry as a protocol between any number of processes. Shared state is the
    directory of each VM (profile, run state and stop request, each replaced atomically), the
    short-lived registry guard and one lease per VM, held as an exclusive lock on the file
    run.lock of its directory. A lock belongs to the file, not to its name: removing run.lock
    and creating it again makes a new, unlocked file. A step is one access to shared state, and
    any process can crash between two steps, which frees its locks. */
module Registry {
  import opened Wrappers
  import Records

  type Pid = nat
  type LockFile = nat
  type RunId = nat
  type Name = string

  // ---- Records ----------------------------------------------------------------------------

  type Record = Records.Record

  datatype VmState = Registered | Starting | Running | Stopping | Stopped | Failed | Interrupted

  datatype RunState = RunState(id: RunId, revision: nat, state: VmState, verified: bool)

  /** The managed files of one VM directory; stop holds the run id a stop request names. */
  datatype Dir = Dir(
    record: Option<Record>, run: Option<RunState>, lock: Option<LockFile>, stop: Option<RunId>)

  const EMPTY_DIR := Dir(None, None, None, None)

  datatype Status = Status(revision: nat, state: VmState, active: bool, run: Option<RunState>)

  // ---- Processes --------------------------------------------------------------------------

  /** A supervisor: the run it owns, and which events of it are already persisted. */
  datatype Sup = Sup(name: Name, lock: LockFile, run: RunId, revision: nat, started: bool, verified: bool)

  datatype Outcome = Report(success: bool, marker: bool) | Error

  datatype Edit = MarkStarted | MarkVerified | Finish(outcome: Outcome)

  /** Who wants a status: a status command, or a stop request before and after it writes. */
  datatype Ask = Plain | StopBefore | StopAfter

  /** A registration carries its first record; an update carries what it makes of the stored
      record, where None is a rejection. Names are directory names, in lower case. */
  datatype Op =
    | Register(name: Name, record: Record)
    | Update(name: Name, edit: Record -> Option<Record>)
    | Unregister(name: Name)
    | QueryStatus(name: Name)
    | RequestStop(name: Name, force: bool)
    | Start(name: Name)

  /** Where a process is. From RegisterMkdir to StartLeave and from SaveRead to SaveLeave it
      holds the guard. */
  datatype Proc =
    | Idle
    | Waiting(op: Op)
    | Leaving
    | RegisterMkdir(name: Name, record: Record)
    | RegisterWrite(name: Name, record: Record)
    | RegisterUndo(name: Name)
    | UpdateLease(name: Name, edit: Record -> Option<Record>)
    | UpdateRead(name: Name, lock: LockFile, edit: Record -> Option<Record>)
    | UpdateWrite(name: Name, lock: LockFile, edit: Record -> Option<Record>, record: Record)
    | UpdateDrop(name: Name, lock: LockFile)
    | UnregisterLease(name: Name)
    | UnregisterScan(name: Name, lock: LockFile)
    | UnregisterDrop(name: Name, lock: LockFile, remove: bool)
    | UnregisterRemove(name: Name, removed: nat)
    | StatusRecord(name: Name, ask: Ask)
    | StatusProbe(name: Name, ask: Ask, record: Record)
    | StatusProbeDrop(name: Name, ask: Ask, record: Record, lock: LockFile)
    | StatusRun(name: Name, ask: Ask, record: Record, active: bool, holder: Option<RunId>)
    | StatusStop(name: Name, ask: Ask, record: Record, active: bool, holder: Option<RunId>, last: Option<RunState>)
    | StatusDone(name: Name, ask: Ask, status: Status, holder: Option<RunId>)
    | StopWrite(name: Name, target: RunId)
    | StartRecord(name: Name)
    | StartLease(name: Name, record: Record)
    | StartWrite(name: Name, record: Record, lock: LockFile)
    | StartUndo(name: Name, lock: LockFile)
    | StartLeave(sup: Sup)
    | Supervising(sup: Sup)
    | SaveWait(sup: Sup, event: Edit)
    | SaveRead(sup: Sup, event: Edit)
    | SaveWrite(sup: Sup, event: Edit, stored: RunState)
    | SaveLeave(sup: Sup, event: Edit, saved: bool)
    | Closing(sup: Sup, saved: bool)

  predicate HoldsGuard(q: Proc) {
    match q
    case Idle | Waiting(_) | Supervising(_) | SaveWait(_, _) | Closing(_, _) => false
    case _ => true
  }

  /** The run a process supervises. */
  function SupOf(q: Proc): Option<Sup> {
    match q
    case StartLeave(sup) => Some(sup)
    case Supervising(sup) => Some(sup)
    case SaveWait(sup, _) => Some(sup)
    case SaveRead(sup, _) => Some(sup)
    case SaveWrite(sup, _, _) => Some(sup)
    case SaveLeave(sup, _, _) => Some(sup)
    case Closing(sup, _) => Some(sup)
    case _ => None
  }

  /** The lease a process holds: the VM and the lock file. */
  function LeaseOf(q: Proc): Option<Pair<Name, LockFile>> {
    match q
    case UpdateRead(name, lock, _) => Some(Pair(name, lock))
    case UpdateWrite(name, lock, _, _) => Some(Pair(name, lock))
    case UpdateDrop(name, lock) => Some(Pair(name, lock))
    case UnregisterScan(name, lock) => Some(Pair(name, lock))
    case UnregisterDrop(name, lock, _) => Some(Pair(name, lock))
    case StatusProbeDrop(name, _, _, lock) => Some(Pair(name, lock))
    case StartWrite(name, _, lock) => Some(Pair(name, lock))
    case StartUndo(name, lock) => Some(Pair(name, lock))
    case _ => if SupOf(q).Some? then Some(Pair(SupOf(q).value.name, SupOf(q).value.lock)) else None
  }

  /** The shared state, the processes, and what has happened so far: the runs that saw a stop
      request, and the runs whose supervisor was lost before it saved their end. */
  datatype State = State(
    dirs: map<Name, Dir>, guard: Option<Pid>, held: map<LockFile, Pid>, procs: map<Pid, Proc>,
    nextLock: LockFile, nextRun: RunId,
    sawStop: set<RunId>, lost: set<RunId>)

  const INIT := State(map[], None, map[], map[], 0, 0, {}, {})

  function ProcOf(s: State, p: Pid): Proc {
    if p in s.procs then s.procs[p] else Idle
  }

  /** What the scheduler and the environment decide in one step. Go is the step that succeeds,
      Fail the same step failing on I/O or on a lock that stays busy. */
  datatype Choice =
    | Begin(op: Op)
    | Go
    | Fail
    | Spawned
    | MarkerSeen
    | PollStop
    | End(outcome: Outcome)
    | Crash

  // ---- Steps ------------------------------------------------------------------------------

  function Become(s: State, p: Pid, q: Proc): State {
    s.(procs := s.procs[p := q])
  }

  function PutDir(s: State, name: Name, d: Dir): State {
    s.(dirs := s.dirs[name := d])
  }

  function DropLease(s: State, lock: LockFile): State {
    s.(held := s.held - {lock})
  }

  /** Leave the guard for good. */
  function Leave(s: State, p: Pid, q: Proc): State {
    Become(s, p, q).(guard := None)
  }

  /** Create run.lock if it is missing. */
  function OpenLock(s: State, name: Name): State
    requires name in s.dirs
  {
    if s.dirs[name].lock.Some? then s else
      PutDir(s, name, s.dirs[name].(lock := Some(s.nextLock))).(nextLock := s.nextLock + 1)
  }

  function LockOf(s: State, name: Name): LockFile
    requires name in s.dirs
  {
    s.dirs[name].lock.GetOr(s.nextLock)
  }

  /** Try the lease of a VM: true when this process now holds it. It never waits. */
  predicate LeaseFree(s: State, name: Name)
    requires name in s.dirs
  {
    LockOf(s, name) !in s.held
  }

  function TakeLease(s: State, p: Pid, name: Name): State
    requires name in s.dirs
  {
    var o := OpenLock(s, name);
    o.(held := o.held[LockOf(s, name) := p])
  }

  /** The run that the holder of a lock file supervises. */
  function HolderRun(s: State, lock: LockFile): Option<RunId> {
    if lock !in s.held then None else
      var sup := SupOf(ProcOf(s, s.held[lock]));
      if sup.Some? then Some(sup.value.run) else None
  }

  function Enter(op: Op): Proc {
    match op
    case Register(name, record) => RegisterMkdir(name, record)
    case Update(name, edit) => UpdateLease(name, edit)
    case Unregister(name) => UnregisterLease(name)
    case QueryStatus(name) => StatusRecord(name, Plain)
    case RequestStop(name, _) => StatusRecord(name, StopBefore)
    case Start(name) => StartRecord(name)
  }

  function StepIdle(s: State, p: Pid, c: Choice): State {
    match c
    case Begin(op) => if op.RequestStop? && !op.force then s else Become(s, p, Waiting(op))
    case _ => s
  }

  /** Waiting for the guard: take it when it is free, give up when it stays busy. */
  function StepWaiting(s: State, p: Pid, op: Op, c: Choice): State {
    match c
    case Go => if s.guard.None? then Become(s, p, Enter(op)).(guard := Some(p)) else s
    case Fail => Become(s, p, Idle)
    case _ => s
  }

  function StepRegister(s: State, p: Pid, q: Proc, c: Choice): State
    requires q.RegisterMkdir? || q.RegisterWrite? || q.RegisterUndo?
  {
    match q
    case RegisterMkdir(name, record) =>
      if c.Fail? || name in s.dirs then Become(s, p, Leaving)
      else Become(PutDir(s, name, EMPTY_DIR), p, RegisterWrite(name, record))
    case RegisterWrite(name, record) =>
      if c.Fail? || name !in s.dirs then Become(s, p, RegisterUndo(name))
      else Become(PutDir(s, name, s.dirs[name].(record := Some(record))), p, Leaving)
    case RegisterUndo(name) =>
      Become(if c.Fail? then s else s.(dirs := s.dirs - {name}), p, Leaving)
  }

  function StepUpdate(s: State, p: Pid, q: Proc, c: Choice): State
    requires q.UpdateLease? || q.UpdateRead? || q.UpdateWrite? || q.UpdateDrop?
  {
    match q
    case UpdateLease(name, edit) =>
      if c.Fail? || name !in s.dirs then Become(s, p, Leaving)
      else if !LeaseFree(s, name) then Become(s, p, Leaving)
      else Become(TakeLease(s, p, name), p, UpdateRead(name, LockOf(s, name), edit))
    case UpdateRead(name, lock, edit) =>
      if c.Fail? || name !in s.dirs || s.dirs[name].record.None? then Become(s, p, UpdateDrop(name, lock))
      else
        var record := edit(s.dirs[name].record.value);
        if record.None? then Become(s, p, UpdateDrop(name, lock))
        else Become(s, p, UpdateWrite(name, lock, edit, record.value))
    case UpdateWrite(name, lock, _, record) =>
      if c.Fail? || name !in s.dirs then Become(s, p, UpdateDrop(name, lock))
      else Become(PutDir(s, name, s.dirs[name].(record := Some(record))), p, UpdateDrop(name, lock))
    case UpdateDrop(name, lock) => Become(DropLease(s, lock), p, Leaving)
  }

  const REMOVALS := 5

  /** Remove the managed files one by one, in the order profile, run state, lock, stop request,
      and then the directory. */
  function RemoveFile(s: State, name: Name, removed: nat): State
    requires name in s.dirs && removed < REMOVALS
  {
    var d := s.dirs[name];
    if removed == 0 then PutDir(s, name, d.(record := None))
    else if removed == 1 then PutDir(s, name, d.(run := None))
    else if removed == 2 then PutDir(s, name, d.(lock := None))
    else if removed == 3 then PutDir(s, name, d.(stop := None))
    else s.(dirs := s.dirs - {name})
  }

  function StepUnregister(s: State, p: Pid, q: Proc, c: Choice): State
    requires q.UnregisterLease? || q.UnregisterScan? || q.UnregisterDrop? || q.UnregisterRemove?
  {
    match q
    case UnregisterLease(name) =>
      if c.Fail? || name !in s.dirs then Become(s, p, Leaving)
      else if !LeaseFree(s, name) then Become(s, p, Leaving)
      else Become(TakeLease(s, p, name), p, UnregisterScan(name, LockOf(s, name)))
    case UnregisterScan(name, lock) => Become(s, p, UnregisterDrop(name, lock, !c.Fail?))
    case UnregisterDrop(name, lock, remove) =>
      Become(DropLease(s, lock), p, if remove then UnregisterRemove(name, 0) else Leaving)
    case UnregisterRemove(name, removed) =>
      if c.Fail? || name !in s.dirs || removed >= REMOVALS then Become(s, p, Leaving)
      else Become(RemoveFile(s, name, removed), p,
                  if removed + 1 < REMOVALS then UnregisterRemove(name, removed + 1) else Leaving)
  }

  /** The state a status reports, and the run state it shows. */
  function Classify(active: bool, run: Option<RunState>, stop: Option<RunId>): Pair<VmState, Option<RunState>> {
    match run
    case None => Pair(if active then Starting else Registered, None)
    case Some(r) =>
      if active then
        Pair(if stop == Some(r.id) || r.state in {Stopped, Failed} then Stopping else r.state, run)
      else if r.state in {Starting, Running, Stopping} then
        Pair(Interrupted, Some(r.(state := Interrupted)))
      else Pair(r.state, run)
  }

  function StatusOf(record: Record, active: bool, run: Option<RunState>, stop: Option<RunId>): Status {
    var c := Classify(active, run, stop);
    Status(record.revision, c.first, active, c.second)
  }

  /** The lease is probed by trying it; a probe that gets it gives it back at once. */
  function StepStatus(s: State, p: Pid, q: Proc, c: Choice): State
    requires q.StatusRecord? || q.StatusProbe? || q.StatusProbeDrop? || q.StatusRun? || q.StatusStop?
             || q.StatusDone? || q.StopWrite?
  {
    match q
    case StatusRecord(name, ask) =>
      if c.Fail? || name !in s.dirs || s.dirs[name].record.None? then Become(s, p, Leaving)
      else Become(s, p, StatusProbe(name, ask, s.dirs[name].record.value))
    case StatusProbe(name, ask, record) =>
      if c.Fail? || name !in s.dirs then Become(s, p, Leaving)
      else if LeaseFree(s, name) then
        Become(TakeLease(s, p, name), p, StatusProbeDrop(name, ask, record, LockOf(s, name)))
      else
        Become(s, p, StatusRun(name, ask, record, true, HolderRun(s, LockOf(s, name))))
    case StatusProbeDrop(name, ask, record, lock) =>
      Become(DropLease(s, lock), p, StatusRun(name, ask, record, false, None))
    case StatusRun(name, ask, record, active, holder) =>
      if c.Fail? || name !in s.dirs then Become(s, p, Leaving)
      else Become(s, p, StatusStop(name, ask, record, active, holder, s.dirs[name].run))
    case StatusStop(name, ask, record, active, holder, run) =>
      if c.Fail? || name !in s.dirs then Become(s, p, Leaving)
      else Become(s, p, StatusDone(name, ask, StatusOf(record, active, run, s.dirs[name].stop), holder))
    case StatusDone(name, ask, status, holder) =>
      if ask != StopBefore then Become(s, p, Leaving)
      else if !status.active then Become(s, p, StatusRecord(name, StopAfter))
      else if status.run.None? then Become(s, p, Leaving)
      else Become(s, p, StopWrite(name, status.run.value.id))
    case StopWrite(name, run) =>
      if c.Fail? || name !in s.dirs then Become(s, p, Leaving)
      else Become(PutDir(s, name, s.dirs[name].(stop := Some(run))), p, StatusRecord(name, StopAfter))
  }

  function StepStart(s: State, p: Pid, q: Proc, c: Choice): State
    requires q.StartRecord? || q.StartLease? || q.StartWrite? || q.StartUndo? || q.StartLeave?
  {
    match q
    case StartRecord(name) =>
      if c.Fail? || name !in s.dirs || s.dirs[name].record.None? then Become(s, p, Leaving)
      else Become(s, p, StartLease(name, s.dirs[name].record.value))
    case StartLease(name, record) =>
      if c.Fail? || name !in s.dirs then Become(s, p, Leaving)
      else if !LeaseFree(s, name) then Become(s, p, Leaving)
      else Become(TakeLease(s, p, name), p, StartWrite(name, record, LockOf(s, name)))
    case StartWrite(name, record, lock) =>
      if c.Fail? || name !in s.dirs then Become(s, p, StartUndo(name, lock)).(nextRun := s.nextRun + 1)
      else
        var run := RunState(s.nextRun, record.revision, Starting, false);
        Become(PutDir(s, name, s.dirs[name].(run := Some(run))), p,
               StartLeave(Sup(name, lock, s.nextRun, record.revision, false, false)))
          .(nextRun := s.nextRun + 1)
    case StartUndo(name, lock) => Become(DropLease(s, lock), p, Leaving)
    case StartLeave(sup) => Leave(s, p, Supervising(sup))
  }

  /** The runtime runs. It is spawned once; after that the marker may be seen, the stop request
      polled, and the run ends. A run that reports has been started, and its report shows the
      marker if the marker was announced. */
  function StepSupervise(s: State, p: Pid, sup: Sup, c: Choice): State {
    match c
    case Spawned => if sup.started then s else Become(s, p, SaveWait(sup, MarkStarted))
    case MarkerSeen => if !sup.started || sup.verified then s else Become(s, p, SaveWait(sup, MarkVerified))
    case PollStop =>
      if sup.started && sup.name in s.dirs && s.dirs[sup.name].stop == Some(sup.run)
      then Become(s, p, SaveWait(sup, Finish(Report(true, sup.verified)))).(sawStop := s.sawStop + {sup.run})
      else s
    case End(outcome) =>
      if outcome.Report? && (!sup.started || (sup.verified && !outcome.marker)) then s
      else Become(s, p, SaveWait(sup, Finish(outcome)))
    case _ => s
  }

  function Edited(r: RunState, edit: Edit): RunState {
    match edit
    case MarkStarted => r.(state := Running)
    case MarkVerified => r.(verified := true)
    case Finish(Report(success, marker)) => r.(state := if success then Stopped else Failed, verified := marker)
    case Finish(Error) => r.(state := Failed)
  }

  /** What follows a save. A start or marker event that could not be saved ends the run. */
  function AfterSave(sup: Sup, edit: Edit, saved: bool): Proc {
    match edit
    case Finish(_) => Closing(sup, saved)
    case MarkStarted => if saved then Supervising(sup.(started := true)) else SaveWait(sup, Finish(Error))
    case MarkVerified => if saved then Supervising(sup.(verified := true)) else SaveWait(sup, Finish(Error))
  }

  function StepSave(s: State, p: Pid, q: Proc, c: Choice): State
    requires q.SaveWait? || q.SaveRead? || q.SaveWrite? || q.SaveLeave? || q.Closing?
  {
    match q
    case SaveWait(sup, edit) =>
      if c.Fail? then Become(s, p, AfterSave(sup, edit, false))
      else if s.guard.None? then Become(s, p, SaveRead(sup, edit)).(guard := Some(p))
      else s
    case SaveRead(sup, edit) =>
      if c.Fail? || sup.name !in s.dirs || s.dirs[sup.name].run.None? || s.dirs[sup.name].run.value.id != sup.run
      then Become(s, p, SaveLeave(sup, edit, false))
      else Become(s, p, SaveWrite(sup, edit, s.dirs[sup.name].run.value))
    case SaveWrite(sup, edit, run) =>
      if c.Fail? || sup.name !in s.dirs then Become(s, p, SaveLeave(sup, edit, false))
      else Become(PutDir(s, sup.name, s.dirs[sup.name].(run := Some(Edited(run, edit)))), p, SaveLeave(sup, edit, true))
    case SaveLeave(sup, edit, saved) => Leave(s, p, AfterSave(sup, edit, saved))
    case Closing(sup, saved) =>
      Become(DropLease(s, sup.lock), p, Idle).(lost := s.lost + (if saved then {} else {sup.run}))
  }

  /** The end of the process's run is on disk. */
  predicate EndSaved(q: Proc) {
    match q
    case SaveLeave(_, event, saved) => event.Finish? && saved
    case Closing(_, saved) => saved
    case _ => false
  }

  /** A crash frees every lock of the process. */
  function CrashStep(s: State, p: Pid): State {
    var q := ProcOf(s, p);
    var sup := SupOf(q);
    s.(procs := s.procs - {p},
       guard := if s.guard == Some(p) then None else s.guard,
       held := if LeaseOf(q).Some? then s.held - {LeaseOf(q).value.second} else s.held,
       lost := s.lost + (if sup.Some? && !EndSaved(q) then {sup.value.run} else {}))
  }

  /** One step of process p. A step that is not possible changes nothing. */
  function Step(s: State, p: Pid, c: Choice): State {
    var q := ProcOf(s, p);
    if c.Crash? then CrashStep(s, p)
    else match q
      case Idle => StepIdle(s, p, c)
      case Waiting(op) => StepWaiting(s, p, op, c)
      case Supervising(sup) => StepSupervise(s, p, sup, c)
      case _ => if !c.Go? && !c.Fail? then s else StepGuarded(s, p, q, c)
  }

  function StepGuarded(s: State, p: Pid, q: Proc, c: Choice): State
    requires !q.Idle? && !q.Waiting? && !q.Supervising?
  {
    if q.Leaving? then Leave(s, p, Idle)
    else if q.RegisterMkdir? || q.RegisterWrite? || q.RegisterUndo? then StepRegister(s, p, q, c)
    else if q.UpdateLease? || q.UpdateRead? || q.UpdateWrite? || q.UpdateDrop? then StepUpdate(s, p, q, c)
    else if q.UnregisterLease? || q.UnregisterScan? || q.UnregisterDrop? || q.UnregisterRemove? then
      StepUnregister(s, p, q, c)
    else if q.StartRecord? || q.StartLease? || q.StartWrite? || q.StartUndo? || q.StartLeave? then
      StepStart(s, p, q, c)
    else if q.SaveWait? || q.SaveRead? || q.SaveWrite? || q.SaveLeave? || q.Closing? then StepSave(s, p, q, c)
    else StepStatus(s, p, q, c)
  }

  /** A schedule: which process steps, and how. */
  type Schedule = seq<Pair<Pid, Choice>>

  function After(schedule: Schedule): State {
    if schedule == [] then INIT else
      var last := schedule[|schedule| - 1];
      Step(After(schedule[..|schedule| - 1]), last.first, last.second)
  }
}
