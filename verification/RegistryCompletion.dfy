/** What the operations of the registry achieve, whatever the other processes do meanwhile: an
    operation that has the guard and whose own steps do not fail leaves the guard with its work
    on disk. A forced stop writes its request, and the request stays until the supervisor it
    names has seen it and saved the run as stopped. */
module RegistryCompletion {
  import opened Wrappers
  import opened Registry
  import opened RegistryInvariant
  import opened RegistrySafety
  import opened RegistryStops
  import opened RegistryProgress

  // ---- An operation and its course --------------------------------------------------------

  type Fact = State -> bool

  /** The processes who neither crash nor have an access fail in this step. */
  predicate Unfailing(who: set<Pid>, p: Pid, c: Choice) {
    p in who ==> !c.Fail? && !c.Crash?
  }

  predicate NoFailures(schedule: Schedule, who: set<Pid>) {
    forall i | 0 <= i < |schedule| :: Unfailing(who, schedule[i].first, schedule[i].second)
  }

  /** p still holds the guard and the fact on holds, or it has left the guard and achieved goal. */
  predicate Carried(t: State, p: Pid, on: Fact, goal: Fact) {
    if t.guard == Some(p) then on(t) else t.guard.None? && goal(t)
  }

  /** While p holds the guard and on holds, every step carries on. */
  ghost predicate Carries(who: set<Pid>, p: Pid, on: Fact, goal: Fact) {
    forall s: State, q: Pid, c: Choice | Inv(s) && s.guard == Some(p) && on(s) && Unfailing(who, q, c) ::
      Carried(Step(s, q, c), p, on, goal)
  }

  predicate HeldAfter(s: State, more: Schedule, k: nat, p: Pid)
    requires k <= |more|
  {
    Run(s, more[..k]).guard == Some(p)
  }

  /** p leaves the guard with step k, and then goal is true. */
  ghost predicate LeavesWith(s: State, more: Schedule, k: nat, p: Pid, goal: Fact) {
    && 0 < k <= |more| && (forall i | 0 <= i < k :: HeldAfter(s, more, i, p))
    && Run(s, more[..k]).guard.None? && goal(Run(s, more[..k]))
  }

  ghost predicate Achieves(s: State, more: Schedule, p: Pid, goal: Fact) {
    exists k: nat :: LeavesWith(s, more, k, p, goal)
  }

  lemma {:induction false} CourseGoesOn(s: State, more: Schedule, who: set<Pid>, p: Pid, on: Fact, goal: Fact)
    requires Inv(s) && s.guard == Some(p) && on(s) && Carries(who, p, on, goal) && NoFailures(more, who)
    requires !Achieves(s, more, p, goal)
    ensures Inv(Run(s, more)) && on(Run(s, more)) && forall i | 0 <= i <= |more| :: HeldAfter(s, more, i, p)
  {
    if more == [] {
      assert more[..0] == more;
    } else {
      var before := more[..|more| - 1];
      forall k: nat ensures !LeavesWith(s, before, k, p, goal) {
        if LeavesWith(s, before, k, p, goal) {
          LeavesLater(s, before, more, k, p, goal);
        }
      }
      CourseGoesOn(s, before, who, p, on, goal);
      assert before[..|before|] == before && HeldAfter(s, before, |before|, p);
      LastStepCarries(s, before, more, who, p, on, goal);
      HeldLonger(s, before, more, p, goal);
    }
  }

  lemma LastStepCarries(
    s: State, before: Schedule, more: Schedule, who: set<Pid>, p: Pid, on: Fact, goal: Fact)
    requires more != [] && before == more[..|more| - 1] && Carries(who, p, on, goal) && NoFailures(more, who)
    requires Inv(Run(s, before)) && on(Run(s, before)) && Run(s, before).guard == Some(p)
    ensures Inv(Run(s, more)) && Carried(Run(s, more), p, on, goal)
  {
    var last := more[|more| - 1];
    EveryStepKeeps(Run(s, before), last.first, last.second);
    assert Unfailing(who, last.first, last.second);
  }

  lemma HeldLonger(s: State, before: Schedule, more: Schedule, p: Pid, goal: Fact)
    requires more != [] && before == more[..|more| - 1]
    requires forall i | 0 <= i <= |before| :: HeldAfter(s, before, i, p)
    requires !Achieves(s, more, p, goal)
    requires Run(s, more).guard == Some(p) || (Run(s, more).guard.None? && goal(Run(s, more)))
    ensures Run(s, more).guard == Some(p) && forall i | 0 <= i <= |more| :: HeldAfter(s, more, i, p)
  {
    forall i | 0 <= i < |more| ensures HeldAfter(s, more, i, p) {
      assert before[..i] == more[..i] && HeldAfter(s, before, i, p);
    }
    assert more[..|more|] == more;
    assert !LeavesWith(s, more, |more|, p, goal);
  }

  lemma LeavesLater(s: State, before: Schedule, more: Schedule, k: nat, p: Pid, goal: Fact)
    requires |before| <= |more| && before == more[..|before|] && LeavesWith(s, before, k, p, goal)
    ensures LeavesWith(s, more, k, p, goal)
  {
    assert before[..k] == more[..k];
    forall i | 0 <= i < k ensures HeldAfter(s, more, i, p) {
      assert before[..i] == more[..i] && HeldAfter(s, before, i, p);
    }
  }

  /** Given fourteen steps, the holder of the guard achieves what its steps carry on to. */
  lemma CourseEnds(s: State, more: Schedule, who: set<Pid>, p: Pid, on: Fact, goal: Fact)
    requires Inv(s) && s.guard == Some(p) && on(s) && Carries(who, p, on, goal) && NoFailures(more, who)
    requires LONGEST_HOLD <= OwnMoves(more, p)
    ensures Achieves(s, more, p, goal)
  {
    if !Achieves(s, more, p, goal) {
      CourseGoesOn(s, more, who, p, on, goal);
      HoldEnds(s, p, more);
      var k: nat :| GuardFreeAfter(s, more, k);
      GuardNotFree(s, more, k, p);
    }
  }

  lemma GuardNotFree(s: State, more: Schedule, k: nat, p: Pid)
    requires k <= |more| && HeldAfter(s, more, k, p)
    ensures !GuardFreeAfter(s, more, k)
  {
  }

  // ---- Whose steps matter -----------------------------------------------------------------

  /** What the others leave alone while p holds the guard: they change no directory, and free
      leases at most. */
  ghost predicate Undisturbed(s: State, t: State, p: Pid) {
    && t.guard == s.guard && ProcOf(t, p) == ProcOf(s, p)
    && t.dirs == s.dirs && t.nextLock == s.nextLock && t.held.Keys <= s.held.Keys
  }

  lemma OthersLeaveDirs(s: State, p: Pid, other: Pid, c: Choice)
    requires Inv(s) && s.guard == Some(p) && other != p
    ensures Undisturbed(s, Step(s, other, c), p)
  {
    OthersDoNotInterfere(s, p, other, c);
    FreeStepLeavesDirs(s, other, c);
  }

  lemma FreeStepLeavesDirs(s: State, p: Pid, c: Choice)
    requires Inv(s) && !HoldsGuard(ProcOf(s, p)) && s.guard.Some?
    ensures var t := Step(s, p, c); t.dirs == s.dirs && t.nextLock == s.nextLock && t.held.Keys <= s.held.Keys
  {
  }

  /** Other choices than a success, a failure and a crash do not move the holder of the guard. */
  lemma HolderGoesOrStays(s: State, p: Pid, c: Choice)
    requires Inv(s) && s.guard == Some(p) && !c.Fail? && !c.Crash?
    ensures Step(s, p, c) == s || Step(s, p, c) == Step(s, p, Go)
  {
    assert HoldsGuard(ProcOf(s, p));
  }

  /** For an operation that needs nobody else, its own steps are enough. */
  lemma CarriesAlone(p: Pid, on: Fact, goal: Fact)
    requires forall s: State | Inv(s) && s.guard == Some(p) && on(s) :: Carried(Step(s, p, Go), p, on, goal)
    requires forall s: State, t: State | Inv(s) && on(s) && Undisturbed(s, t, p) :: on(t)
    ensures Carries({p}, p, on, goal)
  {
    forall s: State, q: Pid, c: Choice | Inv(s) && s.guard == Some(p) && on(s) && Unfailing({p}, q, c)
      ensures Carried(Step(s, q, c), p, on, goal)
    {
      if q == p {
        HolderGoesOrStays(s, p, c);
      } else {
        OthersLeaveDirs(s, p, q, c);
      }
    }
  }

  // ---- Registration, update, removal and start --------------------------------------------

  predicate Stores(s: State, name: Name, record: Record) {
    name in s.dirs && s.dirs[name].record == Some(record)
  }

  ghost predicate Registering(s: State, p: Pid, name: Name, record: Record) {
    var q := ProcOf(s, p);
    || (q == RegisterMkdir(name, record) && name !in s.dirs)
    || (q == RegisterWrite(name, record) && name in s.dirs)
    || (q.Leaving? && Stores(s, name, record))
  }

  lemma RegisteringGoes(s: State, p: Pid, name: Name, record: Record)
    requires Inv(s) && s.guard == Some(p) && Registering(s, p, name, record)
    ensures Carried(Step(s, p, Go), p,
      (t: State) => Registering(t, p, name, record), (t: State) => Stores(t, name, record))
  {
  }

  /** A registration of a new name stores its record. */
  lemma RegistrationStores(history: Schedule, more: Schedule, p: Pid, name: Name, record: Record)
    requires After(history).guard == Some(p) && ProcOf(After(history), p) == RegisterMkdir(name, record)
    requires name !in After(history).dirs && NoFailures(more, {p}) && LONGEST_HOLD <= OwnMoves(more, p)
    ensures Achieves(After(history), more, p, (s: State) => Stores(s, name, record))
  {
    var on, goal := (s: State) => Registering(s, p, name, record), (s: State) => Stores(s, name, record);
    Reachable(history);
    forall s: State | Inv(s) && s.guard == Some(p) && on(s) ensures Carried(Step(s, p, Go), p, on, goal) {
      RegisteringGoes(s, p, name, record);
    }
    CarriesAlone(p, on, goal);
    CourseEnds(After(history), more, {p}, p, on, goal);
  }

  /** Nobody holds the lease of name, so trying it succeeds. */
  predicate LeaseCanBeHad(s: State, name: Name) {
    name in s.dirs && LeaseFree(s, name)
  }

  lemma LeaseStaysFree(s: State, t: State, p: Pid, name: Name)
    requires LeaseCanBeHad(s, name) && Undisturbed(s, t, p)
    ensures LeaseCanBeHad(t, name)
  {
  }

  ghost predicate Updating(s: State, p: Pid, name: Name, edit: Record -> Option<Record>, record: Record) {
    var q := ProcOf(s, p);
    || (q == UpdateLease(name, edit) && LeaseCanBeHad(s, name)
        && s.dirs[name].record.Some? && edit(s.dirs[name].record.value) == Some(record))
    || (q.UpdateRead? && q.name == name && q.edit == edit
        && name in s.dirs && s.dirs[name].record.Some? && edit(s.dirs[name].record.value) == Some(record))
    || (q.UpdateWrite? && q.name == name && q.record == record && name in s.dirs)
    || ((q.UpdateDrop? || q.Leaving?) && Stores(s, name, record))
  }

  lemma UpdatingGoes(s: State, p: Pid, name: Name, edit: Record -> Option<Record>, record: Record)
    requires Inv(s) && s.guard == Some(p) && Updating(s, p, name, edit, record)
    ensures Carried(Step(s, p, Go), p,
      (t: State) => Updating(t, p, name, edit, record), (t: State) => Stores(t, name, record))
  {
  }

  /** An update that accepts the stored record, of a VM whose lease is free, stores what it makes
      of it. */
  lemma UpdateStores(
    history: Schedule, more: Schedule, p: Pid, name: Name, edit: Record -> Option<Record>, record: Record)
    requires After(history).guard == Some(p) && ProcOf(After(history), p) == UpdateLease(name, edit)
    requires LeaseCanBeHad(After(history), name) && After(history).dirs[name].record.Some?
    requires edit(After(history).dirs[name].record.value) == Some(record)
    requires NoFailures(more, {p}) && LONGEST_HOLD <= OwnMoves(more, p)
    ensures Achieves(After(history), more, p, (s: State) => Stores(s, name, record))
  {
    var on := (s: State) => Updating(s, p, name, edit, record);
    var goal := (s: State) => Stores(s, name, record);
    Reachable(history);
    forall s: State | Inv(s) && s.guard == Some(p) && on(s) ensures Carried(Step(s, p, Go), p, on, goal) {
      UpdatingGoes(s, p, name, edit, record);
    }
    CarriesAlone(p, on, goal);
    CourseEnds(After(history), more, {p}, p, on, goal);
  }

  ghost predicate Removing(s: State, p: Pid, name: Name) {
    match ProcOf(s, p)
    case UnregisterLease(n) => n == name && LeaseCanBeHad(s, name)
    case UnregisterScan(n, _) => n == name && name in s.dirs
    case UnregisterDrop(n, _, remove) => n == name && remove && name in s.dirs
    case UnregisterRemove(n, _) => n == name
    case Leaving => name !in s.dirs
    case _ => false
  }

  lemma RemovingGoes(s: State, p: Pid, name: Name)
    requires Inv(s) && s.guard == Some(p) && Removing(s, p, name)
    ensures Carried(Step(s, p, Go), p, (t: State) => Removing(t, p, name), (t: State) => name !in t.dirs)
  {
    assert HolderOk(s, p);
  }

  /** Unregistering a VM whose lease is free leaves no directory of that name. */
  lemma UnregistrationRemoves(history: Schedule, more: Schedule, p: Pid, name: Name)
    requires After(history).guard == Some(p) && ProcOf(After(history), p) == UnregisterLease(name)
    requires LeaseCanBeHad(After(history), name) && NoFailures(more, {p}) && LONGEST_HOLD <= OwnMoves(more, p)
    ensures Achieves(After(history), more, p, (s: State) => name !in s.dirs)
  {
    var on, goal := (s: State) => Removing(s, p, name), (s: State) => name !in s.dirs;
    Reachable(history);
    forall s: State | Inv(s) && s.guard == Some(p) && on(s) ensures Carried(Step(s, p, Go), p, on, goal) {
      RemovingGoes(s, p, name);
    }
    CarriesAlone(p, on, goal);
    CourseEnds(After(history), more, {p}, p, on, goal);
  }

  /** p supervises a run of the stored revision that is on disk as starting. */
  predicate NewRun(s: State, p: Pid, name: Name, revision: nat) {
    var sup := SupOf(ProcOf(s, p));
    && sup.Some? && sup.value.name == name && sup.value.revision == revision
    && name in s.dirs && s.dirs[name].run == Some(RunState(sup.value.run, revision, Starting, false))
  }

  ghost predicate Launching(s: State, p: Pid, name: Name, record: Record) {
    match ProcOf(s, p)
    case StartRecord(n) => n == name && LeaseCanBeHad(s, name) && s.dirs[name].record == Some(record)
    case StartLease(n, r) => n == name && r == record && LeaseCanBeHad(s, name)
    case StartWrite(n, r, _) => n == name && r == record && name in s.dirs
    case StartLeave(_) => NewRun(s, p, name, record.revision)
    case _ => false
  }

  predicate Launched(s: State, p: Pid, name: Name, revision: nat) {
    ProcOf(s, p).Supervising? && NewRun(s, p, name, revision)
  }

  lemma LaunchingGoes(s: State, p: Pid, name: Name, record: Record)
    requires Inv(s) && s.guard == Some(p) && Launching(s, p, name, record)
    ensures Carried(Step(s, p, Go), p,
      (t: State) => Launching(t, p, name, record), (t: State) => Launched(t, p, name, record.revision))
  {
  }

  /** A start of a registered VM whose lease is free leaves its process supervising a new run of
      the stored revision, saved as starting. */
  lemma StartLaunches(history: Schedule, more: Schedule, p: Pid, name: Name, record: Record)
    requires After(history).guard == Some(p) && ProcOf(After(history), p) == StartRecord(name)
    requires LeaseCanBeHad(After(history), name) && After(history).dirs[name].record == Some(record)
    requires NoFailures(more, {p}) && LONGEST_HOLD <= OwnMoves(more, p)
    ensures Achieves(After(history), more, p, (s: State) => Launched(s, p, name, record.revision))
  {
    var on := (s: State) => Launching(s, p, name, record);
    var goal := (s: State) => Launched(s, p, name, record.revision);
    Reachable(history);
    forall s: State | Inv(s) && s.guard == Some(p) && on(s) ensures Carried(Step(s, p, Go), p, on, goal) {
      LaunchingGoes(s, p, name, record);
    }
    CarriesAlone(p, on, goal);
    CourseEnds(After(history), more, {p}, p, on, goal);
  }

  // ---- Saving what a supervisor has to save -----------------------------------------------

  /** The run state after each event: started, verified, ended as reported, or ended by an error. */
  predicate Shows(r: RunState, sup: Sup, event: Edit) {
    && r.id == sup.run && r.revision == sup.revision
    && match event
       case MarkStarted => r.state == Running && r.verified == sup.verified
       case MarkVerified => r.state == Running && r.verified
       case Finish(Report(success, marker)) =>
         (success ==> r.state == Stopped) && (!success ==> r.state == Failed) && r.verified == marker
       case Finish(Error) => r.state == Failed && r.verified == sup.verified
  }

  predicate SavedAs(s: State, sup: Sup, event: Edit) {
    sup.name in s.dirs && s.dirs[sup.name].run.Some? && Shows(s.dirs[sup.name].run.value, sup, event)
  }

  ghost predicate Saving(s: State, p: Pid, sup: Sup, event: Edit) {
    match ProcOf(s, p)
    case SaveRead(u, e) => u == sup && e == event
    case SaveWrite(u, e, _) => u == sup && e == event
    case SaveLeave(u, e, saved) => u == sup && e == event && saved && SavedAs(s, sup, event)
    case _ => false
  }

  /** The end of a run is followed by the release of its lease, any other event by more of it. */
  predicate GoesOn(q: Proc, event: Edit) {
    if event.Finish? then q.Closing? && q.saved
    else q.Supervising? && (event.MarkStarted? ==> q.sup.started) && (event.MarkVerified? ==> q.sup.verified)
  }

  predicate SavedAndGoesOn(s: State, p: Pid, sup: Sup, event: Edit) {
    SavedAs(s, sup, event) && GoesOn(ProcOf(s, p), event)
  }

  lemma SavingGoes(s: State, p: Pid, sup: Sup, event: Edit)
    requires Inv(s) && s.guard == Some(p) && Saving(s, p, sup, event)
    ensures Carried(Step(s, p, Go), p,
      (t: State) => Saving(t, p, sup, event), (t: State) => SavedAndGoesOn(t, p, sup, event))
  {
    assert SupOk(s, p);
  }

  lemma SavingCarries(p: Pid, sup: Sup, event: Edit)
    ensures Carries({p}, p,
      (s: State) => Saving(s, p, sup, event), (s: State) => SavedAndGoesOn(s, p, sup, event))
  {
    var on, goal := (s: State) => Saving(s, p, sup, event), (s: State) => SavedAndGoesOn(s, p, sup, event);
    forall s: State | Inv(s) && s.guard == Some(p) && on(s) ensures Carried(Step(s, p, Go), p, on, goal) {
      SavingGoes(s, p, sup, event);
    }
    CarriesAlone(p, on, goal);
  }

  lemma SavingBegins(s: State, p: Pid, sup: Sup, event: Edit)
    requires ProcOf(s, p) == SaveWait(sup, event) && s.guard.None?
    ensures var t := Step(s, p, Go); t.guard == Some(p) && Saving(t, p, sup, event)
  {
  }

  lemma SavingEnds(s: State, more: Schedule, p: Pid, sup: Sup, event: Edit)
    requires Inv(s) && s.guard == Some(p) && Saving(s, p, sup, event)
    requires NoFailures(more, {p}) && LONGEST_HOLD <= OwnMoves(more, p)
    ensures Achieves(s, more, p, (t: State) => SavedAndGoesOn(t, p, sup, event))
  {
    SavingCarries(p, sup, event);
    CourseEnds(s, more, {p}, p,
               (t: State) => Saving(t, p, sup, event), (t: State) => SavedAndGoesOn(t, p, sup, event));
  }

  /** A supervisor that finds the guard free and does not fail saves its event, whatever the other
      processes do: the run state shows it when the guard is left. */
  lemma EventIsSaved(history: Schedule, more: Schedule, p: Pid, sup: Sup, event: Edit)
    requires ProcOf(After(history), p) == SaveWait(sup, event) && After(history).guard.None?
    requires NoFailures(more, {p}) && LONGEST_HOLD <= OwnMoves(more, p)
    ensures Achieves(Step(After(history), p, Go), more, p, (s: State) => SavedAndGoesOn(s, p, sup, event))
  {
    Reachable(history);
    EveryStepKeeps(After(history), p, Go);
    SavingBegins(After(history), p, sup, event);
    SavingEnds(Step(After(history), p, Go), more, p, sup, event);
  }

  // ---- A forced stop ----------------------------------------------------------------------

  /** q supervises run and has not come to the end of it. */
  predicate Watching(s: State, q: Pid, name: Name, run: RunId) {
    Supervises(s, q, name, run) && !ProcOf(s, q).Closing?
  }

  predicate Reporting(q: Proc, name: Name) {
    match q
    case StatusRecord(n, ask) => n == name && ask == StopAfter
    case StatusProbe(n, ask, _) => n == name && ask == StopAfter
    case StatusProbeDrop(n, ask, _, _) => n == name && ask == StopAfter
    case StatusRun(n, ask, _, _, _) => n == name && ask == StopAfter
    case StatusStop(n, ask, _, _, _, _) => n == name && ask == StopAfter
    case StatusDone(n, ask, _, _) => n == name && ask == StopAfter
    case Leaving => true
    case _ => false
  }

  predicate Asked(q: Proc, name: Name) {
    (q.StatusRecord? || q.StatusProbe?) && q.name == name && q.ask == StopBefore
  }

  /** Until the probe the supervisor has to stay; then the request is due; then it is on disk. */
  predicate Stopping(s: State, p: Pid, q: Pid, name: Name, run: RunId) {
    || (Asked(ProcOf(s, p), name) && Watching(s, q, name, run))
    || Asking(ProcOf(s, p), name, run)
    || (Reporting(ProcOf(s, p), name) && Names(s, name, run))
  }

  lemma ProbeFinds(s: State, p: Pid, q: Pid, name: Name, run: RunId)
    requires Inv(s) && Watching(s, q, name, run)
    ensures name in s.dirs && s.dirs[name].record.Some? && !LeaseFree(s, name)
    ensures HolderRun(s, LockOf(s, name)) == Some(run)
  {
    assert LeaseOk(s, q) && SupOk(s, q);
  }

  lemma AskedGoes(s: State, p: Pid, q: Pid, name: Name, run: RunId)
    requires Inv(s) && s.guard == Some(p) && Watching(s, q, name, run)
    requires Asked(ProcOf(s, p), name)
    ensures var t := StepStatus(s, p, ProcOf(s, p), Go); t.guard == Some(p) && Stopping(t, p, q, name, run)
  {
    ProbeFinds(s, p, q, name, run);
    assert SupOf(ProcOf(s, p)).None? && q != p;
  }

  lemma WrittenGoes(s: State, p: Pid, name: Name, run: RunId)
    requires Inv(s) && s.guard == Some(p) && Names(s, name, run) && Reporting(ProcOf(s, p), name)
    ensures var t := Step(s, p, Go);
      Names(t, name, run) && (t.guard.None? || (t.guard == Some(p) && Reporting(ProcOf(t, p), name)))
  {
    if !ProcOf(s, p).Leaving? {
      ReportGoes(s, p, name, run);
    }
  }

  lemma ReportGoes(s: State, p: Pid, name: Name, run: RunId)
    requires s.guard == Some(p) && Names(s, name, run) && Reporting(ProcOf(s, p), name) && !ProcOf(s, p).Leaving?
    ensures var t := StepStatus(s, p, ProcOf(s, p), Go);
      Names(t, name, run) && t.guard == Some(p) && Reporting(ProcOf(t, p), name)
  {
  }

  lemma DueGoes(s: State, p: Pid, name: Name, run: RunId)
    requires Inv(s) && s.guard == Some(p) && Asking(ProcOf(s, p), name, run)
    ensures var t := Step(s, p, Go);
      t.guard == Some(p) && (Asking(ProcOf(t, p), name, run) || (Reporting(ProcOf(t, p), name) && Names(t, name, run)))
  {
    DoneKnowsRun(s, p);
    assert HolderOk(s, p);
  }

  lemma StoppingGoes(s: State, p: Pid, q: Pid, name: Name, run: RunId)
    requires Inv(s) && s.guard == Some(p) && Stopping(s, p, q, name, run)
    ensures Carried(Step(s, p, Go), p,
      (t: State) => Stopping(t, p, q, name, run), (t: State) => Names(t, name, run))
  {
    var r := ProcOf(s, p);
    if Asked(r, name) {
      AskedGoes(s, p, q, name, run);
    } else if Asking(r, name, run) {
      DueGoes(s, p, name, run);
    } else {
      WrittenGoes(s, p, name, run);
    }
  }

  lemma WatcherStays(s: State, p: Pid, q: Pid, name: Name, run: RunId, other: Pid, c: Choice)
    requires Inv(s) && s.guard == Some(p) && other != p && Watching(s, q, name, run) && Unfailing({p, q}, other, c)
    requires SupOf(ProcOf(s, p)).None?
    ensures Watching(Step(s, other, c), q, name, run)
  {
    if other == q {
      assert !HoldsGuard(ProcOf(s, q));
    } else {
      OthersStay(s, q, other, c);
    }
  }

  lemma StoppingStays(s: State, p: Pid, q: Pid, name: Name, run: RunId, other: Pid, c: Choice)
    requires Inv(s) && s.guard == Some(p) && other != p && Stopping(s, p, q, name, run) && Unfailing({p, q}, other, c)
    ensures Stopping(Step(s, other, c), p, q, name, run) && Step(s, other, c).guard == Some(p)
  {
    OthersLeaveDirs(s, p, other, c);
    if Watching(s, q, name, run) && SupOf(ProcOf(s, p)).None? {
      WatcherStays(s, p, q, name, run, other, c);
    }
  }

  lemma StoppingCarries(p: Pid, q: Pid, name: Name, run: RunId)
    ensures Carries({p, q}, p, (s: State) => Stopping(s, p, q, name, run), (s: State) => Names(s, name, run))
  {
    forall s: State, other: Pid, c: Choice
      | Inv(s) && s.guard == Some(p) && Stopping(s, p, q, name, run) && Unfailing({p, q}, other, c)
      ensures Carried(Step(s, other, c), p,
        (t: State) => Stopping(t, p, q, name, run), (t: State) => Names(t, name, run))
    {
      if other == p {
        HolderGoesOrStays(s, p, c);
        StoppingGoes(s, p, q, name, run);
      } else {
        StoppingStays(s, p, q, name, run, other, c);
      }
    }
  }

  /** A forced stop of a VM whose supervisor is still watching its run leaves the guard with a
      request on disk that names the run. */
  lemma ForcedStopIsWritten(history: Schedule, more: Schedule, p: Pid, q: Pid, name: Name, run: RunId)
    requires After(history).guard == Some(p) && ProcOf(After(history), p) == StatusRecord(name, StopBefore)
    requires Watching(After(history), q, name, run)
    requires NoFailures(more, {p, q}) && LONGEST_HOLD <= OwnMoves(more, p)
    ensures Achieves(After(history), more, p, (s: State) => Names(s, name, run))
  {
    Reachable(history);
    StoppingCarries(p, q, name, run);
    CourseEnds(After(history), more, {p, q}, p,
               (s: State) => Stopping(s, p, q, name, run), (s: State) => Names(s, name, run));
  }

  // ---- The request stays until it is seen -------------------------------------------------

  lemma SupervisedStays(s: State, p: Pid, q: Pid, name: Name, run: RunId)
    requires Inv(s) && Supervises(s, q, name, run)
    ensures name in s.dirs && s.dirs[name].run.Some? && s.dirs[name].run.value.id == run && !Unleased(s, s.dirs[name])
  {
    assert LeaseOk(s, q) && SupOk(s, q);
  }

  lemma StatusKeepsRequest(s: State, p: Pid, r: Proc, c: Choice, name: Name, run: RunId)
    requires r.StatusRecord? || r.StatusProbe? || r.StatusProbeDrop? || r.StatusRun? || r.StatusStop?
             || r.StatusDone? || r.StopWrite?
    requires Names(s, name, run) && (r.StopWrite? && r.name == name ==> r.target == run)
    ensures Names(StepStatus(s, p, r, c), name, run)
  {
  }

  lemma UnregisterKeepsRequest(s: State, p: Pid, r: Proc, c: Choice, name: Name, run: RunId)
    requires r.UnregisterLease? || r.UnregisterScan? || r.UnregisterDrop? || r.UnregisterRemove?
    requires Names(s, name, run) && !(r.UnregisterRemove? && r.name == name)
    ensures Names(StepUnregister(s, p, r, c), name, run)
  {
  }

  lemma ProfilesKeepRequest(s: State, p: Pid, r: Proc, c: Choice, name: Name, run: RunId)
    requires r.Leaving? || r.RegisterMkdir? || r.RegisterWrite? || r.RegisterUndo?
             || r.UpdateLease? || r.UpdateRead? || r.UpdateWrite? || r.UpdateDrop?
    requires Names(s, name, run) && !(r.RegisterUndo? && r.name == name)
    ensures Names(StepGuarded(s, p, r, c), name, run)
  {
  }

  predicate RunStep(r: Proc) {
    || r.StartRecord? || r.StartLease? || r.StartWrite? || r.StartUndo? || r.StartLeave?
    || r.SaveWait? || r.SaveRead? || r.SaveWrite? || r.SaveLeave? || r.Closing?
  }

  lemma StartKeepsRequest(s: State, p: Pid, r: Proc, c: Choice, name: Name, run: RunId)
    requires r.StartRecord? || r.StartLease? || r.StartWrite? || r.StartUndo? || r.StartLeave?
    requires Names(s, name, run)
    ensures Names(StepStart(s, p, r, c), name, run)
  {
  }

  lemma SaveKeepsRequest(s: State, p: Pid, r: Proc, c: Choice, name: Name, run: RunId)
    requires r.SaveWait? || r.SaveRead? || r.SaveWrite? || r.SaveLeave? || r.Closing?
    requires Names(s, name, run)
    ensures Names(StepSave(s, p, r, c), name, run)
  {
  }

  lemma RunsKeepRequest(s: State, p: Pid, r: Proc, c: Choice, name: Name, run: RunId)
    requires RunStep(r) && Names(s, name, run)
    ensures Names(StepGuarded(s, p, r, c), name, run)
  {
    if r.SaveWait? || r.SaveRead? || r.SaveWrite? || r.SaveLeave? || r.Closing? {
      SaveKeepsRequest(s, p, r, c, name, run);
    } else {
      StartKeepsRequest(s, p, r, c, name, run);
    }
  }

  lemma OutsideKeepsRequest(s: State, p: Pid, c: Choice, name: Name, run: RunId)
    requires c.Crash? || ProcOf(s, p).Idle? || ProcOf(s, p).Waiting? || ProcOf(s, p).Supervising? || !(c.Go? || c.Fail?)
    requires Names(s, name, run)
    ensures Names(Step(s, p, c), name, run)
  {
  }

  lemma GuardedKeepsRequest(s: State, p: Pid, r: Proc, c: Choice, name: Name, run: RunId)
    requires !r.Idle? && !r.Waiting? && !r.Supervising? && Names(s, name, run)
    requires r.StopWrite? && r.name == name ==> r.target == run
    requires !(r.UnregisterRemove? && r.name == name) && !(r.RegisterUndo? && r.name == name)
    ensures Names(StepGuarded(s, p, r, c), name, run)
  {
    if RunStep(r) {
      RunsKeepRequest(s, p, r, c, name, run);
    } else if r.Leaving? || r.RegisterMkdir? || r.RegisterWrite? || r.RegisterUndo?
              || r.UpdateLease? || r.UpdateRead? || r.UpdateWrite? || r.UpdateDrop? {
      ProfilesKeepRequest(s, p, r, c, name, run);
    } else {
      OthersKeepRequest(s, p, r, c, name, run);
    }
  }

  lemma OthersKeepRequest(s: State, p: Pid, r: Proc, c: Choice, name: Name, run: RunId)
    requires !r.Idle? && !r.Waiting? && !r.Supervising? && Names(s, name, run)
    requires !RunStep(r)
    requires !r.Leaving? && !r.RegisterMkdir? && !r.RegisterWrite? && !r.RegisterUndo?
    requires !r.UpdateLease? && !r.UpdateRead? && !r.UpdateWrite? && !r.UpdateDrop?
    requires r.StopWrite? && r.name == name ==> r.target == run
    requires !(r.UnregisterRemove? && r.name == name)
    ensures Names(StepGuarded(s, p, r, c), name, run)
  {
    if r.UnregisterLease? || r.UnregisterScan? || r.UnregisterDrop? || r.UnregisterRemove? {
      UnregisterKeepsRequest(s, p, r, c, name, run);
    } else {
      StatusKeepsRequest(s, p, r, c, name, run);
    }
  }

  /** As long as the supervisor of a run lives, no step of anybody removes a request for it. */
  lemma RequestStays(s: State, p: Pid, c: Choice, q: Pid, name: Name, run: RunId)
    requires Inv(s) && Supervises(s, q, name, run) && Names(s, name, run)
    ensures Names(Step(s, p, c), name, run)
  {
    var r := ProcOf(s, p);
    if c.Crash? || r.Idle? || r.Waiting? || r.Supervising? || !(c.Go? || c.Fail?) {
      OutsideKeepsRequest(s, p, c, name, run);
    } else {
      SupervisedStays(s, p, q, name, run);
      if r.StopWrite? || r.UnregisterRemove? || r.RegisterUndo? {
        assert HoldsGuard(r) && HolderOk(s, p);
      }
      GuardedKeepsRequest(s, p, r, c, name, run);
    }
  }

  predicate LivesAfter(s: State, more: Schedule, i: nat, q: Pid, name: Name, run: RunId)
    requires i <= |more|
  {
    Supervises(Run(s, more[..i]), q, name, run)
  }

  lemma {:induction false} RequestLasts(s: State, more: Schedule, q: Pid, name: Name, run: RunId)
    requires Inv(s) && Names(s, name, run) && forall i | 0 <= i <= |more| :: LivesAfter(s, more, i, q, name, run)
    ensures Inv(Run(s, more)) && Names(Run(s, more), name, run)
  {
    if more != [] {
      var before, last := more[..|more| - 1], more[|more| - 1];
      forall i | 0 <= i <= |before| ensures LivesAfter(s, before, i, q, name, run) {
        assert before[..i] == more[..i] && LivesAfter(s, more, i, q, name, run);
      }
      RequestLasts(s, before, q, name, run);
      assert before[..|before|] == before && LivesAfter(s, before, |before|, q, name, run);
      EveryStepKeeps(Run(s, before), last.first, last.second);
      RequestStays(Run(s, before), last.first, last.second, q, name, run);
    }
  }

  /** Once a request for its run is written, a supervisor that is still watching the started run
      sees the request with its next poll and turns to save the run as stopped. */
  lemma RequestIsSeen(history: Schedule, more: Schedule, q: Pid, sup: Sup)
    requires Names(After(history), sup.name, sup.run)
    requires forall i | 0 <= i <= |more| :: LivesAfter(After(history), more, i, q, sup.name, sup.run)
    requires ProcOf(Run(After(history), more), q) == Supervising(sup) && sup.started
    ensures var t := Step(Run(After(history), more), q, PollStop);
      sup.run in t.sawStop && ProcOf(t, q) == SaveWait(sup, Finish(Report(true, sup.verified)))
  {
    Reachable(history);
    RequestLasts(After(history), more, q, sup.name, sup.run);
    PollSees(Run(After(history), more), q, sup);
  }

  lemma PollSees(s: State, q: Pid, sup: Sup)
    requires ProcOf(s, q) == Supervising(sup) && sup.started && Names(s, sup.name, sup.run)
    ensures var t := Step(s, q, PollStop);
      && ProcOf(t, q) == SaveWait(sup, Finish(Report(true, sup.verified)))
      && t.guard == s.guard && sup.run in t.sawStop
  {
  }

  predicate RunStopped(s: State, sup: Sup) {
    && sup.name in s.dirs && s.dirs[sup.name].run.Some?
    && var r := s.dirs[sup.name].run.value; r.id == sup.run && r.state == Stopped && r.verified == sup.verified
  }

  lemma WeakerGoal(s: State, more: Schedule, p: Pid, goal: Fact, weaker: Fact)
    requires Achieves(s, more, p, goal) && forall t: State :: goal(t) ==> weaker(t)
    ensures Achieves(s, more, p, weaker)
  {
    var k: nat :| LeavesWith(s, more, k, p, goal);
    assert LeavesWith(s, more, k, p, weaker);
  }

  /** A poll that finds the request counts as seen, and saving it ends the run as stopped on disk. */
  lemma SeenStopEndsRun(history: Schedule, more: Schedule, q: Pid, sup: Sup)
    requires var s := After(history);
      ProcOf(s, q) == Supervising(sup) && sup.started && Names(s, sup.name, sup.run) && s.guard.None?
    requires NoFailures(more, {q}) && LONGEST_HOLD <= OwnMoves(more, q)
    ensures var t := Step(Step(After(history), q, PollStop), q, Go);
      sup.run in t.sawStop && Achieves(t, more, q, (s: State) => RunStopped(s, sup))
  {
    var event := Finish(Report(true, sup.verified));
    var polled := history + [Pair(q, PollStop)];
    assert polled[..|polled| - 1] == history;
    PollTurnsToSave(After(history), q, sup);
    EventIsSaved(polled, more, q, sup, event);
    WeakerGoal(Step(After(polled), q, Go), more, q,
               (s: State) => SavedAndGoesOn(s, q, sup, event), (s: State) => RunStopped(s, sup));
  }

  lemma PollTurnsToSave(s: State, q: Pid, sup: Sup)
    requires ProcOf(s, q) == Supervising(sup) && sup.started && Names(s, sup.name, sup.run) && s.guard.None?
    ensures var t := Step(s, q, PollStop);
      && ProcOf(t, q) == SaveWait(sup, Finish(Report(true, sup.verified))) && t.guard.None?
      && sup.run in t.sawStop && sup.run in Step(t, q, Go).sawStop
  {
    PollSees(s, q, sup);
  }
}
