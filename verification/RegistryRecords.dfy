/** What the registry protocol makes of its profile records: a property that registrations
    establish and updates keep holds of every record ever stored, and a stored record changes
    only by one whole update at a time, never under a live supervisor. */
module RegistryRecords {
  import opened Wrappers
  import opened Registry
  import opened RegistryInvariant

  // ---- Rules ------------------------------------------------------------------------------

  /** What must hold of a record stored under a name, and of what one update makes of it. */
  datatype Rules = Rules(law: (Name, Record) -> bool, step: (Name, Record, Record) -> bool)

  ghost predicate EditFits(rules: Rules, name: Name, edit: Record -> Option<Record>) {
    forall r: Record :: rules.law(name, r) && edit(r).Some? ==>
      rules.law(name, edit(r).value) && rules.step(name, r, edit(r).value)
  }

  ghost predicate OpFits(rules: Rules, op: Op) {
    match op
    case Register(name, record) => rules.law(name, record)
    case Update(name, edit) => EditFits(rules, name, edit)
    case _ => true
  }

  ghost predicate ChoiceFits(rules: Rules, c: Choice) {
    c.Begin? ==> OpFits(rules, c.op)
  }

  ghost predicate ProcFits(rules: Rules, q: Proc) {
    match q
    case Waiting(op) => OpFits(rules, op)
    case RegisterMkdir(name, record) => rules.law(name, record)
    case RegisterWrite(name, record) => rules.law(name, record)
    case UpdateLease(name, edit) => EditFits(rules, name, edit)
    case UpdateRead(name, _, edit) => EditFits(rules, name, edit)
    case UpdateWrite(name, _, edit, record) => EditFits(rules, name, edit) && rules.law(name, record)
    case _ => true
  }

  predicate HasProfile(s: State, name: Name) {
    name in s.dirs && s.dirs[name].record.Some?
  }

  function RecordOf(s: State, name: Name): Record
    requires HasProfile(s, name)
  {
    s.dirs[name].record.value
  }

  ghost predicate DirFits(s: State, rules: Rules, name: Name) {
    HasProfile(s, name) ==> rules.law(name, RecordOf(s, name))
  }

  ghost predicate Fits(s: State, rules: Rules) {
    (forall p: Pid :: ProcFits(rules, ProcOf(s, p))) && (forall name: Name :: DirFits(s, rules, name))
  }

  // ---- Steps that touch no record ---------------------------------------------------------

  predicate KeepsRecord(s: State, t: State, name: Name) {
    HasProfile(t, name) ==> HasProfile(s, name) && RecordOf(t, name) == RecordOf(s, name)
  }

  predicate Harmless(q: Proc) {
    !q.Waiting? && !q.RegisterMkdir? && !q.RegisterWrite? && !q.UpdateLease? && !q.UpdateRead? && !q.UpdateWrite?
  }

  ghost predicate OnlyMoves(s: State, t: State, p: Pid) {
    forall q: Pid :: q != p ==> ProcOf(t, q) == ProcOf(s, q)
  }

  ghost predicate Bystands(s: State, t: State, p: Pid) {
    OnlyMoves(s, t, p) && Harmless(ProcOf(t, p)) && (forall name: Name :: KeepsRecord(s, t, name))
  }

  lemma UnregisterBystands(s: State, p: Pid, q: Proc, c: Choice)
    requires ProcOf(s, p) == q && (c.Go? || c.Fail?)
    requires q.UnregisterLease? || q.UnregisterScan? || q.UnregisterDrop? || q.UnregisterRemove?
    ensures Bystands(s, StepUnregister(s, p, q, c), p)
  {
  }

  lemma StartBystands(s: State, p: Pid, q: Proc, c: Choice)
    requires ProcOf(s, p) == q && (c.Go? || c.Fail?)
    requires q.StartRecord? || q.StartLease? || q.StartWrite? || q.StartUndo? || q.StartLeave?
    ensures Bystands(s, StepStart(s, p, q, c), p)
  {
  }

  lemma SaveBystands(s: State, p: Pid, q: Proc, c: Choice)
    requires ProcOf(s, p) == q && (c.Go? || c.Fail?)
    requires q.SaveWait? || q.SaveRead? || q.SaveWrite? || q.SaveLeave? || q.Closing?
    ensures Bystands(s, StepSave(s, p, q, c), p)
  {
  }

  lemma StatusBystands(s: State, p: Pid, q: Proc, c: Choice)
    requires ProcOf(s, p) == q && (c.Go? || c.Fail?)
    requires q.StatusRecord? || q.StatusProbe? || q.StatusProbeDrop? || q.StatusRun? || q.StatusStop?
             || q.StatusDone? || q.StopWrite?
    ensures Bystands(s, StepStatus(s, p, q, c), p)
  {
  }

  lemma BystandsFits(s: State, t: State, p: Pid, rules: Rules)
    requires Fits(s, rules) && Bystands(s, t, p)
    ensures Fits(t, rules)
  {
    forall q: Pid ensures ProcFits(rules, ProcOf(t, q)) {
      assert ProcFits(rules, ProcOf(s, q));
    }
    forall name: Name ensures DirFits(t, rules, name) {
      assert DirFits(s, rules, name) && KeepsRecord(s, t, name);
    }
  }

  // ---- Steps that carry or write a record -------------------------------------------------

  lemma ChangeFits(s: State, t: State, p: Pid, name: Name, rules: Rules)
    requires Fits(s, rules) && OnlyMoves(s, t, p) && ProcFits(rules, ProcOf(t, p))
    requires forall m: Name :: m != name ==> KeepsRecord(s, t, m)
    requires DirFits(t, rules, name)
    ensures Fits(t, rules)
  {
    forall q: Pid ensures ProcFits(rules, ProcOf(t, q)) {
      assert ProcFits(rules, ProcOf(s, q));
    }
    forall m: Name ensures DirFits(t, rules, m) {
      assert DirFits(s, rules, m) && (m != name ==> KeepsRecord(s, t, m));
    }
  }

  lemma RegisterFits(s: State, p: Pid, q: Proc, c: Choice, rules: Rules)
    requires Fits(s, rules) && ProcOf(s, p) == q && (q.RegisterMkdir? || q.RegisterWrite? || q.RegisterUndo?)
    ensures Fits(StepRegister(s, p, q, c), rules)
  {
    assert ProcFits(rules, q) && DirFits(s, rules, q.name);
    ChangeFits(s, StepRegister(s, p, q, c), p, q.name, rules);
  }

  lemma UpdateFits(s: State, p: Pid, q: Proc, c: Choice, rules: Rules)
    requires Fits(s, rules) && ProcOf(s, p) == q && (q.UpdateLease? || q.UpdateRead? || q.UpdateWrite? || q.UpdateDrop?)
    ensures Fits(StepUpdate(s, p, q, c), rules)
  {
    assert ProcFits(rules, q) && DirFits(s, rules, q.name);
    ChangeFits(s, StepUpdate(s, p, q, c), p, q.name, rules);
  }

  lemma OutsideFits(s: State, p: Pid, c: Choice, rules: Rules)
    requires Fits(s, rules) && ChoiceFits(rules, c)
    requires c.Crash? || ProcOf(s, p).Idle? || ProcOf(s, p).Waiting? || ProcOf(s, p).Supervising?
    ensures Fits(Step(s, p, c), rules)
  {
    assert ProcFits(rules, ProcOf(s, p)) && DirFits(s, rules, "");
    ChangeFits(s, Step(s, p, c), p, "", rules);
  }

  lemma EveryStepFits(s: State, p: Pid, c: Choice, rules: Rules)
    requires Fits(s, rules) && ChoiceFits(rules, c)
    ensures Fits(Step(s, p, c), rules)
  {
    var q := ProcOf(s, p);
    if c.Crash? || q.Idle? || q.Waiting? || q.Supervising? {
      OutsideFits(s, p, c, rules);
    } else if c.Go? || c.Fail? {
      GuardedFits(s, p, q, c, rules);
    }
  }

  lemma GuardedFits(s: State, p: Pid, q: Proc, c: Choice, rules: Rules)
    requires Fits(s, rules) && ProcOf(s, p) == q && (c.Go? || c.Fail?) && !q.Idle? && !q.Waiting? && !q.Supervising?
    ensures Fits(StepGuarded(s, p, q, c), rules)
  {
    if q.RegisterMkdir? || q.RegisterWrite? || q.RegisterUndo? {
      RegisterFits(s, p, q, c, rules);
    } else if q.UpdateLease? || q.UpdateRead? || q.UpdateWrite? || q.UpdateDrop? {
      UpdateFits(s, p, q, c, rules);
    } else {
      GuardedBystands(s, p, q, c);
      BystandsFits(s, StepGuarded(s, p, q, c), p, rules);
    }
  }

  lemma GuardedBystands(s: State, p: Pid, q: Proc, c: Choice)
    requires ProcOf(s, p) == q && (c.Go? || c.Fail?) && !q.Idle? && !q.Waiting? && !q.Supervising?
    requires !q.RegisterMkdir? && !q.RegisterWrite? && !q.RegisterUndo?
    requires !q.UpdateLease? && !q.UpdateRead? && !q.UpdateWrite? && !q.UpdateDrop?
    ensures Bystands(s, StepGuarded(s, p, q, c), p)
  {
    if q.UnregisterLease? || q.UnregisterScan? || q.UnregisterDrop? || q.UnregisterRemove? {
      UnregisterBystands(s, p, q, c);
    } else if q.StartRecord? || q.StartLease? || q.StartWrite? || q.StartUndo? || q.StartLeave? {
      StartBystands(s, p, q, c);
    } else if q.SaveWait? || q.SaveRead? || q.SaveWrite? || q.SaveLeave? || q.Closing? {
      SaveBystands(s, p, q, c);
    } else if !q.Leaving? {
      StatusBystands(s, p, q, c);
    }
  }

  // ---- Over whole schedules ---------------------------------------------------------------

  /** The commands begun from step i on fit. */
  ghost predicate CommandsFit(rules: Rules, schedule: Schedule, i: nat) {
    forall k | i <= k < |schedule| :: ChoiceFits(rules, schedule[k].second)
  }

  lemma {:induction false} FitsFrom(rules: Rules, schedule: Schedule, i: nat)
    requires i <= |schedule| && Fits(After(schedule[..i]), rules) && CommandsFit(rules, schedule, i)
    ensures Fits(After(schedule), rules)
    decreases |schedule|
  {
    if i == |schedule| {
      assert schedule[..i] == schedule;
    } else {
      var before, last := schedule[..|schedule| - 1], schedule[|schedule| - 1];
      assert before[..i] == schedule[..i];
      FitsFrom(rules, before, i);
      EveryStepFits(After(before), last.first, last.second, rules);
    }
  }

  /** A law that first records obey and updates keep is obeyed by every stored record. */
  lemma RecordsObey(rules: Rules, schedule: Schedule)
    requires CommandsFit(rules, schedule, 0)
    ensures Fits(After(schedule), rules)
  {
    assert schedule[..0] == [];
    FitsFrom(rules, schedule, 0);
  }

  /** A stored record that stays registered changes only by an update, and never while a
      supervisor of the VM lives. */
  lemma RecordChangesByUpdate(s: State, p: Pid, c: Choice, rules: Rules, name: Name)
    requires Inv(s) && Fits(s, rules) && HasProfile(s, name) && HasProfile(Step(s, p, c), name)
    ensures var t := Step(s, p, c);
      RecordOf(t, name) != RecordOf(s, name) ==>
        && rules.step(name, RecordOf(s, name), RecordOf(t, name))
        && (forall q: Pid :: SupOf(ProcOf(s, q)).Some? ==> SupOf(ProcOf(s, q)).value.name != name)
  {
    var q := ProcOf(s, p);
    if c.Crash? || q.Idle? || q.Waiting? || q.Supervising? || !(c.Go? || c.Fail?) {
    } else if q.RegisterMkdir? || q.RegisterWrite? || q.RegisterUndo? {
      assert HolderOk(s, p);
    } else if q.UpdateLease? || q.UpdateRead? || q.UpdateWrite? || q.UpdateDrop? {
      UpdateFollowsStep(s, p, q, c, rules, name);
    } else {
      GuardedBystands(s, p, q, c);
      assert KeepsRecord(s, StepGuarded(s, p, q, c), name);
    }
  }

  lemma UpdateFollowsStep(s: State, p: Pid, q: Proc, c: Choice, rules: Rules, name: Name)
    requires Inv(s) && Fits(s, rules) && HasProfile(s, name) && ProcOf(s, p) == q
    requires q.UpdateLease? || q.UpdateRead? || q.UpdateWrite? || q.UpdateDrop?
    ensures var t := StepUpdate(s, p, q, c);
      HasProfile(t, name) && RecordOf(t, name) != RecordOf(s, name) ==>
        && rules.step(name, RecordOf(s, name), RecordOf(t, name))
        && (forall r: Pid :: SupOf(ProcOf(s, r)).Some? ==> SupOf(ProcOf(s, r)).value.name != name)
  {
    if q.UpdateWrite? && q.name == name {
      assert HolderOk(s, p) && ProcFits(rules, q) && DirFits(s, rules, name) && LeaseOk(s, p);
      forall r: Pid | SupOf(ProcOf(s, r)).Some? ensures SupOf(ProcOf(s, r)).value.name != name {
        assert LeaseOk(s, r);
      }
    }
  }

  ghost predicate Transitive(rules: Rules) {
    && (forall name: Name, r: Record :: rules.step(name, r, r))
    && (forall name: Name, a: Record, b: Record, c: Record ::
          rules.step(name, a, b) && rules.step(name, b, c) ==> rules.step(name, a, c))
  }

  /** The VM stays registered from step i on. */
  ghost predicate StaysRegistered(schedule: Schedule, i: nat, name: Name) {
    forall k | i <= k <= |schedule| :: HasProfile(After(schedule[..k]), name)
  }

  lemma EvolvesByStep(rules: Rules, first: Record, s: State, p: Pid, c: Choice, name: Name)
    requires Inv(s) && Fits(s, rules) && Transitive(rules) && HasProfile(s, name) && HasProfile(Step(s, p, c), name)
    requires rules.step(name, first, RecordOf(s, name))
    ensures rules.step(name, first, RecordOf(Step(s, p, c), name))
  {
    RecordChangesByUpdate(s, p, c, rules, name);
  }

  lemma StayedBefore(schedule: Schedule, before: Schedule, i: nat, name: Name)
    requires schedule != [] && before == schedule[..|schedule| - 1] && i <= |before|
    requires StaysRegistered(schedule, i, name)
    ensures StaysRegistered(before, i, name) && before[..i] == schedule[..i]
    ensures HasProfile(After(before), name) && HasProfile(After(schedule), name)
  {
    forall k | i <= k <= |before| ensures HasProfile(After(before[..k]), name) {
      assert before[..k] == schedule[..k];
    }
    assert before[..|before|] == before && schedule[..|schedule|] == schedule;
    assert HasProfile(After(before[..|before|]), name) && HasProfile(After(schedule[..|schedule|]), name);
  }

  /** What every update in flight at step i or begun later does to a record, the rest of the
      schedule does to it. */
  lemma {:induction false} RecordsEvolve(rules: Rules, schedule: Schedule, i: nat, name: Name)
    requires i <= |schedule| && Fits(After(schedule[..i]), rules) && CommandsFit(rules, schedule, i)
    requires Transitive(rules) && StaysRegistered(schedule, i, name)
    ensures HasProfile(After(schedule[..i]), name) && HasProfile(After(schedule), name)
    ensures rules.step(name, RecordOf(After(schedule[..i]), name), RecordOf(After(schedule), name))
    decreases |schedule|
  {
    if i == |schedule| {
      assert schedule[..i] == schedule;
      assert HasProfile(After(schedule[..i]), name);
    } else {
      var before, last := schedule[..|schedule| - 1], schedule[|schedule| - 1];
      StayedBefore(schedule, before, i, name);
      RecordsEvolve(rules, before, i, name);
      Reachable(before);
      FitsFrom(rules, before, i);
      EvolvesByStep(rules, RecordOf(After(schedule[..i]), name), After(before), last.first, last.second, name);
    }
  }
}
