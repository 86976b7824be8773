/** The commands of the registry carry real profiles. What materialisation promises of one record
    then holds of every record the protocol ever stores, under any schedule. */
module RegisteredProfiles {
  import opened Wrappers
  import opened Registry
  import opened RegistryRecords
  import opened Text
  import Identities
  import Paths
  import Config
  import Records
  import Origins

  // ---- Commands ---------------------------------------------------------------------------

  type Platform = Paths.Platform

  /** Where the profile of a command comes from: a file in a directory of a host. */
  datatype Source = Source(host: Config.Host, profile: Config.VmConfig, base: string, newUuid: Identities.Uuid)

  function Snapshot(src: Source): Option<Config.VmConfig> {
    Config.Resolved(src.host, src.profile, src.base)
  }

  /** What register and update do before they ask for the guard succeeds. */
  ghost predicate Usable(platform: Platform, src: Source) {
    src.host.platform == platform && Snapshot(src).Some? && Identities.ValidUuid(src.newUuid)
  }

  ghost predicate IsRegistration(platform: Platform, op: Op, src: Source) {
    && op.Register? && Usable(platform, src) && op.name == Lower(src.profile.name)
    && Records.InitialRecord(Snapshot(src).value, src.newUuid) == Some(op.record)
  }

  /** What an update makes of the record it reads, which has to pass the check first. */
  ghost predicate IsEdit(platform: Platform, name: Name, edit: Record -> Option<Record>, src: Source) {
    && Usable(platform, src)
    && forall r: Record :: edit(r) ==
         if Records.ValidRecord(platform, r, name) then Records.UpdatedRecord(r, Snapshot(src).value, src.newUuid)
         else None
  }

  ghost predicate IsUpdate(platform: Platform, op: Op, src: Source) {
    op.Update? && op.name == Lower(src.profile.name) && IsEdit(platform, op.name, op.edit, src)
  }

  /** Every registration and update of the schedule has a source among the given ones. */
  ghost predicate Genuine(platform: Platform, sources: Source -> bool, c: Choice) {
    c.Begin? ==>
      && (c.op.Register? ==> exists src: Source :: sources(src) && IsRegistration(platform, c.op, src))
      && (c.op.Update? ==> exists src: Source :: sources(src) && IsUpdate(platform, c.op, src))
  }

  ghost predicate AllGenuine(platform: Platform, sources: Source -> bool, schedule: Schedule) {
    forall k | 0 <= k < |schedule| :: Genuine(platform, sources, schedule[k].second)
  }

  // ---- Stored records stem from the commands, and their revisions grow --------------------

  /** A sound record with the paths that resolution gave the profile of the source. */
  predicate StemsFrom(r: Record, name: Name, src: Source) {
    && Records.SoundRecord(r, name) && Snapshot(src).Some?
    && Config.AllPaths(r.profile) == Config.AllPaths(Snapshot(src).value)
  }

  ghost predicate Stems(platform: Platform, sources: Source -> bool, name: Name, r: Record) {
    exists src: Source :: sources(src) && Usable(platform, src) && StemsFrom(r, name, src)
  }

  predicate Grows(a: Record, b: Record) {
    a == b || a.revision < b.revision
  }

  ghost function StemRules(platform: Platform, sources: Source -> bool): Rules {
    Rules((name, r) => Stems(platform, sources, name, r), (name, a, b) => Grows(a, b))
  }

  lemma LowerIdempotent(s: string)
    ensures Lower(Lower(s)) == Lower(s)
  {
  }

  lemma SnapshotKeepsName(src: Source)
    requires Snapshot(src).Some?
    ensures Snapshot(src).value.name == src.profile.name
  {
  }

  lemma RegistrationStems(platform: Platform, op: Op, src: Source)
    requires IsRegistration(platform, op, src)
    ensures StemsFrom(op.record, op.name, src)
  {
    Config.SnapshotIsFixed(src.host, src.profile, src.base, src.base);
    Records.InitialRecordSound(Snapshot(src).value, src.newUuid);
    SnapshotKeepsName(src);
    LowerIdempotent(src.profile.name);
  }

  lemma UpdateStems(platform: Platform, op: Op, src: Source, r: Record)
    requires IsUpdate(platform, op, src) && op.edit(r).Some?
    ensures StemsFrom(op.edit(r).value, op.name, src) && op.edit(r).value.revision == r.revision + 1
  {
    Config.SnapshotIsFixed(src.host, src.profile, src.base, src.base);
    SnapshotKeepsName(src);
    LowerIdempotent(src.profile.name);
    Records.UpdatedRecordSound(r, Snapshot(src).value, src.newUuid, op.name);
  }

  lemma GenuineUpdateFits(platform: Platform, sources: Source -> bool, op: Op, src: Source)
    requires sources(src) && IsUpdate(platform, op, src)
    ensures EditFits(StemRules(platform, sources), op.name, op.edit)
  {
    forall r: Record | op.edit(r).Some?
      ensures Stems(platform, sources, op.name, op.edit(r).value) && Grows(r, op.edit(r).value)
    {
      UpdateStems(platform, op, src, r);
    }
  }

  lemma GenuineFits(platform: Platform, sources: Source -> bool, c: Choice)
    requires Genuine(platform, sources, c)
    ensures ChoiceFits(StemRules(platform, sources), c)
  {
    if c.Begin? && c.op.Register? {
      var src :| sources(src) && IsRegistration(platform, c.op, src);
      RegistrationStems(platform, c.op, src);
    } else if c.Begin? && c.op.Update? {
      var src :| sources(src) && IsUpdate(platform, c.op, src);
      GenuineUpdateFits(platform, sources, c.op, src);
    }
  }

  lemma GenuineCommandsFit(platform: Platform, sources: Source -> bool, schedule: Schedule)
    requires AllGenuine(platform, sources, schedule)
    ensures CommandsFit(StemRules(platform, sources), schedule, 0)
  {
    forall k | 0 <= k < |schedule| ensures ChoiceFits(StemRules(platform, sources), schedule[k].second) {
      GenuineFits(platform, sources, schedule[k].second);
    }
  }

  lemma SamePathsAbsolute(platform: Platform, a: Config.VmConfig, b: Config.VmConfig)
    requires Config.AllPaths(a) == Config.AllPaths(b)
    ensures Config.AbsolutePaths(platform, a) == Config.AbsolutePaths(platform, b)
  {
  }

  /** Whatever processes do and wherever they crash: every stored record stems from the profile of
      some registration or update, and it passes the check made on every later read if and only if
      that profile named no drive without a root. */
  lemma StoredRecordsStem(platform: Platform, sources: Source -> bool, schedule: Schedule, name: Name)
    requires AllGenuine(platform, sources, schedule) && HasProfile(After(schedule), name)
    ensures exists src: Source ::
      && sources(src) && Usable(platform, src) && StemsFrom(RecordOf(After(schedule), name), name, src)
      && (Records.ValidRecord(platform, RecordOf(After(schedule), name), name)
          <==> !Config.NamesDriveRelative(platform, src.profile))
  {
    var rules := StemRules(platform, sources);
    GenuineCommandsFit(platform, sources, schedule);
    RecordsObey(rules, schedule);
    assert DirFits(After(schedule), rules, name);
    var r := RecordOf(After(schedule), name);
    var src :| sources(src) && Usable(platform, src) && StemsFrom(r, name, src);
    Config.SnapshotIsFixed(src.host, src.profile, src.base, src.base);
    SamePathsAbsolute(platform, r.profile, Snapshot(src).value);
  }

  /** The sources whose profiles name no drive without a root. */
  function Rooted(platform: Platform): Source -> bool {
    (src: Source) => !Config.NamesDriveRelative(platform, src.profile)
  }

  /** If no command's profile names a drive without a root, every stored record passes the check
      made when it is read back, so no operation fails on a record the registry wrote. */
  lemma StoredRecordsAreValid(platform: Platform, schedule: Schedule, name: Name)
    requires AllGenuine(platform, Rooted(platform), schedule)
    requires HasProfile(After(schedule), name)
    ensures Records.ValidRecord(platform, RecordOf(After(schedule), name), name)
  {
    StoredRecordsStem(platform, Rooted(platform), schedule, name);
  }

  // ---- A record that is written and never read again --------------------------------------

  /** One process registers and is done. */
  function RegisterAlone(op: Op): Schedule {
    [Pair(0, Begin(op)), Pair(0, Go), Pair(0, Go), Pair(0, Go)]
  }

  lemma AfterFour(a: Pair<Pid, Choice>, b: Pair<Pid, Choice>, c: Pair<Pid, Choice>, d: Pair<Pid, Choice>)
    ensures After([a, b, c, d])
         == Step(Step(Step(Step(INIT, a.first, a.second), b.first, b.second), c.first, c.second), d.first, d.second)
  {
    assert [a, b, c, d][..3] == [a, b, c] && [a, b, c][..2] == [a, b] && [a, b][..1] == [a] && [a][..0] == [];
    assert After([a]) == Step(INIT, a.first, a.second);
    assert After([a, b]) == Step(After([a]), b.first, b.second);
    assert After([a, b, c]) == Step(After([a, b]), c.first, c.second);
  }

  lemma RegisteredAlone(name: Name, record: Record)
    ensures var s := After(RegisterAlone(Register(name, record)));
      HasProfile(s, name) && RecordOf(s, name) == record
  {
    var op := Register(name, record);
    AfterFour(Pair(0, Begin(op)), Pair(0, Go), Pair(0, Go), Pair(0, Go));
    var a := Step(INIT, 0, Begin(op));
    assert ProcOf(a, 0) == Waiting(op) && a.guard.None? && name !in a.dirs;
    var b := Step(a, 0, Go);
    assert ProcOf(b, 0) == RegisterMkdir(name, record) && name !in b.dirs;
    var c := Step(b, 0, Go);
    assert ProcOf(c, 0) == RegisterWrite(name, record) && name in c.dirs;
  }

  /** Registering any profile that names a drive without a root succeeds, and then the record fails
      every later check: no update of it can ever succeed either. */
  lemma UnreadableOnceRegistered(platform: Platform, src: Source, op: Op)
    requires Usable(platform, src) && Config.NamesDriveRelative(platform, src.profile)
    requires IsRegistration(platform, op, src)
    ensures var s := After(RegisterAlone(op));
      && HasProfile(s, op.name) && RecordOf(s, op.name) == op.record
      && !Records.ValidRecord(platform, op.record, op.name)
    ensures forall edit: Record -> Option<Record>, later: Source ::
      IsEdit(platform, op.name, edit, later) ==> edit(op.record) == None
  {
    RegisteredAlone(op.name, op.record);
    RegistrationStems(platform, op, src);
    Config.SnapshotIsFixed(src.host, src.profile, src.base, src.base);
    SamePathsAbsolute(platform, op.record.profile, Snapshot(src).value);
  }

  /** The failing input: on Windows, a kernel on another drive, named without a root, registered
      from any directory. */
  lemma DriveRelativeKernelRegisters(host: Config.Host, base: string, newUuid: Identities.Uuid) returns (op: Op)
    requires host.platform.Windows? && Paths.IsAbsolute(host.platform, base) && Identities.ValidUuid(newUuid)
    ensures var src := Source(host, Config.LinuxProfile(host.platform, "D:vmlinux"), base, newUuid);
      IsRegistration(host.platform, op, src)
    ensures HasProfile(After(RegisterAlone(op)), op.name)
    ensures !Records.ValidRecord(host.platform, RecordAfter(op), op.name)
  {
    var src := Source(host, Config.LinuxProfile(host.platform, "D:vmlinux"), base, newUuid);
    Config.DriveRelativeIsResolved(host, base);
    Config.LinuxProfileIsValid(host.platform, "D:vmlinux");
    Records.InitialRecordSound(src.profile, newUuid);
    op := Register(Lower(src.profile.name), Records.InitialRecord(src.profile, newUuid).value);
    UnreadableOnceRegistered(host.platform, src, op);
  }

  /** The record that the registry holds when a registration alone has taken its steps. */
  function RecordAfter(op: Op): Record
    requires HasProfile(After(RegisterAlone(op)), op.name)
  {
    RecordOf(After(RegisterAlone(op)), op.name)
  }

  lemma FirstFits(rules: Rules, schedule: Schedule, i: nat)
    requires CommandsFit(rules, schedule, 0) && i <= |schedule|
    ensures Fits(After(schedule[..i]), rules) && CommandsFit(rules, schedule, i)
  {
    RecordsObey(rules, schedule[..i]);
  }

  lemma GrowthIsTransitive(platform: Platform, sources: Source -> bool)
    ensures Transitive(StemRules(platform, sources))
  {
  }

  lemma GrowsMeans(platform: Platform, sources: Source -> bool, a: Record, b: Record, name: Name)
    requires StemRules(platform, sources).step(name, a, b)
    ensures a.revision <= b.revision && (a.revision == b.revision ==> a == b)
  {
  }

  /** While a VM stays registered its revision never falls, and equal revisions mean the very
      same record. */
  lemma RevisionsIdentifyRecords(
      platform: Platform, sources: Source -> bool, schedule: Schedule, i: nat, name: Name)
    requires AllGenuine(platform, sources, schedule) && i <= |schedule| && StaysRegistered(schedule, i, name)
    ensures HasProfile(After(schedule[..i]), name) && HasProfile(After(schedule), name)
    ensures var a, b := RecordOf(After(schedule[..i]), name), RecordOf(After(schedule), name);
      a.revision <= b.revision && (a.revision == b.revision ==> a == b)
  {
    var rules := StemRules(platform, sources);
    GenuineCommandsFit(platform, sources, schedule);
    GrowthIsTransitive(platform, sources);
    FirstFits(rules, schedule, i);
    RecordsEvolve(rules, schedule, i, name);
    GrowsMeans(platform, sources, RecordOf(After(schedule[..i]), name), RecordOf(After(schedule), name), name);
  }

  // ---- Where stored identifiers come from -------------------------------------------------

  function UuidOf(r: Record): Option<Identities.Uuid> {
    match r.profile.identity
    case Some(i) => i.system.uuid
    case None => None
  }

  /** A record has an identity if its profile had one, and its UUID and serial are the profile's,
      else those of the record before, else the new UUID and what it spells. */
  predicate IdentitySettled(src: Source, before: Option<Identities.Identity>, r: Record) {
    match src.profile.identity
    case None => r.profile.identity.None?
    case Some(i) =>
      r.profile.identity.Some?
      && Origins.SystemSettled(i, before, src.newUuid, r.profile.identity.value.system)
  }

  lemma MaterializedForSettles(
      i: Identities.Identity, before: Option<Identities.Identity>, boot: Config.Boot, newUuid: Identities.Uuid)
    requires Records.MaterializeFor(i, before, boot, newUuid).Some?
    ensures Origins.SystemSettled(
      i, before, newUuid, Records.MaterializeFor(i, before, boot, newUuid).value.system)
  {
    if boot.QemuUefi? {
      Origins.MaterializeQemuOrigins(i, before, newUuid);
    } else {
      Origins.MaterializeOrigins(i, before, boot.LinuxDirect?, newUuid);
    }
  }

  lemma RegistrationSettles(platform: Platform, op: Op, src: Source)
    requires IsRegistration(platform, op, src)
    ensures IdentitySettled(src, None, op.record)
  {
    var c := Snapshot(src).value;
    if c.identity.Some? {
      MaterializedForSettles(c.identity.value, None, c.boot, src.newUuid);
    }
  }

  lemma UpdateSettles(platform: Platform, op: Op, src: Source, r: Record)
    requires IsUpdate(platform, op, src) && op.edit(r).Some?
    ensures IdentitySettled(src, r.profile.identity, op.edit(r).value)
  {
    var c := Snapshot(src).value;
    assert op.edit(r) == Records.UpdatedRecord(r, c, src.newUuid);
    if c.identity.Some? {
      MaterializedForSettles(c.identity.value, r.profile.identity, c.boot, src.newUuid);
    }
  }

  predicate LeavesUuidOpen(src: Source) {
    src.profile.identity.Some? && src.profile.identity.value.system.uuid.None?
  }

  /** Registrations that leave the UUID open and were given different ones store different ones. */
  lemma RegisteredUuidsDiffer(platform: Platform, a: Op, b: Op, first: Source, second: Source)
    requires IsRegistration(platform, a, first) && IsRegistration(platform, b, second)
    requires LeavesUuidOpen(first) && LeavesUuidOpen(second) && first.newUuid != second.newUuid
    ensures UuidOf(a.record).Some? && UuidOf(b.record).Some? && UuidOf(a.record) != UuidOf(b.record)
  {
    RegistrationSettles(platform, a, first);
    RegistrationSettles(platform, b, second);
  }

  // ---- Identifiers survive updates --------------------------------------------------------

  predicate Identified(qemu: bool, ids: Records.Identifiers, r: Record) {
    Records.Carries(r.profile, ids) && r.profile.boot.QemuUefi? == qemu
  }

  function IdentityRules(vm: Name, qemu: bool, ids: Records.Identifiers): Rules {
    Rules((name, r) => true, (name, a, b) => name == vm && Identified(qemu, ids, a) ==> Identified(qemu, ids, b))
  }

  predicate LeavesSourceOpen(src: Source, qemu: bool) {
    Records.LeavesIdentifiersOpen(src.profile) && src.profile.boot.QemuUefi? == qemu
  }

  /** An update that uses the default preset, leaves the identifiers open and keeps the backend. */
  ghost predicate LeavesOpen(platform: Platform, vm: Name, edit: Record -> Option<Record>, qemu: bool) {
    exists src: Source :: IsEdit(platform, vm, edit, src) && LeavesSourceOpen(src, qemu)
  }

  /** The update of vm that a process has in flight, if any. */
  function InFlight(q: Proc, vm: Name): Option<Record -> Option<Record>> {
    match q
    case Waiting(Update(name, edit)) => if name == vm then Some(edit) else None
    case UpdateLease(name, edit) => if name == vm then Some(edit) else None
    case UpdateRead(name, _, edit) => if name == vm then Some(edit) else None
    case UpdateWrite(name, _, edit, _) => if name == vm then Some(edit) else None
    case _ => None
  }

  ghost predicate InFlightLeavesOpen(platform: Platform, s: State, vm: Name, qemu: bool) {
    forall p: Pid ::
      InFlight(ProcOf(s, p), vm).Some? ==> LeavesOpen(platform, vm, InFlight(ProcOf(s, p), vm).value, qemu)
  }

  ghost predicate BegunLeavesOpen(platform: Platform, c: Choice, vm: Name, qemu: bool) {
    c.Begin? && c.op.Update? && c.op.name == vm ==> LeavesOpen(platform, vm, c.op.edit, qemu)
  }

  lemma OneUpdateIdentifies(
      platform: Platform, vm: Name, edit: Record -> Option<Record>, src: Source, qemu: bool,
      ids: Records.Identifiers, r: Record)
    requires IsEdit(platform, vm, edit, src) && edit(r).Some?
    requires LeavesSourceOpen(src, qemu) && Identified(qemu, ids, r)
    ensures Identified(qemu, ids, edit(r).value)
  {
    var profile := Snapshot(src).value;
    Config.SnapshotIsFixed(src.host, src.profile, src.base, src.base);
    assert edit(r) == Records.UpdatedRecord(r, profile, src.newUuid);
    Records.UpdateCarries(r.profile, profile, src.newUuid, ids);
    Records.MaterializeConfigTotal(profile, None, src.newUuid);
  }

  lemma OpenEditFits(platform: Platform, edit: Record -> Option<Record>, vm: Name, qemu: bool, ids: Records.Identifiers)
    requires LeavesOpen(platform, vm, edit, qemu)
    ensures EditFits(IdentityRules(vm, qemu, ids), vm, edit)
  {
    var src :| IsEdit(platform, vm, edit, src) && LeavesSourceOpen(src, qemu);
    forall r: Record | edit(r).Some? && Identified(qemu, ids, r) ensures Identified(qemu, ids, edit(r).value) {
      OneUpdateIdentifies(platform, vm, edit, src, qemu, ids, r);
    }
  }

  lemma BegunFits(platform: Platform, c: Choice, vm: Name, qemu: bool, ids: Records.Identifiers)
    requires BegunLeavesOpen(platform, c, vm, qemu)
    ensures ChoiceFits(IdentityRules(vm, qemu, ids), c)
  {
    if c.Begin? && c.op.Update? && c.op.name == vm {
      OpenEditFits(platform, c.op.edit, vm, qemu, ids);
    }
  }

  lemma BegunCommandsFit(
      platform: Platform, schedule: Schedule, i: nat, vm: Name, qemu: bool, ids: Records.Identifiers)
    requires forall k | i <= k < |schedule| :: BegunLeavesOpen(platform, schedule[k].second, vm, qemu)
    ensures CommandsFit(IdentityRules(vm, qemu, ids), schedule, i)
  {
    forall k | i <= k < |schedule| ensures ChoiceFits(IdentityRules(vm, qemu, ids), schedule[k].second) {
      BegunFits(platform, schedule[k].second, vm, qemu, ids);
    }
  }

  lemma InFlightFits(platform: Platform, s: State, vm: Name, qemu: bool, ids: Records.Identifiers)
    requires InFlightLeavesOpen(platform, s, vm, qemu)
    ensures Fits(s, IdentityRules(vm, qemu, ids))
  {
    forall p: Pid ensures ProcFits(IdentityRules(vm, qemu, ids), ProcOf(s, p)) {
      if InFlight(ProcOf(s, p), vm).Some? {
        OpenEditFits(platform, InFlight(ProcOf(s, p), vm).value, vm, qemu, ids);
      }
    }
  }

  lemma IdentityIsTransitive(vm: Name, qemu: bool, ids: Records.Identifiers)
    ensures Transitive(IdentityRules(vm, qemu, ids))
  {
  }

  /** A VM that stays registered keeps its UUID and serials under any interleaving, if the updates
      of it that are in flight or begun from then on leave them open, whatever was done before;
      and its revision grows with every change. */
  lemma IdentifiersSurvive(
      platform: Platform, sources: Source -> bool, schedule: Schedule, i: nat, vm: Name, qemu: bool,
      ids: Records.Identifiers)
    requires AllGenuine(platform, sources, schedule) && i <= |schedule| && StaysRegistered(schedule, i, vm)
    requires InFlightLeavesOpen(platform, After(schedule[..i]), vm, qemu)
    requires forall k | i <= k < |schedule| :: BegunLeavesOpen(platform, schedule[k].second, vm, qemu)
    requires HasProfile(After(schedule[..i]), vm) && Identified(qemu, ids, RecordOf(After(schedule[..i]), vm))
    ensures HasProfile(After(schedule), vm) && Identified(qemu, ids, RecordOf(After(schedule), vm))
    ensures RecordOf(After(schedule[..i]), vm).revision <= RecordOf(After(schedule), vm).revision
  {
    var rules := IdentityRules(vm, qemu, ids);
    BegunCommandsFit(platform, schedule, i, vm, qemu, ids);
    InFlightFits(platform, After(schedule[..i]), vm, qemu, ids);
    IdentityIsTransitive(vm, qemu, ids);
    RecordsEvolve(rules, schedule, i, vm);
    RevisionsIdentifyRecords(platform, sources, schedule, i, vm);
  }
}
