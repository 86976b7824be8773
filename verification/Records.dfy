/** The versioned profile record of a registered VM: what registration and update write, and
    what the registry requires of a record it reads back. */
module Records {
  import opened Wrappers
  import opened Text
  import opened Paths
  import opened Identities
  import opened Config

  const MAX_REVISION := 0xffff_ffff_ffff_ffff

  datatype Record = Record(name: string, revision: nat, profile: VmConfig)

  function PreviousIdentity(previous: Option<VmConfig>): Option<Identity> {
    if previous.Some? then previous.value.identity else None
  }

  function MaterializeFor(i: Identity, previous: Option<Identity>, boot: Boot, newUuid: Uuid): Option<Identity> {
    if boot.QemuUefi? then MaterializeQemu(i, previous, newUuid)
    else Materialize(i, previous, boot.LinuxDirect?, newUuid)
  }

  /** Settle the identity of a resolved profile; a profile without identity is left alone. */
  function MaterializeConfig(c: VmConfig, previous: Option<VmConfig>, newUuid: Uuid): Option<VmConfig> {
    if c.identity.None? then Some(c) else
      var i :- MaterializeFor(c.identity.value, PreviousIdentity(previous), c.boot, newUuid);
      Some(c.(identity := Some(i)))
  }

  function InitialRecord(c: VmConfig, newUuid: Uuid): Option<Record> {
    var profile :- MaterializeConfig(c, None, newUuid);
    Some(Record(profile.name, 1, profile))
  }

  function UpdatedRecord(stored: Record, c: VmConfig, newUuid: Uuid): Option<Record> {
    var profile :- MaterializeConfig(c, Some(stored.profile), newUuid);
    if stored.revision >= MAX_REVISION then None else Some(Record(profile.name, stored.revision + 1, profile))
  }

  predicate SameName(a: string, b: string) {
    Lower(a) == Lower(b)
  }

  /** The check made on every record that is read back under a directory name, but for its
      paths. */
  predicate SoundRecord(r: Record, name: string) {
    && 0 < r.revision
    && ValidConfig(r.profile)
    && (r.profile.identity.Some? ==> Identified(r.profile.identity.value))
    && r.name == r.profile.name && SameName(r.name, name)
  }

  /** The whole check: every stored path must be absolute. */
  predicate ValidRecord(platform: Platform, r: Record, name: string) {
    SoundRecord(r, name) && AbsolutePaths(platform, r.profile)
  }

  predicate InheritableProfile(previous: Option<VmConfig>) {
    previous.Some? ==> ValidConfig(previous.value)
  }

  lemma ValidIsInheritable(c: VmConfig)
    requires ValidConfig(c)
    ensures Inheritable(c.identity)
  {
  }

  lemma MaterializeForTotal(i: Identity, previous: Option<Identity>, boot: Boot, newUuid: Uuid)
    requires ValidIdentity(i, boot) && Inheritable(previous) && ValidUuid(newUuid)
    ensures MaterializeFor(i, previous, boot, newUuid).Some?
    ensures var m := MaterializeFor(i, previous, boot, newUuid).value; ValidIdentity(m, boot) && Identified(m)
  {
    if boot.QemuUefi? {
      MaterializeQemuTotal(i, previous, newUuid);
    } else {
      MaterializeTotal(i, previous, boot.LinuxDirect?, newUuid);
    }
  }

  lemma MaterializeConfigTotal(c: VmConfig, previous: Option<VmConfig>, newUuid: Uuid)
    requires ValidConfig(c) && InheritableProfile(previous) && ValidUuid(newUuid)
    ensures MaterializeConfig(c, previous, newUuid).Some?
    ensures var m := MaterializeConfig(c, previous, newUuid).value;
      && ValidConfig(m) && m.(identity := c.identity) == c && AllPaths(m) == AllPaths(c)
      && (m.identity.Some? <==> c.identity.Some?)
      && (m.identity.Some? ==> Identified(m.identity.value))
  {
    if previous.Some? {
      ValidIsInheritable(previous.value);
    }
    if c.identity.Some? {
      MaterializeForTotal(c.identity.value, PreviousIdentity(previous), c.boot, newUuid);
    }
  }

  /** Registration of a valid profile always succeeds and writes a record that is sound under its
      own name, with the paths of the profile. */
  lemma InitialRecordSound(c: VmConfig, newUuid: Uuid)
    requires ValidConfig(c) && ValidUuid(newUuid)
    ensures InitialRecord(c, newUuid).Some?
    ensures var r := InitialRecord(c, newUuid).value;
      r.revision == 1 && SoundRecord(r, c.name) && AllPaths(r.profile) == AllPaths(c)
  {
    MaterializeConfigTotal(c, None, newUuid);
  }

  /** An update of a sound record succeeds unless the revision is exhausted, raises the revision by
      one and writes a record that is sound under the same directory name. */
  lemma UpdatedRecordSound(stored: Record, c: VmConfig, newUuid: Uuid, name: string)
    requires SoundRecord(stored, name) && ValidConfig(c) && SameName(c.name, name) && ValidUuid(newUuid)
    ensures UpdatedRecord(stored, c, newUuid).Some? <==> stored.revision < MAX_REVISION
    ensures UpdatedRecord(stored, c, newUuid).Some? ==>
      var r := UpdatedRecord(stored, c, newUuid).value;
      r.revision == stored.revision + 1 && SoundRecord(r, name) && AllPaths(r.profile) == AllPaths(c)
  {
    MaterializeConfigTotal(c, Some(stored.profile), newUuid);
  }

  /** Registering what resolution made of a profile succeeds, and the record it writes passes the
      check made on every later read if and only if the profile named no drive without a root. */
  lemma InitialRecordValid(host: Host, c: VmConfig, base: string, newUuid: Uuid)
    requires Resolved(host, c, base).Some? && ValidUuid(newUuid)
    ensures InitialRecord(Resolved(host, c, base).value, newUuid).Some?
    ensures var p := Resolved(host, c, base).value; var r := InitialRecord(p, newUuid).value;
      && r.revision == 1 && SoundRecord(r, p.name)
      && (ValidRecord(host.platform, r, p.name) <==> !NamesDriveRelative(host.platform, c))
  {
    SnapshotIsFixed(host, c, base, base);
    InitialRecordSound(Resolved(host, c, base).value, newUuid);
  }

  /** The same of an update. */
  lemma UpdatedRecordValid(host: Host, stored: Record, c: VmConfig, base: string, newUuid: Uuid, name: string)
    requires SoundRecord(stored, name) && Resolved(host, c, base).Some? && SameName(c.name, name) && ValidUuid(newUuid)
    ensures var p := Resolved(host, c, base).value;
      && (UpdatedRecord(stored, p, newUuid).Some? <==> stored.revision < MAX_REVISION)
      && (UpdatedRecord(stored, p, newUuid).Some? ==>
            var r := UpdatedRecord(stored, p, newUuid).value;
            && r.revision == stored.revision + 1 && SoundRecord(r, name)
            && (ValidRecord(host.platform, r, name) <==> !NamesDriveRelative(host.platform, c)))
  {
    SnapshotIsFixed(host, c, base, base);
    UpdatedRecordSound(stored, Resolved(host, c, base).value, newUuid, name);
  }

  // ---- Persistent identifiers over a chain of updates -------------------------------------

  datatype Update = Update(profile: VmConfig, newUuid: Uuid)

  /** What a guest can recognise its machine by. */
  datatype Identifiers = Identifiers(
    uuid: Option<Uuid>, serial: Option<string>, board: Option<string>, chassis: Option<string>)

  function IdentifiersOf(i: Identity): Identifiers {
    Identifiers(i.system.uuid, i.system.serial, BoardSerial(Some(i)), ChassisSerial(Some(i)))
  }

  /** An update in the default preset that leaves every identifier open. */
  predicate LeavesIdentifiersOpen(c: VmConfig) {
    && c.identity.Some? && c.identity.value.preset == Limiar
    && IdentifiersOf(c.identity.value) == Identifiers(None, None, None, None)
  }

  predicate SameBackend(a: Boot, b: Boot) {
    a.QemuUefi? == b.QemuUefi?
  }

  /** A stored profile whose identifiers the next update will inherit. */
  predicate Carries(p: VmConfig, ids: Identifiers) {
    && p.identity.Some? && IdentifiersOf(p.identity.value) == ids && ids.uuid.Some? && ids.serial.Some?
    && if p.boot.QemuUefi? then ids.board.Some? && ids.chassis.Some? else ids.board.None? && ids.chassis.None?
  }

  lemma IdentifyInherits(i: Identity, previous: Identity, linuxDirect: bool, newUuid: Uuid)
    requires i.system.uuid.None? && i.system.serial.None? && Identified(previous)
    requires Materialize(i, Some(previous), linuxDirect, newUuid).Some?
    ensures var m := Materialize(i, Some(previous), linuxDirect, newUuid).value;
      m.system.uuid == previous.system.uuid && m.system.serial == previous.system.serial
      && m.baseboard.None? && m.chassis.None?
  {
  }

  lemma IdentifyQemuInherits(i: Identity, previous: Identity, newUuid: Uuid)
    requires i.preset == Limiar && IdentifiersOf(i) == Identifiers(None, None, None, None)
    requires Identified(previous) && BoardSerial(Some(previous)).Some? && ChassisSerial(Some(previous)).Some?
    requires MaterializeQemu(i, Some(previous), newUuid).Some?
    ensures IdentifiersOf(MaterializeQemu(i, Some(previous), newUuid).value) == IdentifiersOf(previous)
  {
    var p := PreviousBase(Some(previous));
    IdentifyInherits(Type01(i), Type01(previous), true, newUuid);
    DefaultsFixMaterialized(Type01(i), p, newUuid);
    var base := Materialize(Type01(i), p, true, newUuid).value;
    var d := QemuDraft(i, base, Some(previous));
    assert Type01(d) == base;
    QemuDefaultsFixType01(d);
    assert d.baseboard.value.serial == BoardSerial(Some(previous));
    assert d.chassis.value.serial == ChassisSerial(Some(previous));
  }

  /** One update keeps the identifiers. */
  lemma UpdateCarries(p: VmConfig, c: VmConfig, newUuid: Uuid, ids: Identifiers)
    requires Carries(p, ids) && LeavesIdentifiersOpen(c) && SameBackend(p.boot, c.boot)
    requires MaterializeConfig(c, Some(p), newUuid).Some?
    ensures Carries(MaterializeConfig(c, Some(p), newUuid).value, ids)
  {
    var i, previous := c.identity.value, p.identity.value;
    if c.boot.QemuUefi? {
      IdentifyQemuInherits(i, previous, newUuid);
    } else {
      IdentifyInherits(i, previous, c.boot.LinuxDirect?, newUuid);
    }
  }

  /** Registration in the default preset settles every identifier of the backend's tables. */
  lemma RegistrationCarries(c: VmConfig, newUuid: Uuid)
    requires c.identity.Some? && c.identity.value.preset == Limiar
    requires InitialRecord(c, newUuid).Some?
    ensures var p := InitialRecord(c, newUuid).value.profile;
      p.identity.Some? && Carries(p, IdentifiersOf(p.identity.value))
  {
    if c.boot.QemuUefi? {
      DefaultsFixMaterialized(Type01(c.identity.value), None, newUuid);
      var base := Materialize(Type01(c.identity.value), None, true, newUuid).value;
      QemuDefaultsFixType01(QemuDraft(c.identity.value, base, None));
    }
  }

  /** The record after a chain of updates; an update that fails leaves the record alone. */
  function AfterUpdates(r: Record, updates: seq<Update>): Record {
    if updates == [] then r else
      var before := AfterUpdates(r, updates[..|updates| - 1]);
      var last := updates[|updates| - 1];
      UpdatedRecord(before, last.profile, last.newUuid).GetOr(before)
  }

  /** Along any chain of default-preset updates of one backend that leave the identifiers open,
      UUID and serials stay those of registration while the revision counts the updates. */
  lemma {:induction false} IdentifiersPersist(c: VmConfig, newUuid: Uuid, updates: seq<Update>)
    requires ValidConfig(c) && ValidUuid(newUuid) && c.identity.Some? && c.identity.value.preset == Limiar
    requires |updates| < MAX_REVISION
    requires forall u | u in updates ::
      ValidConfig(u.profile) && ValidUuid(u.newUuid) && SameName(u.profile.name, c.name)
      && LeavesIdentifiersOpen(u.profile) && SameBackend(u.profile.boot, c.boot)
    ensures InitialRecord(c, newUuid).Some?
    ensures var first := InitialRecord(c, newUuid).value; var last := AfterUpdates(first, updates);
      && SoundRecord(last, c.name) && last.revision == 1 + |updates|
      && first.profile.identity.Some? && last.profile.identity.Some?
      && IdentifiersOf(last.profile.identity.value) == IdentifiersOf(first.profile.identity.value)
      && Carries(last.profile, IdentifiersOf(first.profile.identity.value))
      && SameBackend(last.profile.boot, c.boot)
    decreases |updates|
  {
    InitialRecordSound(c, newUuid);
    RegistrationCarries(c, newUuid);
    if updates != [] {
      var front, u := updates[..|updates| - 1], updates[|updates| - 1];
      forall x | x in front ensures x in updates {
      }
      IdentifiersPersist(c, newUuid, front);
      var first := InitialRecord(c, newUuid).value;
      var before := AfterUpdates(first, front);
      assert u in updates;
      UpdatedRecordSound(before, u.profile, u.newUuid, c.name);
      UpdateCarries(before.profile, u.profile, u.newUuid, IdentifiersOf(first.profile.identity.value));
      MaterializeConfigTotal(u.profile, Some(before.profile), u.newUuid);
    }
  }
}
