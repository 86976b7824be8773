/** Where the identifiers of a materialised identity come from, one by one: what the profile says,
    else what the previous snapshot had, else something new. A new serial spells half of the
    UUID, so that it reads back as that half. */
module Origins {
  import opened Wrappers
  import opened Text
  import opened Hexadecimal
  import opened Identities

  // ---- Sources ----------------------------------------------------------------------------

  /** What the previous snapshot had in one slot. */
  function Before<T>(previous: Option<Identity>, slot: Identity -> Option<T>): Option<T> {
    match previous
    case Some(i) => slot(i)
    case None => None
  }

  /** The slot holds what was stated, else what was there before, else something new. */
  predicate Settled<T(==)>(stated: Option<T>, before: Option<T>, made: T -> bool, slot: Option<T>) {
    && slot.Some?
    && (stated.Some? ==> slot == stated)
    && (stated.None? && before.Some? ==> slot == before)
    && (stated.None? && before.None? ==> made(slot.value))
  }

  const HALF: nat := 0x1_0000_0000_0000_0000

  predicate UpperHex(c: char) {
    '0' <= c <= '9' || 'A' <= c <= 'F'
  }

  /** A prefix and sixteen upper-case digits that spell a number. */
  predicate Spells(serial: string, prefix: string, number: nat) {
    && |serial| == |prefix| + 16 && serial[..|prefix|] == prefix
    && (forall k | |prefix| <= k < |serial| :: UpperHex(serial[k]))
    && ReadHex(serial[|prefix|..]) == number
  }

  function FromUuid(prefix: string, uuid: Uuid): string -> bool {
    (serial: string) => Spells(serial, prefix, uuid / HALF)
  }

  // ---- Serials ----------------------------------------------------------------------------

  lemma SuffixReads(u: Uuid)
    ensures |SerialSuffix(u)| == 16 && ReadHex(SerialSuffix(u)) == u / HALF
    ensures forall k | 0 <= k < 16 :: UpperHex(SerialSuffix(u)[k])
  {
    var front := HexText(u, 32)[..16];
    Pow16Sixteen();
    HexFront(u, 16, 16);
    HexReadsBack(u / HALF, 16);
    UpperReads(front);
    forall k | 0 <= k < 16 ensures UpperHex(SerialSuffix(u)[k]) {
      assert IsHex(front[k]) by {
        assert front[k] in front;
      }
    }
  }

  lemma SerialSpells(prefix: string, u: Uuid)
    ensures Spells(prefix + SerialSuffix(u), prefix, u / HALF)
  {
    SuffixReads(u);
    var serial := prefix + SerialSuffix(u);
    assert serial[..|prefix|] == prefix && serial[|prefix|..] == SerialSuffix(u);
  }

  // ---- OpenVMM ----------------------------------------------------------------------------

  /** The UUID is the profile's, else the previous snapshot's, else the new one; the serial is the
      profile's, else the previous snapshot's, else it spells the first half of the UUID. */
  predicate SystemSettled(i: Identity, previous: Option<Identity>, newUuid: Uuid, m: System) {
    && Settled(i.system.uuid, Before(previous, (p: Identity) => p.system.uuid), (u: Uuid) => u == newUuid, m.uuid)
    && Settled(i.system.serial, Before(previous, (p: Identity) => p.system.serial), FromUuid("LMR-", m.uuid.value),
               m.serial)
  }

  lemma MaterializeOrigins(i: Identity, previous: Option<Identity>, linuxDirect: bool, newUuid: Uuid)
    requires Materialize(i, previous, linuxDirect, newUuid).Some?
    ensures SystemSettled(i, previous, newUuid, Materialize(i, previous, linuxDirect, newUuid).value.system)
  {
    var m := Materialize(i, previous, linuxDirect, newUuid).value;
    SerialSpells("LMR-", m.system.uuid.value);
  }

  // ---- QEMU -------------------------------------------------------------------------------

  /** The default preset fills an open serial that was never set, a custom identity leaves it. */
  predicate PartSettled(
    preset: Preset, stated: Option<string>, before: Option<string>, prefix: string, uuid: Uuid, slot: Option<string>)
  {
    if preset == Limiar || stated.Some? || before.Some?
    then Settled(stated, before, FromUuid(prefix, uuid), slot)
    else slot.None?
  }

  function BoardSlot(i: Identity): Option<string> {
    match i.baseboard
    case Some(b) => b.serial
    case None => None
  }

  function ChassisSlot(i: Identity): Option<string> {
    match i.chassis
    case Some(c) => c.serial
    case None => None
  }

  predicate BoardSettled(i: Identity, previous: Option<Identity>, m: Identity) {
    && (m.baseboard.Some? <==> i.preset == Limiar || i.baseboard.Some?)
    && m.system.uuid.Some?
    && (m.baseboard.Some? ==>
          PartSettled(i.preset, BoardSlot(i), Before(previous, BoardSlot), "LMR-B-", m.system.uuid.value, BoardSlot(m)))
  }

  predicate ChassisSettled(i: Identity, previous: Option<Identity>, m: Identity) {
    && (m.chassis.Some? <==> i.preset == Limiar || i.chassis.Some?)
    && m.system.uuid.Some?
    && (m.chassis.Some? ==>
          PartSettled(i.preset, ChassisSlot(i), Before(previous, ChassisSlot), "LMR-C-", m.system.uuid.value,
                      ChassisSlot(m)))
  }

  lemma DraftSettles(i: Identity, base: Identity, previous: Option<Identity>)
    requires base.system.uuid.Some? && base.preset == i.preset && base == Type01(base)
    requires ApplyDefaults(base, true) == base
    ensures var m := ApplyQemuDefaults(QemuDraft(i, base, previous));
      m.system == base.system && BoardSettled(i, previous, m) && ChassisSettled(i, previous, m)
  {
    var d := QemuDraft(i, base, previous);
    assert Type01(d) == base;
    QemuDefaultsFixType01(d);
    SerialSpells("LMR-B-", base.system.uuid.value);
    SerialSpells("LMR-C-", base.system.uuid.value);
  }

  lemma MaterializeQemuOrigins(i: Identity, previous: Option<Identity>, newUuid: Uuid)
    requires MaterializeQemu(i, previous, newUuid).Some?
    ensures var m := MaterializeQemu(i, previous, newUuid).value;
      SystemSettled(i, previous, newUuid, m.system) && BoardSettled(i, previous, m) && ChassisSettled(i, previous, m)
  {
    var p := PreviousBase(previous);
    var base := Materialize(Type01(i), p, true, newUuid).value;
    MaterializeOrigins(Type01(i), p, true, newUuid);
    DefaultsFixMaterialized(Type01(i), p, newUuid);
    DraftSettles(i, base, previous);
  }

  // ---- Serials tell UUIDs apart -----------------------------------------------------------

  lemma SpeltSerialsDiffer(a: string, b: string, prefix: string, m: nat, n: nat)
    requires Spells(a, prefix, m) && Spells(b, prefix, n) && m != n
    ensures a != b
  {
  }

  /** Two identities that leave UUID and serial open, given UUIDs that differ in their first 64
      bits, get serials that differ. */
  lemma DefaultSerialsDiffer(i: Identity, j: Identity, linuxDirect: bool, u: Uuid, v: Uuid)
    requires Materialize(i, None, linuxDirect, u).Some? && Materialize(j, None, linuxDirect, v).Some?
    requires i.system.uuid.None? && i.system.serial.None? && j.system.uuid.None? && j.system.serial.None?
    requires u / HALF != v / HALF
    ensures Materialize(i, None, linuxDirect, u).value.system.serial
         != Materialize(j, None, linuxDirect, v).value.system.serial
  {
    MaterializeOrigins(i, None, linuxDirect, u);
    MaterializeOrigins(j, None, linuxDirect, v);
  }

  predicate PartsOpen(i: Identity) {
    && i.preset == Limiar && i.system.uuid.None? && i.system.serial.None?
    && BoardSlot(i).None? && ChassisSlot(i).None?
  }

  /** The same of all three serials of a QEMU machine. */
  lemma DefaultQemuSerialsDiffer(i: Identity, j: Identity, u: Uuid, v: Uuid)
    requires MaterializeQemu(i, None, u).Some? && MaterializeQemu(j, None, v).Some?
    requires PartsOpen(i) && PartsOpen(j) && u / HALF != v / HALF
    ensures var m, n := MaterializeQemu(i, None, u).value, MaterializeQemu(j, None, v).value;
      m.system.serial != n.system.serial && BoardSlot(m) != BoardSlot(n) && ChassisSlot(m) != ChassisSlot(n)
  {
    MaterializeQemuOrigins(i, None, u);
    MaterializeQemuOrigins(j, None, v);
  }

  // ---- Everything else --------------------------------------------------------------------

  /** What the profile states, else the documented default. */
  predicate Chosen(stated: Option<string>, default: string, slot: Option<string>) {
    slot == if stated.Some? then stated else Some(default)
  }

  predicate SystemChosen(i: System, m: System) {
    && Chosen(i.manufacturer, "Limiar", m.manufacturer) && Chosen(i.product, "Limiar One", m.product)
    && Chosen(i.version, "1.0", m.version) && Chosen(i.sku, "LMR-ONE", m.sku)
    && Chosen(i.family, "Limiar Desktop", m.family)
  }

  predicate BiosChosen(i: Bios, m: Bios) {
    && Chosen(i.vendor, "Limiar", m.vendor) && Chosen(i.version, "0.3", m.version)
    && Chosen(i.date, "09/24/2026", m.date) && Chosen(i.release, "0.3", m.release)
  }

  /** A custom identity gets identifiers and nothing else. The default preset fills the system table
      and, for a direct Linux boot, the BIOS table with the documented values. */
  lemma MaterializeFills(i: Identity, previous: Option<Identity>, linuxDirect: bool, newUuid: Uuid)
    requires Materialize(i, previous, linuxDirect, newUuid).Some?
    ensures var m := Materialize(i, previous, linuxDirect, newUuid).value;
      && m.preset == i.preset && m.baseboard.None? && m.chassis.None?
      && (i.preset == Custom || !linuxDirect ==> m.bios == i.bios)
      && (i.preset == Custom ==> m.system.(uuid := i.system.uuid, serial := i.system.serial) == i.system)
      && (i.preset == Limiar ==> SystemChosen(i.system, m.system))
      && (i.preset == Limiar && linuxDirect ==> m.bios.Some? && BiosChosen(i.bios.GetOr(NO_BIOS), m.bios.value))
  {
  }

  predicate BoardChosen(i: Baseboard, m: Baseboard) {
    && Chosen(i.manufacturer, "Limiar", m.manufacturer) && Chosen(i.product, "Limiar Mainboard", m.product)
    && Chosen(i.version, "1.0", m.version) && Chosen(i.asset, "LMR-BOARD", m.asset)
    && Chosen(i.location, "Mainboard", m.location)
  }

  predicate ChassisChosen(i: Chassis, m: Chassis) {
    && Chosen(i.manufacturer, "Limiar", m.manufacturer) && Chosen(i.version, "Limiar Desktop", m.version)
    && Chosen(i.asset, "LMR-CHASSIS", m.asset) && Chosen(i.sku, "LMR-DESKTOP", m.sku)
  }

  predicate PartsKept(i: Identity, m: Identity) {
    && (i.baseboard.None? ==> m.baseboard.None?) && (i.chassis.None? ==> m.chassis.None?)
    && (i.baseboard.Some? ==> m.baseboard.Some? && m.baseboard.value.(serial := BoardSlot(i)) == i.baseboard.value)
    && (i.chassis.Some? ==> m.chassis.Some? && m.chassis.value.(serial := ChassisSlot(i)) == i.chassis.value)
  }

  predicate PartsChosen(i: Identity, m: Identity) {
    && m.baseboard.Some? && BoardChosen(i.baseboard.GetOr(NO_BOARD), m.baseboard.value)
    && m.chassis.Some? && ChassisChosen(i.chassis.GetOr(NO_CHASSIS), m.chassis.value)
  }

  lemma DraftFills(i: Identity, base: Identity, previous: Option<Identity>)
    requires base.preset == i.preset && base == Type01(base) && ApplyDefaults(base, true) == base
    ensures var m := ApplyQemuDefaults(QemuDraft(i, base, previous));
      && m.preset == i.preset && m.system == base.system && m.bios == base.bios
      && if i.preset == Custom then PartsKept(i, m) else PartsChosen(i, m)
  {
    assert Type01(QemuDraft(i, base, previous)) == base;
    QemuDefaultsFixType01(QemuDraft(i, base, previous));
  }

  /** The same of a QEMU identity, whose four tables all count as a direct Linux boot's. */
  lemma MaterializeQemuFills(i: Identity, previous: Option<Identity>, newUuid: Uuid)
    requires MaterializeQemu(i, previous, newUuid).Some?
    ensures var m := MaterializeQemu(i, previous, newUuid).value;
      && m.preset == i.preset
      && (i.preset == Custom ==>
            && m.bios == i.bios && m.system.(uuid := i.system.uuid, serial := i.system.serial) == i.system
            && PartsKept(i, m))
      && (i.preset == Limiar ==>
            && SystemChosen(i.system, m.system)
            && m.bios.Some? && BiosChosen(i.bios.GetOr(NO_BIOS), m.bios.value)
            && PartsChosen(i, m))
  {
    var p := PreviousBase(previous);
    MaterializeFills(Type01(i), p, true, newUuid);
    DefaultsFixMaterialized(Type01(i), p, newUuid);
    DraftFills(i, Materialize(Type01(i), p, true, newUuid).value, previous);
  }
}
