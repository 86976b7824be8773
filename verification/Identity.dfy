/** The guest identity of a profile: which values are accepted, and how the defaults and the
    persistent identifiers are filled in once, when the profile is registered or updated.
    The Rust code edits the fields of an exclusively owned struct; here each edit yields a
    new value. */
module Identities {
  import opened Wrappers
  import opened Text

  type Uuid = u: nat | u < 0x1_0000_0000_0000_0000_0000_0000_0000_0000

  datatype Preset = Limiar | Custom

  datatype System = System(
    manufacturer: Option<string>, product: Option<string>, version: Option<string>,
    serial: Option<string>, uuid: Option<Uuid>, sku: Option<string>, family: Option<string>)

  datatype Bios = Bios(
    vendor: Option<string>, version: Option<string>, date: Option<string>, release: Option<string>)

  datatype Baseboard = Baseboard(
    manufacturer: Option<string>, product: Option<string>, version: Option<string>,
    serial: Option<string>, asset: Option<string>, location: Option<string>)

  datatype Chassis = Chassis(
    manufacturer: Option<string>, version: Option<string>,
    serial: Option<string>, asset: Option<string>, sku: Option<string>)

  datatype Identity = Identity(
    preset: Preset, system: System, bios: Option<Bios>,
    baseboard: Option<Baseboard>, chassis: Option<Chassis>)

  const NO_BIOS := Bios(None, None, None, None)
  const NO_BOARD := Baseboard(None, None, None, None, None, None)
  const NO_CHASSIS := Chassis(None, None, None, None, None)

  // ---- What a profile may say -------------------------------------------------------------

  /** A printable byte that is no delimiter of an option string. */
  predicate PlainChar(c: char) {
    ' ' <= c <= '~' && c != ',' && c != '='
  }

  /** 1..64 printable bytes without ',' or '=' and without surrounding whitespace; among
      printable bytes only the space is whitespace. */
  predicate ValidText(v: string) {
    && 1 <= |v| <= 64
    && v[0] != ' ' && v[|v| - 1] != ' '
    && forall k | 0 <= k < |v| :: PlainChar(v[k])
  }

  predicate ValidSlot(v: Option<string>) {
    v.Some? ==> ValidText(v.value)
  }

  predicate IsLeap(year: nat) {
    year % 4 == 0 && (year % 100 != 0 || year % 400 == 0)
  }

  function DaysIn(month: nat, year: nat): nat
    requires 1 <= month <= 12
  {
    if month == 2 then (if IsLeap(year) then 29 else 28)
    else if month in {4, 6, 9, 11} then 30
    else 31
  }

  predicate CalendarDate(month: nat, day: nat, year: nat) {
    1900 <= year <= 9999 && 1 <= month <= 12 && 1 <= day <= DaysIn(month, year)
  }

  predicate ValidDate(date: string) {
    && |date| == 10 && date[2] == '/' && date[5] == '/'
    && AllDigits(date[0..2]) && AllDigits(date[3..5]) && AllDigits(date[6..10])
    && CalendarDate(DigitsValue(date[0..2]), DigitsValue(date[3..5]), DigitsValue(date[6..10]))
  }

  /** MAJOR.MINOR, each a decimal number of at most 255; leading zeros are accepted. */
  predicate ValidRelease(release: string) {
    match SplitOnce(release, '.')
    case None => false
    case Some(Pair(major, minor)) => ValidByte(major) && ValidByte(minor)
  }

  predicate ValidByte(part: string) {
    part != "" && AllDigits(part) && DigitsValue(part) <= 255
  }

  predicate ValidUuid(u: Uuid) {
    0 < u < 0xffff_ffff_ffff_ffff_ffff_ffff_ffff_ffff
  }

  predicate ValidSystem(s: System) {
    && ValidSlot(s.manufacturer) && ValidSlot(s.product) && ValidSlot(s.version)
    && ValidSlot(s.serial) && ValidSlot(s.sku) && ValidSlot(s.family)
    && (s.uuid.Some? ==> ValidUuid(s.uuid.value))
  }

  predicate ValidBios(b: Bios) {
    && ValidSlot(b.vendor) && ValidSlot(b.version) && ValidSlot(b.date) && ValidSlot(b.release)
    && (b.date.Some? ==> ValidDate(b.date.value))
    && (b.release.Some? ==> ValidRelease(b.release.value))
  }

  predicate ValidBoard(b: Baseboard) {
    && ValidSlot(b.manufacturer) && ValidSlot(b.product) && ValidSlot(b.version)
    && ValidSlot(b.serial) && ValidSlot(b.asset) && ValidSlot(b.location)
  }

  predicate ValidChassis(c: Chassis) {
    && ValidSlot(c.manufacturer) && ValidSlot(c.version)
    && ValidSlot(c.serial) && ValidSlot(c.asset) && ValidSlot(c.sku)
  }

  /** The OpenVMM backends accept Type 1, and Type 0 only for a direct Linux boot. */
  predicate Valid(i: Identity, linuxDirect: bool) {
    && i.baseboard.None? && i.chassis.None?
    && ValidSystem(i.system)
    && (i.bios.Some? ==> linuxDirect && ValidBios(i.bios.value))
    && (i.preset == Custom ==> i.system.manufacturer.Some? && i.system.product.Some?)
  }

  function Type01(i: Identity): Identity {
    i.(baseboard := None, chassis := None)
  }

  predicate ValidQemu(i: Identity) {
    && Valid(Type01(i), true)
    && (i.baseboard.Some? ==> ValidBoard(i.baseboard.value))
    && (i.chassis.Some? ==> ValidChassis(i.chassis.value))
  }

  // ---- Defaults ---------------------------------------------------------------------------

  function OrElse(slot: Option<string>, value: string): Option<string> {
    if slot.Some? then slot else Some(value)
  }

  function ApplyDefaults(i: Identity, linuxDirect: bool): Identity {
    if i.preset != Limiar then i else
      i.(system := DefaultSystem(i.system),
         bios := if linuxDirect then Some(DefaultBios(i.bios.GetOr(NO_BIOS))) else i.bios)
  }

  function DefaultSystem(s: System): System {
    s.(manufacturer := OrElse(s.manufacturer, "Limiar"), product := OrElse(s.product, "Limiar One"),
       version := OrElse(s.version, "1.0"), sku := OrElse(s.sku, "LMR-ONE"),
       family := OrElse(s.family, "Limiar Desktop"))
  }

  function DefaultBios(b: Bios): Bios {
    Bios(OrElse(b.vendor, "Limiar"), OrElse(b.version, "0.3"),
         OrElse(b.date, "09/24/2026"), OrElse(b.release, "0.3"))
  }

  /** The first sixteen hexadecimal digits of a UUID, in upper case. */
  function SerialSuffix(u: Uuid): string {
    Upper(HexText(u, 32)[..16])
  }

  function ApplyQemuDefaults(i: Identity): Identity {
    var d := ApplyDefaults(i, true);
    if d.preset != Limiar then d else
      d.(baseboard := Some(DefaultBoard(d.baseboard.GetOr(NO_BOARD), d.system.uuid)),
         chassis := Some(DefaultChassis(d.chassis.GetOr(NO_CHASSIS), d.system.uuid)))
  }

  function DefaultBoard(b: Baseboard, uuid: Option<Uuid>): Baseboard {
    Baseboard(
      OrElse(b.manufacturer, "Limiar"), OrElse(b.product, "Limiar Mainboard"), OrElse(b.version, "1.0"),
      if uuid.Some? then OrElse(b.serial, "LMR-B-" + SerialSuffix(uuid.value)) else b.serial,
      OrElse(b.asset, "LMR-BOARD"), OrElse(b.location, "Mainboard"))
  }

  function DefaultChassis(c: Chassis, uuid: Option<Uuid>): Chassis {
    Chassis(
      OrElse(c.manufacturer, "Limiar"), OrElse(c.version, "Limiar Desktop"),
      if uuid.Some? then OrElse(c.serial, "LMR-C-" + SerialSuffix(uuid.value)) else c.serial,
      OrElse(c.asset, "LMR-CHASSIS"), OrElse(c.sku, "LMR-DESKTOP"))
  }

  // ---- Materialisation --------------------------------------------------------------------

  function First<T>(a: Option<T>, b: Option<T>): Option<T> {
    if a.Some? then a else b
  }

  function PreviousUuid(previous: Option<Identity>): Option<Uuid> {
    if previous.Some? then previous.value.system.uuid else None
  }

  function PreviousSerial(previous: Option<Identity>): Option<string> {
    if previous.Some? then previous.value.system.serial else None
  }

  /** Fill in the UUID and the serial: what the profile says, else what the previous snapshot
      had, else a new one. newUuid is the UUID the random generator would return. */
  function Identify(d: Identity, previous: Option<Identity>, newUuid: Uuid): Identity {
    var uuid := First(d.system.uuid, PreviousUuid(previous)).GetOr(newUuid);
    var serial := First(d.system.serial, PreviousSerial(previous)).GetOr("LMR-" + SerialSuffix(uuid));
    d.(system := d.system.(uuid := Some(uuid), serial := Some(serial)))
  }

  /** None is a rejected identity. */
  function Materialize(i: Identity, previous: Option<Identity>, linuxDirect: bool, newUuid: Uuid): Option<Identity> {
    if !Valid(i, linuxDirect) then None else
      var m := Identify(ApplyDefaults(i, linuxDirect), previous, newUuid);
      if Valid(m, linuxDirect) then Some(m) else None
  }

  function BoardSerial(previous: Option<Identity>): Option<string> {
    if previous.Some? && previous.value.baseboard.Some? then previous.value.baseboard.value.serial else None
  }

  function ChassisSerial(previous: Option<Identity>): Option<string> {
    if previous.Some? && previous.value.chassis.Some? then previous.value.chassis.value.serial else None
  }

  function InheritBoard(i: Identity, previous: Option<Identity>): Option<Baseboard> {
    if i.preset == Limiar || i.baseboard.Some? then
      var b := i.baseboard.GetOr(NO_BOARD);
      Some(b.(serial := First(b.serial, BoardSerial(previous))))
    else None
  }

  function InheritChassis(i: Identity, previous: Option<Identity>): Option<Chassis> {
    if i.preset == Limiar || i.chassis.Some? then
      var c := i.chassis.GetOr(NO_CHASSIS);
      Some(c.(serial := First(c.serial, ChassisSerial(previous))))
    else None
  }

  /** The identity after its Type 0 and 1 tables are settled and its persistent board and
      chassis serials inherited, before the remaining defaults. */
  function QemuDraft(i: Identity, base: Identity, previous: Option<Identity>): Identity {
    i.(system := base.system, bios := base.bios,
       baseboard := InheritBoard(i, previous), chassis := InheritChassis(i, previous))
  }

  function PreviousBase(previous: Option<Identity>): Option<Identity> {
    if previous.Some? then Some(Type01(previous.value)) else None
  }

  function MaterializeQemu(i: Identity, previous: Option<Identity>, newUuid: Uuid): Option<Identity> {
    if !ValidQemu(i) then None else
      var base :- Materialize(Type01(i), PreviousBase(previous), true, newUuid);
      var m := ApplyQemuDefaults(QemuDraft(i, base, previous));
      if ValidQemu(m) then Some(m) else None
  }

  // ---- Validity of what is filled in ------------------------------------------------------

  lemma DefaultSystemIsValid(s: System)
    requires ValidSystem(s)
    ensures ValidSystem(DefaultSystem(s))
  {
    assert ValidText("Limiar") && ValidText("Limiar One") && ValidText("1.0");
    assert ValidText("LMR-ONE") && ValidText("Limiar Desktop");
  }

  lemma DefaultBoardIsValid(b: Baseboard, uuid: Option<Uuid>)
    requires ValidBoard(b)
    ensures ValidBoard(DefaultBoard(b, uuid))
  {
    assert ValidText("Limiar") && ValidText("Limiar Mainboard") && ValidText("1.0");
    assert ValidText("LMR-BOARD") && ValidText("Mainboard");
    if uuid.Some? {
      SerialsAreText(uuid.value);
    }
  }

  lemma DefaultChassisIsValid(c: Chassis, uuid: Option<Uuid>)
    requires ValidChassis(c)
    ensures ValidChassis(DefaultChassis(c, uuid))
  {
    assert ValidText("Limiar") && ValidText("Limiar Desktop");
    assert ValidText("LMR-CHASSIS") && ValidText("LMR-DESKTOP");
    if uuid.Some? {
      SerialsAreText(uuid.value);
    }
  }

  lemma DefaultBiosIsValid(b: Bios)
    requires ValidBios(b)
    ensures ValidBios(DefaultBios(b))
  {
    assert ValidText("Limiar") && ValidText("0.3");
    DefaultDateIsValid();
    DefaultReleaseIsValid();
  }

  lemma TwoDigits(s: string)
    requires |s| == 2 && AllDigits(s)
    ensures DigitsValue(s) == (s[0] as int - '0' as int) * 10 + (s[1] as int - '0' as int)
  {
    assert s[0] in s && s[1] in s;
    assert s[..1] == [s[0]];
    assert s[..1][..0] == "";
    assert DigitsValue(s[..1][..0]) == 0;
    assert DigitsValue(s[..1]) == s[0] as int - '0' as int;
  }

  lemma DefaultDateIsValid()
    ensures ValidText("09/24/2026") && ValidDate("09/24/2026")
  {
    var date := "09/24/2026";
    assert date[0..2] == "09" && date[3..5] == "24" && date[6..10] == "2026";
    TwoDigits("09");
    TwoDigits("24");
    TwoDigits("20");
    assert "2026"[..3] == "202" && "202"[..2] == "20";
    assert DigitsValue("202") == 202;
  }

  lemma DefaultReleaseIsValid()
    ensures ValidRelease("0.3")
  {
    assert "0.3" == "0" + ['.'] + "3";
    SplitOnceConcat("0", '.', "3");
    assert "0"[..0] == "" && "3"[..0] == "";
  }

  lemma SuffixIsText(prefix: string, u: Uuid)
    requires ValidText(prefix + "-") && |prefix| <= 40
    ensures ValidText(prefix + "-" + SerialSuffix(u))
  {
    var h := HexText(u, 32);
    var v := prefix + "-" + SerialSuffix(u);
    assert (prefix + "-")[0] == v[0];
    assert h[15] in h && v[|v| - 1] == UpperChar(h[15]);
    forall k | 0 <= k < |v|
      ensures PlainChar(v[k]) && v[k] == if k <= |prefix| then (prefix + "-")[k] else UpperChar(h[k - |prefix| - 1])
    {
      if k > |prefix| {
        assert h[k - |prefix| - 1] in h;
      }
    }
  }

  lemma SerialsAreText(u: Uuid)
    ensures ValidText("LMR-" + SerialSuffix(u))
    ensures ValidText("LMR-B-" + SerialSuffix(u)) && ValidText("LMR-C-" + SerialSuffix(u))
  {
    SuffixIsText("LMR", u);
    SuffixIsText("LMR-B", u);
    SuffixIsText("LMR-C", u);
    assert "LMR" + "-" == "LMR-" && "LMR-B" + "-" == "LMR-B-" && "LMR-C" + "-" == "LMR-C-";
  }

  lemma DefaultsKeepValidity(i: Identity, linuxDirect: bool)
    requires Valid(i, linuxDirect)
    ensures Valid(ApplyDefaults(i, linuxDirect), linuxDirect)
  {
    DefaultSystemIsValid(i.system);
    if i.preset == Limiar && linuxDirect {
      DefaultBiosIsValid(i.bios.GetOr(NO_BIOS));
    }
  }

  lemma QemuDefaultsKeepValidity(i: Identity)
    requires ValidQemu(i)
    ensures ValidQemu(ApplyQemuDefaults(i))
  {
    DefaultsKeepValidity(Type01(i), true);
    DefaultBoardIsValid(i.baseboard.GetOr(NO_BOARD), i.system.uuid);
    DefaultChassisIsValid(i.chassis.GetOr(NO_CHASSIS), i.system.uuid);
  }

  // ---- Main results -----------------------------------------------------------------------

  /** A snapshot whose Type 1 identifiers can be inherited: any identity accepted earlier by
      either backend. */
  predicate Inheritable(previous: Option<Identity>) {
    previous.Some? ==> ValidQemu(previous.value)
  }

  predicate KeepsSlot<T(==)>(before: Option<T>, after: Option<T>) {
    before.Some? ==> after == before
  }

  /** Every value the profile states explicitly survives. */
  predicate KeepsSystem(a: System, b: System) {
    && KeepsSlot(a.manufacturer, b.manufacturer) && KeepsSlot(a.product, b.product)
    && KeepsSlot(a.version, b.version) && KeepsSlot(a.serial, b.serial)
    && KeepsSlot(a.uuid, b.uuid) && KeepsSlot(a.sku, b.sku) && KeepsSlot(a.family, b.family)
  }

  predicate KeepsBios(a: Option<Bios>, b: Option<Bios>) {
    a.Some? ==>
      && b.Some?
      && KeepsSlot(a.value.vendor, b.value.vendor) && KeepsSlot(a.value.version, b.value.version)
      && KeepsSlot(a.value.date, b.value.date) && KeepsSlot(a.value.release, b.value.release)
  }

  predicate KeepsBoard(a: Option<Baseboard>, b: Option<Baseboard>) {
    a.Some? ==>
      && b.Some?
      && KeepsSlot(a.value.manufacturer, b.value.manufacturer) && KeepsSlot(a.value.product, b.value.product)
      && KeepsSlot(a.value.version, b.value.version) && KeepsSlot(a.value.serial, b.value.serial)
      && KeepsSlot(a.value.asset, b.value.asset) && KeepsSlot(a.value.location, b.value.location)
  }

  predicate KeepsChassis(a: Option<Chassis>, b: Option<Chassis>) {
    a.Some? ==>
      && b.Some?
      && KeepsSlot(a.value.manufacturer, b.value.manufacturer) && KeepsSlot(a.value.version, b.value.version)
      && KeepsSlot(a.value.serial, b.value.serial) && KeepsSlot(a.value.asset, b.value.asset)
      && KeepsSlot(a.value.sku, b.value.sku)
  }

  predicate Extends(i: Identity, m: Identity) {
    && m.preset == i.preset
    && KeepsSystem(i.system, m.system) && KeepsBios(i.bios, m.bios)
    && KeepsBoard(i.baseboard, m.baseboard) && KeepsChassis(i.chassis, m.chassis)
  }

  predicate Identified(m: Identity) {
    m.system.uuid.Some? && m.system.serial.Some?
  }

  /** Materialising an accepted identity never fails, yields an accepted and identified one,
      and keeps everything the profile said. */
  lemma MaterializeTotal(i: Identity, previous: Option<Identity>, linuxDirect: bool, newUuid: Uuid)
    requires Valid(i, linuxDirect) && Inheritable(previous) && ValidUuid(newUuid)
    ensures Materialize(i, previous, linuxDirect, newUuid).Some?
    ensures var m := Materialize(i, previous, linuxDirect, newUuid).value;
      Valid(m, linuxDirect) && Identified(m) && Extends(i, m)
  {
    DefaultsKeepValidity(i, linuxDirect);
    var d := ApplyDefaults(i, linuxDirect);
    SerialsAreText(First(d.system.uuid, PreviousUuid(previous)).GetOr(newUuid));
  }

  /** A materialised identity is a fixed point: no previous snapshot and no new UUID can
      change it again. */
  lemma MaterializeStable(
    i: Identity, previous: Option<Identity>, linuxDirect: bool, newUuid: Uuid,
    laterPrevious: Option<Identity>, laterUuid: Uuid)
    requires Materialize(i, previous, linuxDirect, newUuid).Some?
    ensures var m := Materialize(i, previous, linuxDirect, newUuid);
      Materialize(m.value, laterPrevious, linuxDirect, laterUuid) == m
  {
  }

  lemma QemuDraftExtends(i: Identity, base: Identity, previous: Option<Identity>)
    requires ValidQemu(i) && Inheritable(previous)
    requires Valid(base, true) && Identified(base) && Extends(Type01(i), base)
    ensures var d := QemuDraft(i, base, previous); ValidQemu(d) && Identified(d) && Extends(i, d)
  {
  }

  lemma QemuDefaultsExtend(i: Identity)
    ensures Extends(i, ApplyQemuDefaults(i))
    ensures Identified(i) ==> Identified(ApplyQemuDefaults(i))
  {
  }

  lemma ExtendsTransitive(a: Identity, b: Identity, c: Identity)
    requires Extends(a, b) && Extends(b, c)
    ensures Extends(a, c)
  {
  }

  lemma MaterializeQemuTotal(i: Identity, previous: Option<Identity>, newUuid: Uuid)
    requires ValidQemu(i) && Inheritable(previous) && ValidUuid(newUuid)
    ensures MaterializeQemu(i, previous, newUuid).Some?
    ensures var m := MaterializeQemu(i, previous, newUuid).value;
      ValidQemu(m) && Identified(m) && Extends(i, m)
  {
    MaterializeTotal(Type01(i), PreviousBase(previous), true, newUuid);
    var base := Materialize(Type01(i), PreviousBase(previous), true, newUuid).value;
    QemuDraftExtends(i, base, previous);
    var d := QemuDraft(i, base, previous);
    QemuDefaultsKeepValidity(d);
    QemuDefaultsExtend(d);
    ExtendsTransitive(i, d, ApplyQemuDefaults(d));
  }

  lemma DefaultsFixMaterialized(i: Identity, previous: Option<Identity>, newUuid: Uuid)
    requires Materialize(i, previous, true, newUuid).Some?
    ensures var m := Materialize(i, previous, true, newUuid).value;
      ApplyDefaults(m, true) == m && m.preset == i.preset && m == Type01(m)
  {
  }

  lemma QemuDefaultsFixType01(d: Identity)
    requires ApplyDefaults(Type01(d), true) == Type01(d)
    ensures Type01(ApplyQemuDefaults(d)) == Type01(d)
    ensures d.preset == Custom ==> ApplyQemuDefaults(d) == d
  {
  }

  lemma QemuDefaultsIdempotent(d: Identity)
    requires ApplyDefaults(Type01(d), true) == Type01(d) && Identified(d)
    ensures ApplyQemuDefaults(ApplyQemuDefaults(d)) == ApplyQemuDefaults(d)
  {
    QemuDefaultsFixType01(d);
    var m := ApplyQemuDefaults(d);
    if d.preset == Limiar {
      assert m.baseboard == Some(DefaultBoard(d.baseboard.GetOr(NO_BOARD), d.system.uuid));
      assert m.chassis == Some(DefaultChassis(d.chassis.GetOr(NO_CHASSIS), d.system.uuid));
      assert ApplyDefaults(m, true) == m;
    }
  }

  /** Inheriting a second time from the same snapshot finds nothing left to inherit. */
  lemma InheritTwice(i: Identity, base: Identity, previous: Option<Identity>)
    requires Identified(base) && base.preset == i.preset
    requires ApplyDefaults(Type01(base), true) == Type01(base)
    ensures var d := QemuDraft(i, base, previous); var m := ApplyQemuDefaults(d);
      QemuDraft(m, base, previous) == m
  {
    var d := QemuDraft(i, base, previous);
    assert Type01(d) == Type01(base);
    QemuDefaultsFixType01(d);
    var m := ApplyQemuDefaults(d);
    assert m.system == base.system && m.bios == base.bios;
  }

  /** For the QEMU tables the fixed point is relative to one previous snapshot: a custom
      identity may leave a board serial open, to be inherited later. */
  lemma MaterializeQemuStable(i: Identity, previous: Option<Identity>, newUuid: Uuid, laterUuid: Uuid)
    requires MaterializeQemu(i, previous, newUuid).Some?
    ensures var m := MaterializeQemu(i, previous, newUuid);
      MaterializeQemu(m.value, previous, laterUuid) == m
  {
    var p := PreviousBase(previous);
    var base := Materialize(Type01(i), p, true, newUuid).value;
    var d := QemuDraft(i, base, previous);
    DefaultsFixMaterialized(Type01(i), p, newUuid);
    MaterializeStable(Type01(i), p, true, newUuid, p, laterUuid);
    assert Type01(d) == base;
    QemuDefaultsFixType01(d);
    InheritTwice(i, base, previous);
    QemuDefaultsIdempotent(d);
  }
}
