/** Printing a guest identity as SMBIOS options (DMTF DSP0134, sections 7.1 to 7.4, for the
    tables of type 0 to 3) together with the DMI values the guest is expected to report, and
    the proof that the printed options can be read back without ambiguity. */
module Smbios {
  import opened Wrappers
  import opened Text
  import opened Identities

  /** For one table, the option names in printing order with the DMI field each one feeds. */
  type Schema = seq<Pair<string, string>>

  function SystemSchema(): Schema {
    [Pair("manufacturer", "sys_vendor"), Pair("product", "product_name"),
     Pair("version", "product_version"), Pair("serial", "product_serial"),
     Pair("sku", "product_sku"), Pair("family", "product_family"), Pair("uuid", "product_uuid")]
  }

  function BiosSchema(): Schema {
    [Pair("vendor", "bios_vendor"), Pair("version", "bios_version"),
     Pair("date", "bios_date"), Pair("release", "bios_release")]
  }

  function BoardSchema(): Schema {
    [Pair("manufacturer", "board_vendor"), Pair("product", "board_name"),
     Pair("version", "board_version"), Pair("serial", "board_serial"),
     Pair("asset", "board_asset_tag"), Pair("location", "board_location")]
  }

  function ChassisSchema(): Schema {
    [Pair("manufacturer", "chassis_vendor"), Pair("version", "chassis_version"),
     Pair("serial", "chassis_serial"), Pair("asset", "chassis_asset_tag"), Pair("sku", "chassis_sku")]
  }

  function SchemaOf(kind: string): Schema {
    if kind == "0" then BiosSchema()
    else if kind == "1" then SystemSchema()
    else if kind == "2" then BoardSchema()
    else if kind == "3" then ChassisSchema()
    else []
  }

  /** The hyphenated lower-case spelling of a UUID. */
  function UuidText(u: Uuid): string {
    var h := HexText(u, 32);
    h[..8] + "-" + h[8..12] + "-" + h[12..16] + "-" + h[16..20] + "-" + h[20..]
  }

  function SystemValues(s: System): seq<Option<string>> {
    [s.manufacturer, s.product, s.version, s.serial, s.sku, s.family,
     if s.uuid.Some? then Some(UuidText(s.uuid.value)) else None]
  }

  function BiosValues(b: Bios): seq<Option<string>> {
    [b.vendor, b.version, b.date, b.release]
  }

  function BoardValues(b: Baseboard): seq<Option<string>> {
    [b.manufacturer, b.product, b.version, b.serial, b.asset, b.location]
  }

  function ChassisValues(c: Chassis): seq<Option<string>> {
    [c.manufacturer, c.version, c.serial, c.asset, c.sku]
  }

  // ---- Printing ---------------------------------------------------------------------------

  /** The option/value pairs that are set, in schema order. */
  function Options(schema: Schema, values: seq<Option<string>>): seq<Pair<string, string>>
    requires |schema| == |values|
  {
    if schema == [] then [] else OptionOf(schema[0], values[0]) + Options(schema[1..], values[1..])
  }

  function OptionOf(field: Pair<string, string>, value: Option<string>): seq<Pair<string, string>> {
    if value.Some? then [Pair(field.first, value.value)] else []
  }

  function Piece(option: Pair<string, string>): string {
    option.first + "=" + option.second
  }

  function Pieces(options: seq<Pair<string, string>>): (pieces: seq<string>)
    ensures |pieces| == |options|
  {
    if options == [] then [] else [Piece(options[0])] + Pieces(options[1..])
  }

  function OptionText(options: seq<Pair<string, string>>): string
    requires |options| > 0
  {
    Join(Pieces(options), ',')
  }

  function TableText(kind: string, options: seq<Pair<string, string>>): string {
    Join(["type=" + kind] + Pieces(options), ',')
  }

  /** Firmware reports the release as two plain numbers, without leading zeros. */
  function ReportedRelease(release: string): string {
    match SplitOnce(release, '.')
    case None => release
    case Some(Pair(major, minor)) =>
      if AllDigits(major) && AllDigits(minor)
      then NatText(DigitsValue(major)) + "." + NatText(DigitsValue(minor))
      else release
  }

  function Reported(option: string, value: string): string {
    if option == "release" then ReportedRelease(value) else value
  }

  function Expect(expected: map<string, string>, schema: Schema, values: seq<Option<string>>): map<string, string>
    requires |schema| == |values|
    decreases |schema|
  {
    if schema == [] then expected else
      Expect(
        if values[0].Some?
        then expected[schema[0].second := Reported(schema[0].first, values[0].value)]
        else expected,
        schema[1..], values[1..])
  }

  datatype IdentityPlan = IdentityPlan(preset: Preset, requiresRegistration: bool, expected: map<string, string>)

  datatype Planned = Planned(plan: IdentityPlan, arguments: seq<string>)

  function TableArguments(flag: string, kind: string, options: seq<Pair<string, string>>): seq<string> {
    if options == [] then [] else [flag, TableText(kind, options)]
  }

  /** The OpenVMM options of an identity whose defaults are filled in: the system table
      always, the BIOS table when it sets something. */
  function PlanOf(e: Identity): Planned {
    var system := Expect(map[], SystemSchema(), SystemValues(e.system));
    var arguments := ["--smbios", TableText("1", Options(SystemSchema(), SystemValues(e.system)))];
    if e.bios.None? then Planned(IdentityPlan(e.preset, !Identified(e), system), arguments)
    else
      var values := BiosValues(e.bios.value);
      Planned(
        IdentityPlan(e.preset, !Identified(e), Expect(system, BiosSchema(), values)),
        arguments + TableArguments("--smbios", "0", Options(BiosSchema(), values)))
  }

  function Plan(i: Identity, linuxDirect: bool): Option<Planned> {
    if Valid(i, linuxDirect) then Some(PlanOf(ApplyDefaults(i, linuxDirect))) else None
  }

  /** QEMU spells the flag with one dash, and its firmware table must claim UEFI. */
  function QemuFlags(arguments: seq<string>): seq<string> {
    if arguments == [] then [] else
      [if arguments[0] == "--smbios" then "-smbios" else arguments[0]] + QemuFlags(arguments[1..])
  }

  function ClaimUefi(arguments: seq<string>): seq<string> {
    if |arguments| < 2 then arguments else
      [arguments[0], if StartsWith(arguments[1], "type=0,") then arguments[1] + ",uefi=on" else arguments[1]]
      + ClaimUefi(arguments[2..])
  }

  predicate HasBios(arguments: seq<string>) {
    |arguments| >= 2 && (StartsWith(arguments[1], "type=0,") || HasBios(arguments[2..]))
  }

  function PlanQemu(i: Identity): Option<Planned> {
    if !ValidQemu(i) then None else
      var e := ApplyQemuDefaults(i);
      var base :- Plan(Type01(e), true);
      var flags := QemuFlags(base.arguments);
      var firmware := ClaimUefi(flags) + (if HasBios(flags) then [] else ["-smbios", "type=0,uefi=on"]);
      var withBoard := if e.baseboard.None? then Planned(base.plan, firmware)
        else AppendTable(base.plan, firmware, "2", BoardSchema(), BoardValues(e.baseboard.value));
      Some(if e.chassis.None? then withBoard
        else AppendTable(withBoard.plan, withBoard.arguments, "3", ChassisSchema(), ChassisValues(e.chassis.value)))
  }

  function AppendTable(
    plan: IdentityPlan, arguments: seq<string>, kind: string, schema: Schema, values: seq<Option<string>>): Planned
    requires |schema| == |values|
  {
    Planned(plan.(expected := Expect(plan.expected, schema, values)),
            arguments + TableArguments("-smbios", kind, Options(schema, values)))
  }

  lemma PiecesConcat(a: seq<Pair<string, string>>, b: seq<Pair<string, string>>)
    ensures Pieces(a + b) == Pieces(a) + Pieces(b)
  {
    if a == [] {
      assert a + b == b;
    } else {
      assert (a + b)[1..] == a[1..] + b;
      PiecesConcat(a[1..], b);
    }
  }

  lemma {:induction false} OptionsConcat(
    s: Schema, v: seq<Option<string>>, pair: Pair<string, string>, value: Option<string>)
    requires |s| == |v|
    ensures Options(s + [pair], v + [value]) == Options(s, v) + Options([pair], [value])
    decreases |s|
  {
    if s == [] {
      assert s + [pair] == [pair] && v + [value] == [value];
    } else {
      assert (s + [pair])[1..] == s[1..] + [pair] && (v + [value])[1..] == v[1..] + [value];
      OptionsConcat(s[1..], v[1..], pair, value);
      Regroup(OptionOf(s[0], v[0]), Options(s[1..], v[1..]), Options([pair], [value]));
    }
  }

  lemma {:induction false} ExpectConcat(
    m: map<string, string>, s: Schema, v: seq<Option<string>>, pair: Pair<string, string>, value: Option<string>)
    requires |s| == |v|
    ensures Expect(m, s + [pair], v + [value]) == Expect(Expect(m, s, v), [pair], [value])
    decreases |s|
  {
    if s == [] {
      assert s + [pair] == [pair] && v + [value] == [value];
    } else {
      assert (s + [pair])[1..] == s[1..] + [pair] && (v + [value])[1..] == v[1..] + [value];
      var n := if v[0].Some? then m[s[0].second := Reported(s[0].first, v[0].value)] else m;
      ExpectConcat(n, s[1..], v[1..], pair, value);
    }
  }

  lemma OneField(field: Pair<string, string>, value: Option<string>)
    ensures Options([field], [value]) == OptionOf(field, value)
    ensures Pieces(OptionOf(field, value)) == if value.Some? then [field.first + "=" + value.value] else []
  {
    assert [field][1..] == [] && [value][1..] == [];
    if value.Some? {
      var options := OptionOf(field, value);
      assert options[1..] == [];
    }
  }

  lemma OneExpected(m: map<string, string>, field: Pair<string, string>, value: Option<string>)
    requires field.first != "release"
    ensures Expect(m, [field], [value]) == if value.Some? then m[field.second := value.value] else m
  {
    assert [field][1..] == [] && [value][1..] == [];
  }

  /** What one more field adds to the options and to the expected values. */
  lemma NextField(expected: map<string, string>, fields: Schema, values: seq<Option<string>>, k: nat)
    requires k < |fields| == |values| && forall f | f in fields :: f.first != "release"
    ensures Pieces(Options(fields[..k + 1], values[..k + 1]))
         == Pieces(Options(fields[..k], values[..k]))
            + if values[k].Some? then [fields[k].first + "=" + values[k].value] else []
    ensures var before := Expect(expected, fields[..k], values[..k]);
      Expect(expected, fields[..k + 1], values[..k + 1])
      == if values[k].Some? then before[fields[k].second := values[k].value] else before
  {
    assert fields[..k + 1] == fields[..k] + [fields[k]] && values[..k + 1] == values[..k] + [values[k]];
    OptionsConcat(fields[..k], values[..k], fields[k], values[k]);
    ExpectConcat(expected, fields[..k], values[..k], fields[k], values[k]);
    PiecesConcat(Options(fields[..k], values[..k]), Options([fields[k]], [values[k]]));
    OneField(fields[k], values[k]);
    OneExpected(Expect(expected, fields[..k], values[..k]), fields[k], values[k]);
  }

  /** The loop of append_qemu_table: one pass over the fields collects the option strings and
      the expected values, and the table is printed only if an option is set. The tables it
      prints hold no release. */
  method AppendQemuTable(
    expected: map<string, string>, arguments: seq<string>, kind: string,
    fields: Schema, values: seq<Option<string>>)
    returns (newExpected: map<string, string>, newArguments: seq<string>)
    requires |fields| == |values|
    requires forall f | f in fields :: f.first != "release"
    ensures newExpected == Expect(expected, fields, values)
    ensures newArguments == arguments + TableArguments("-smbios", kind, Options(fields, values))
  {
    newExpected, newArguments := expected, arguments;
    var printed := ["type=" + kind];
    for k := 0 to |fields|
      invariant newArguments == arguments
      invariant newExpected == Expect(expected, fields[..k], values[..k])
      invariant printed == ["type=" + kind] + Pieces(Options(fields[..k], values[..k]))
    {
      NextField(expected, fields, values, k);
      if values[k].Some? {
        printed := printed + [fields[k].first + "=" + values[k].value];
        newExpected := newExpected[fields[k].second := values[k].value];
      }
    }
    assert fields[..|fields|] == fields && values[..|values|] == values;
    if |printed| > 1 {
      newArguments := newArguments + ["-smbios", Join(printed, ',')];
    }
  }

  // ---- Reading the options back -----------------------------------------------------------

  /** A table as its reader sees it: split on ',', each piece split on its first '='. */
  function ParsePieces(pieces: seq<string>): Option<seq<Pair<string, string>>> {
    if pieces == [] then Some([]) else
      var head :- SplitOnce(pieces[0], '=');
      var tail :- ParsePieces(pieces[1..]);
      Some([head] + tail)
  }

  function ParseTable(text: string): Option<seq<Pair<string, string>>> {
    ParsePieces(Split(text, ','))
  }

  function ParseArguments(arguments: seq<string>, flag: string): Option<seq<seq<Pair<string, string>>>> {
    if arguments == [] then Some([])
    else if |arguments| == 1 || arguments[0] != flag then None
    else
      var head :- ParseTable(arguments[1]);
      var tail :- ParseArguments(arguments[2..], flag);
      Some([head] + tail)
  }

  /** What a guest reports when it is started with these tables. */
  function DmiName(schema: Schema, option: string): Option<string> {
    if schema == [] then None
    else if schema[0].first == option then Some(schema[0].second)
    else DmiName(schema[1..], option)
  }

  function ReportTable(m: map<string, string>, schema: Schema, options: seq<Pair<string, string>>): map<string, string>
    decreases |options|
  {
    if options == [] then m else
      var name := DmiName(schema, options[0].first);
      ReportTable(
        if name.Some? then m[name.value := Reported(options[0].first, options[0].second)] else m,
        schema, options[1..])
  }

  function ReportTables(m: map<string, string>, tables: seq<seq<Pair<string, string>>>): map<string, string>
    decreases |tables|
  {
    if tables == [] then m
    else if tables[0] == [] || tables[0][0].first != "type" then ReportTables(m, tables[1..])
    else ReportTables(ReportTable(m, SchemaOf(tables[0][0].second), tables[0][1..]), tables[1..])
  }

  /** No delimiter can be injected through an option. */
  predicate Clean(option: Pair<string, string>) {
    '=' !in option.first && ',' !in option.first && ',' !in option.second
  }

  predicate AllClean(options: seq<Pair<string, string>>) {
    forall o | o in options :: Clean(o)
  }

  predicate DistinctOptions(options: seq<Pair<string, string>>) {
    forall a, b | 0 <= a < b < |options| :: options[a].first != options[b].first
  }

  lemma {:induction false} ParsePiecesOfOptions(options: seq<Pair<string, string>>)
    requires AllClean(options)
    ensures ParsePieces(Pieces(options)) == Some(options)
    ensures forall p | p in Pieces(options) :: ',' !in p
  {
    if options != [] {
      assert options[0] in options;
      forall o | o in options[1..] ensures Clean(o) {
        assert o in options;
      }
      ParsePiecesOfOptions(options[1..]);
      var o := options[0];
      assert Piece(o) == o.first + ['='] + o.second;
      SplitOnceConcat(o.first, '=', o.second);
      assert [o] + options[1..] == options;
    }
  }

  /** Reading a printed table yields its type and exactly the options that were printed. */
  lemma TableReadsBack(kind: string, options: seq<Pair<string, string>>)
    requires ',' !in kind
    requires AllClean(options)
    ensures ParseTable(TableText(kind, options)) == Some([Pair("type", kind)] + options)
  {
    var all := [Pair("type", kind)] + options;
    assert Piece(all[0]) == "type=" + kind;
    assert all[1..] == options;
    assert Pieces(all) == ["type=" + kind] + Pieces(options);
    ParsePiecesOfOptions(all);
    SplitJoin(Pieces(all), ',');
  }

  /** An option name that cannot be mistaken for the table type or the firmware claim. */
  predicate PlainName(name: string) {
    && (forall k | 0 <= k < |name| :: 'a' <= name[k] <= 'z')
    && name != "type" && name != "uefi"
  }

  predicate CleanSchema(schema: Schema) {
    && DistinctOptions(schema)
    && forall k | 0 <= k < |schema| :: PlainName(schema[k].first)
  }

  predicate CleanValues(values: seq<Option<string>>) {
    forall v | v in values && v.Some? :: ',' !in v.value
  }

  lemma {:induction false} OptionsAreClean(schema: Schema, values: seq<Option<string>>)
    requires |schema| == |values| && CleanSchema(schema) && CleanValues(values)
    ensures AllClean(Options(schema, values)) && DistinctOptions(Options(schema, values))
    ensures forall o | o in Options(schema, values) :: exists k :: 0 <= k < |schema| && schema[k].first == o.first
  {
    if schema != [] {
      forall v | v in values[1..] ensures v in values {
      }
      OptionsAreClean(schema[1..], values[1..]);
      var rest := Options(schema[1..], values[1..]);
      forall o | o in rest
        ensures o.first != schema[0].first && exists k :: 0 <= k < |schema| && schema[k].first == o.first
      {
        var k :| 0 <= k < |schema[1..]| && schema[1..][k].first == o.first;
        assert schema[k + 1].first == o.first;
      }
      assert PlainName(schema[0].first) && values[0] in values;
      var all := Options(schema, values);
      if values[0].Some? {
        assert all == [Pair(schema[0].first, values[0].value)] + rest;
        forall a, b | 0 <= a < b < |all| ensures all[a].first != all[b].first {
          assert all[b] == rest[b - 1] && rest[b - 1] in rest;
        }
      }
    }
  }

  lemma {:induction false} DmiNameFound(schema: Schema, k: nat)
    requires k < |schema| && DistinctOptions(schema)
    ensures DmiName(schema, schema[k].first) == Some(schema[k].second)
  {
    if k > 0 {
      DmiNameFound(schema[1..], k - 1);
    }
  }

  /** What the guest reports from a table's options is what the printer recorded. */
  lemma {:induction false} ReportIsExpected(
    m: map<string, string>, schema: Schema, from: nat, values: seq<Option<string>>)
    requires DistinctOptions(schema) && from <= |schema| && |schema| - from == |values|
    ensures ReportTable(m, schema, Options(schema[from..], values)) == Expect(m, schema[from..], values)
    decreases |values|
  {
    if values != [] {
      var head := schema[from];
      assert schema[from..][0] == head && schema[from..][1..] == schema[from + 1..];
      DmiNameFound(schema, from);
      var rest := Options(schema[from + 1..], values[1..]);
      if values[0].Some? {
        var o := Pair(head.first, values[0].value);
        assert Options(schema[from..], values) == [o] + rest;
        assert ([o] + rest)[1..] == rest;
        ReportIsExpected(m[head.second := Reported(head.first, values[0].value)], schema, from + 1, values[1..]);
      } else {
        assert Options(schema[from..], values) == rest;
        ReportIsExpected(m, schema, from + 1, values[1..]);
      }
    }
  }

  // ---- The printed plan -------------------------------------------------------------------

  lemma SchemasAreDistinct()
    ensures DistinctOptions(BiosSchema()) && DistinctOptions(SystemSchema())
    ensures DistinctOptions(BoardSchema()) && DistinctOptions(ChassisSchema())
  {
    assert "product"[0] == 'p' && "version"[0] == 'v';
    assert "serial"[0] == 's' && "family"[0] == 'f';
  }

  lemma NamesArePlain()
    ensures PlainName("manufacturer") && PlainName("product") && PlainName("version") && PlainName("serial")
    ensures PlainName("sku") && PlainName("family") && PlainName("uuid") && PlainName("asset")
  {
    assert "uuid"[0] == 'u' && "type"[0] == 't' && "uuid"[1] == 'u' && "uefi"[1] == 'e';
  }

  lemma MoreNamesArePlain()
    ensures PlainName("location") && PlainName("vendor") && PlainName("date") && PlainName("release")
  {
    assert "date"[0] == 'd' && "type"[0] == 't' && "uefi"[0] == 'u';
  }

  lemma SchemasAreClean()
    ensures CleanSchema(BiosSchema()) && CleanSchema(SystemSchema())
    ensures CleanSchema(BoardSchema()) && CleanSchema(ChassisSchema())
  {
    SchemasAreDistinct();
    NamesArePlain();
    MoreNamesArePlain();
  }

  lemma UuidTextIsClean(u: Uuid)
    ensures ',' !in UuidText(u)
  {
    var h := HexText(u, 32);
    forall k | 0 <= k < 32 ensures h[k] != ',' {
      assert h[k] in h;
    }
  }

  lemma ValuesAreClean(i: Identity)
    requires ValidSystem(i.system)
    ensures CleanValues(SystemValues(i.system))
  {
    if i.system.uuid.Some? {
      UuidTextIsClean(i.system.uuid.value);
    }
  }

  function Table(kind: string, options: seq<Pair<string, string>>): seq<Pair<string, string>> {
    [Pair("type", kind)] + options
  }

  /** The printed options of one table read back as themselves, name no option twice and make
      the guest report exactly what was recorded. */
  lemma TableIsExact(m: map<string, string>, kind: string, schema: Schema, values: seq<Option<string>>)
    requires ',' !in kind && |values| == |schema|
    requires CleanSchema(schema) && CleanValues(values)
    ensures var options := Options(schema, values);
      && ParseTable(TableText(kind, options)) == Some(Table(kind, options))
      && DistinctOptions(Table(kind, options))
      && ReportTable(m, schema, options) == Expect(m, schema, values)
  {
    var options := Options(schema, values);
    OptionsAreClean(schema, values);
    TableReadsBack(kind, options);
    assert schema[0..] == schema;
    ReportIsExpected(m, schema, 0, values);
    forall a, b | 0 <= a < b < |Table(kind, options)|
      ensures Table(kind, options)[a].first != Table(kind, options)[b].first
    {
      assert options[b - 1] in options;
    }
  }

  predicate AllDistinct(tables: seq<seq<Pair<string, string>>>) {
    forall t | t in tables :: DistinctOptions(t)
  }

  /** The arguments read back as exactly these tables, no table names an option twice, and a
      guest started with them reports exactly the expected values. */
  predicate Unambiguous(p: Planned, flag: string, tables: seq<seq<Pair<string, string>>>) {
    && ParseArguments(p.arguments, flag) == Some(tables)
    && AllDistinct(tables)
    && ReportTables(map[], tables) == p.plan.expected
  }

  function BiosOptions(i: Identity): seq<Pair<string, string>> {
    if i.bios.None? then [] else Options(BiosSchema(), BiosValues(i.bios.value))
  }

  function SystemOptions(i: Identity): seq<Pair<string, string>> {
    Options(SystemSchema(), SystemValues(i.system))
  }

  function OptionalTable(kind: string, options: seq<Pair<string, string>>): seq<seq<Pair<string, string>>> {
    if options == [] then [] else [Table(kind, options)]
  }

  lemma ParseOne(flag: string, text: string)
    requires ParseTable(text).Some?
    ensures ParseArguments([flag, text], flag) == Some([ParseTable(text).value])
  {
    var arguments := [flag, text];
    assert arguments[2..] == [];
    assert ParseArguments(arguments[2..], flag) == Some([]);
    assert [ParseTable(text).value] + [] == [ParseTable(text).value];
    assert ParseArguments(arguments, flag) == Some([ParseTable(arguments[1]).value] + []);
  }

  lemma {:induction false} ParseConcat(a: seq<string>, b: seq<string>, flag: string)
    requires ParseArguments(a, flag).Some? && ParseArguments(b, flag).Some?
    ensures ParseArguments(a + b, flag)
         == Some(ParseArguments(a, flag).value + ParseArguments(b, flag).value)
  {
    if a == [] {
      assert a + b == b;
      assert [] + ParseArguments(b, flag).value == ParseArguments(b, flag).value;
    } else {
      assert (a + b)[2..] == a[2..] + b && (a + b)[0] == a[0] && (a + b)[1] == a[1];
      ParseConcat(a[2..], b, flag);
      var head := ParseTable(a[1]).value;
      var tail := ParseArguments(a[2..], flag).value;
      assert ([head] + tail) + ParseArguments(b, flag).value == [head] + (tail + ParseArguments(b, flag).value);
    }
  }

  lemma {:induction false} ReportConcat(
    m: map<string, string>, a: seq<seq<Pair<string, string>>>, b: seq<seq<Pair<string, string>>>)
    ensures ReportTables(m, a + b) == ReportTables(ReportTables(m, a), b)
    decreases |a|
  {
    if a == [] {
      assert a + b == b;
    } else {
      assert (a + b)[1..] == a[1..] + b;
      var n := if a[0] == [] || a[0][0].first != "type" then m
               else ReportTable(m, SchemaOf(a[0][0].second), a[0][1..]);
      ReportConcat(n, a[1..], b);
    }
  }

  lemma ReportOne(m: map<string, string>, kind: string, options: seq<Pair<string, string>>)
    ensures ReportTables(m, [Table(kind, options)]) == ReportTable(m, SchemaOf(kind), options)
  {
    assert Table(kind, options)[1..] == options;
    assert [Table(kind, options)][1..] == [];
  }

  /** Appending one printed table that reads back exactly to an unambiguous plan. */
  lemma AppendTableUnambiguous(
    p: Planned, flag: string, tables: seq<seq<Pair<string, string>>>,
    kind: string, options: seq<Pair<string, string>>)
    requires Unambiguous(p, flag, tables)
    requires ParseTable(TableText(kind, options)) == Some(Table(kind, options))
    requires DistinctOptions(Table(kind, options))
    ensures Unambiguous(
      Planned(p.plan.(expected := ReportTable(p.plan.expected, SchemaOf(kind), options)),
              p.arguments + [flag, TableText(kind, options)]),
      flag, tables + [Table(kind, options)])
  {
    ParseOne(flag, TableText(kind, options));
    ParseConcat(p.arguments, [flag, TableText(kind, options)], flag);
    ReportConcat(map[], tables, [Table(kind, options)]);
    ReportOne(p.plan.expected, kind, options);
  }

  lemma AppendUnambiguous(
    p: Planned, flag: string, tables: seq<seq<Pair<string, string>>>,
    kind: string, schema: Schema, values: seq<Option<string>>)
    requires Unambiguous(p, flag, tables)
    requires ',' !in kind && SchemaOf(kind) == schema && |values| == |schema|
    requires CleanSchema(schema) && CleanValues(values)
    ensures var options := Options(schema, values);
      Unambiguous(
        Planned(p.plan.(expected := Expect(p.plan.expected, schema, values)),
                p.arguments + TableArguments(flag, kind, options)),
        flag, tables + OptionalTable(kind, options))
  {
    var options := Options(schema, values);
    TableIsExact(p.plan.expected, kind, schema, values);
    if options == [] {
      assert tables + [] == tables;
      assert p.arguments + [] == p.arguments;
    } else {
      AppendTableUnambiguous(p, flag, tables, kind, options);
    }
  }

  /** The part of the plan every backend starts from: the system table alone. */
  function SystemPlan(e: Identity, flag: string): Planned {
    Planned(IdentityPlan(e.preset, !Identified(e), Expect(map[], SystemSchema(), SystemValues(e.system))),
            [flag, TableText("1", SystemOptions(e))])
  }

  lemma SystemPlanUnambiguous(e: Identity, flag: string)
    requires ValidSystem(e.system)
    ensures Unambiguous(SystemPlan(e, flag), flag, [Table("1", SystemOptions(e))])
  {
    SchemasAreClean();
    ValuesAreClean(e);
    TableIsExact(map[], "1", SystemSchema(), SystemValues(e.system));
    ParseOne(flag, TableText("1", SystemOptions(e)));
    ReportOne(map[], "1", SystemOptions(e));
  }

  lemma BiosValuesAreClean(b: Bios)
    requires ValidBios(b)
    ensures CleanValues(BiosValues(b))
  {
  }

  /** What the printed tables must read back as. */
  function PlannedTables(e: Identity): seq<seq<Pair<string, string>>> {
    [Table("1", SystemOptions(e))] + OptionalTable("0", BiosOptions(e))
  }

  lemma PlanOfUnambiguous(e: Identity)
    requires ValidSystem(e.system) && (e.bios.Some? ==> ValidBios(e.bios.value))
    ensures Unambiguous(PlanOf(e), "--smbios", PlannedTables(e))
  {
    var system := [Table("1", SystemOptions(e))];
    SystemPlanUnambiguous(e, "--smbios");
    if e.bios.Some? {
      SchemasAreClean();
      BiosValuesAreClean(e.bios.value);
      AppendUnambiguous(SystemPlan(e, "--smbios"), "--smbios", system, "0", BiosSchema(), BiosValues(e.bios.value));
    } else {
      assert system + [] == system;
    }
  }

  /** The OpenVMM options are unambiguous: read back, they are the system table and, when it
      sets anything, the BIOS table, with exactly the options the identity sets. */
  lemma PlanUnambiguous(i: Identity, linuxDirect: bool)
    requires Valid(i, linuxDirect)
    ensures Plan(i, linuxDirect).Some?
    ensures Unambiguous(
      Plan(i, linuxDirect).value, "--smbios", PlannedTables(ApplyDefaults(i, linuxDirect)))
  {
    DefaultsKeepValidity(i, linuxDirect);
    PlanOfUnambiguous(ApplyDefaults(i, linuxDirect));
  }

  // ---- The QEMU plan ----------------------------------------------------------------------

  const UEFI := Pair("uefi", "on")

  lemma {:induction false} JoinAppend(parts: seq<string>, last: string, sep: char)
    requires |parts| > 0
    ensures Join(parts + [last], sep) == Join(parts, sep) + [sep] + last
  {
    if |parts| == 1 {
      assert (parts + [last])[1..] == [last];
    } else {
      assert (parts + [last])[1..] == parts[1..] + [last];
      JoinAppend(parts[1..], last, sep);
    }
  }

  lemma ClaimedTable(kind: string, options: seq<Pair<string, string>>)
    ensures TableText(kind, options) + ",uefi=on" == TableText(kind, options + [UEFI])
  {
    PiecesConcat(options, [UEFI]);
    assert [UEFI][1..] == [] && Piece(UEFI) == "uefi=on";
    assert Pieces([UEFI]) == ["uefi=on"];
    var parts := ["type=" + kind] + Pieces(options);
    assert ["type=" + kind] + Pieces(options + [UEFI]) == parts + ["uefi=on"];
    JoinAppend(parts, "uefi=on", ',');
    assert [','] + "uefi=on" == ",uefi=on";
  }

  lemma TableTextStarts(kind: string, options: seq<Pair<string, string>>)
    requires |kind| == 1
    ensures |TableText(kind, options)| >= 6 && TableText(kind, options)[5] == kind[0]
    ensures options != [] ==> StartsWith(TableText(kind, options), "type=" + kind + ",")
  {
    var parts := ["type=" + kind] + Pieces(options);
    if options != [] {
      assert parts[1..] == Pieces(options);
      assert TableText(kind, options) == ("type=" + kind) + [','] + Join(Pieces(options), ',');
    }
  }

  lemma FlagsOfOne(system: string)
    requires system != "--smbios"
    ensures QemuFlags(["--smbios", system]) == ["-smbios", system]
  {
    assert ["--smbios", system][1..] == [system] && [system][1..] == [];
    assert QemuFlags([system]) == [system];
  }

  lemma FlagsOfTwo(system: string, bios: string)
    requires system != "--smbios" && bios != "--smbios"
    ensures QemuFlags(["--smbios", system, "--smbios", bios]) == ["-smbios", system, "-smbios", bios]
  {
    var arguments := ["--smbios", system, "--smbios", bios];
    assert arguments[1..] == [system, "--smbios", bios];
    assert arguments[1..][1..] == ["--smbios", bios];
    FlagsOfOne(bios);
    assert QemuFlags(arguments[1..]) == [system, "-smbios", bios];
  }

  lemma ClaimOfOne(flag: string, system: string)
    requires !StartsWith(system, "type=0,")
    ensures ClaimUefi([flag, system]) == [flag, system] && !HasBios([flag, system])
  {
    assert [flag, system][2..] == [];
  }

  lemma ClaimOfTwo(flag: string, system: string, bios: string)
    requires !StartsWith(system, "type=0,") && StartsWith(bios, "type=0,")
    ensures ClaimUefi([flag, system, flag, bios]) == [flag, system, flag, bios + ",uefi=on"]
    ensures HasBios([flag, system, flag, bios])
  {
    var arguments := [flag, system, flag, bios];
    assert arguments[2..] == [flag, bios] && [flag, bios][2..] == [];
    assert ClaimUefi([flag, bios]) == [flag, bios + ",uefi=on"] && HasBios([flag, bios]);
  }

  lemma SystemIsNoFlag(e: Identity)
    ensures TableText("1", SystemOptions(e)) != "--smbios" && !StartsWith(TableText("1", SystemOptions(e)), "type=0,")
  {
    TableTextStarts("1", SystemOptions(e));
    assert "type=0,"[5] == '0';
    assert "type=1"[0] == 't' && "--smbios"[0] == '-';
  }

  lemma BiosIsClaimed(e: Identity)
    requires BiosOptions(e) != []
    ensures TableText("0", BiosOptions(e)) != "--smbios" && StartsWith(TableText("0", BiosOptions(e)), "type=0,")
  {
    TableTextStarts("0", BiosOptions(e));
    assert "type=" + "0" + "," == "type=0,";
    assert "type=0,"[0] == 't' && "--smbios"[0] == '-';
  }

  /** Rewriting the flags and claiming UEFI turns the plan's arguments into QEMU's. */
  lemma QemuFirmwareArguments(e: Identity, arguments: seq<string>)
    requires arguments == ["--smbios", TableText("1", SystemOptions(e))]
                          + TableArguments("--smbios", "0", BiosOptions(e))
    ensures var flags := QemuFlags(arguments);
      ClaimUefi(flags) + (if HasBios(flags) then [] else ["-smbios", "type=0,uefi=on"])
      == ["-smbios", TableText("1", SystemOptions(e)), "-smbios", TableText("0", BiosOptions(e) + [UEFI])]
  {
    var system, bios := TableText("1", SystemOptions(e)), TableText("0", BiosOptions(e));
    SystemIsNoFlag(e);
    ClaimedTable("0", BiosOptions(e));
    if BiosOptions(e) == [] {
      assert arguments == ["--smbios", system];
      FlagsOfOne(system);
      ClaimOfOne("-smbios", system);
      BareTable();
    } else {
      BiosIsClaimed(e);
      assert arguments == ["--smbios", system, "--smbios", bios];
      FlagsOfTwo(system, bios);
      ClaimOfTwo("-smbios", system, bios);
    }
  }

  lemma BareTable()
    ensures TableText("0", []) + ",uefi=on" == "type=0,uefi=on"
  {
    assert TableText("0", []) == "type=0";
  }

  function BoardTables(e: Identity): seq<seq<Pair<string, string>>> {
    if e.baseboard.None? then []
    else OptionalTable("2", Options(BoardSchema(), BoardValues(e.baseboard.value)))
  }

  function ChassisTables(e: Identity): seq<seq<Pair<string, string>>> {
    if e.chassis.None? then []
    else OptionalTable("3", Options(ChassisSchema(), ChassisValues(e.chassis.value)))
  }

  function QemuTables(e: Identity): seq<seq<Pair<string, string>>> {
    FirmwareTables(e) + BoardTables(e) + ChassisTables(e)
  }

  lemma {:induction false} ReportAppend(
    m: map<string, string>, schema: Schema, options: seq<Pair<string, string>>, o: Pair<string, string>)
    requires DmiName(schema, o.first) == None
    ensures ReportTable(m, schema, options + [o]) == ReportTable(m, schema, options)
    decreases |options|
  {
    if options == [] {
      assert options + [o] == [o] && [o][1..] == [];
    } else {
      assert (options + [o])[1..] == options[1..] + [o];
      var name := DmiName(schema, options[0].first);
      var n := if name.Some? then m[name.value := Reported(options[0].first, options[0].second)] else m;
      ReportAppend(n, schema, options[1..], o);
    }
  }

  lemma UefiIsNoBiosField()
    ensures DmiName(BiosSchema(), UEFI.first) == None
  {
    var s := BiosSchema();
    assert "vendor"[0] == 'v' && "uefi"[0] == 'u' && "version"[0] == 'v' && "date"[0] == 'd' && "release"[0] == 'r';
    assert s[1..][1..][1..][1..] == [];
  }

  /** The system and firmware tables QEMU is given, before the board and chassis tables. */
  function FirmwarePlan(e: Identity): Planned {
    Planned(PlanOf(e).plan,
            ["-smbios", TableText("1", SystemOptions(e)), "-smbios", TableText("0", BiosOptions(e) + [UEFI])])
  }

  /** One more option, unknown to the schema and to the other options, changes nothing else. */
  lemma ExtraOptionIsExact(m: map<string, string>, kind: string, schema: Schema,
                           options: seq<Pair<string, string>>, o: Pair<string, string>)
    requires ',' !in kind && AllClean(options) && Clean(o) && DistinctOptions(Table(kind, options))
    requires DmiName(schema, o.first) == None
    requires o.first != "type" && forall p | p in options :: p.first != o.first
    ensures ParseTable(TableText(kind, options + [o])) == Some(Table(kind, options + [o]))
    ensures DistinctOptions(Table(kind, options + [o]))
    ensures ReportTable(m, schema, options + [o]) == ReportTable(m, schema, options)
  {
    TableReadsBack(kind, options + [o]);
    ReportAppend(m, schema, options, o);
    var all := Table(kind, options + [o]);
    assert all == Table(kind, options) + [o];
    forall a, b | 0 <= a < b < |all| ensures all[a].first != all[b].first {
      if b == |all| - 1 && 0 < a {
        assert all[a] == options[a - 1] && options[a - 1] in options;
      }
    }
  }

  lemma ClaimedTableIsExact(m: map<string, string>, e: Identity)
    requires e.bios.Some? ==> ValidBios(e.bios.value)
    ensures var options := BiosOptions(e) + [UEFI];
      && ParseTable(TableText("0", options)) == Some(Table("0", options))
      && DistinctOptions(Table("0", options))
      && ReportTable(m, BiosSchema(), options)
         == if e.bios.None? then m else Expect(m, BiosSchema(), BiosValues(e.bios.value))
  {
    var schema := BiosSchema();
    UefiIsNoBiosField();
    if e.bios.None? {
      ExtraOptionIsExact(m, "0", schema, [], UEFI);
    } else {
      var values := BiosValues(e.bios.value);
      SchemasAreClean();
      BiosValuesAreClean(e.bios.value);
      ExtraBiosOption(m, schema, values);
    }
  }

  lemma ExtraBiosOption(m: map<string, string>, schema: Schema, values: seq<Option<string>>)
    requires CleanSchema(schema) && CleanValues(values) && |schema| == |values|
    requires DmiName(schema, UEFI.first) == None
    ensures var options := Options(schema, values) + [UEFI];
      && ParseTable(TableText("0", options)) == Some(Table("0", options))
      && DistinctOptions(Table("0", options))
      && ReportTable(m, schema, options) == Expect(m, schema, values)
  {
    var options := Options(schema, values);
    OptionsAreClean(schema, values);
    TableIsExact(m, "0", schema, values);
    forall o | o in options ensures o.first != UEFI.first {
      var k :| 0 <= k < |schema| && schema[k].first == o.first;
      assert PlainName(schema[k].first);
    }
    ExtraOptionIsExact(m, "0", schema, options, UEFI);
  }

  /** A plan with the firmware table appended, its claim of UEFI included. */
  function WithFirmware(p: Planned, e: Identity): Planned {
    Planned(
      if e.bios.None? then p.plan
      else p.plan.(expected := Expect(p.plan.expected, BiosSchema(), BiosValues(e.bios.value))),
      p.arguments + ["-smbios", TableText("0", BiosOptions(e) + [UEFI])])
  }

  lemma WithFirmwareUnambiguous(p: Planned, tables: seq<seq<Pair<string, string>>>, e: Identity)
    requires Unambiguous(p, "-smbios", tables) && (e.bios.Some? ==> ValidBios(e.bios.value))
    ensures Unambiguous(WithFirmware(p, e), "-smbios", tables + [Table("0", BiosOptions(e) + [UEFI])])
  {
    ClaimedTableIsExact(p.plan.expected, e);
    AppendTableUnambiguous(p, "-smbios", tables, "0", BiosOptions(e) + [UEFI]);
  }

  lemma FirmwarePlanIs(e: Identity)
    ensures FirmwarePlan(e) == WithFirmware(SystemPlan(e, "-smbios"), e)
  {
    var claimed := TableText("0", BiosOptions(e) + [UEFI]);
    var system := TableText("1", SystemOptions(e));
    assert ["-smbios", system] + ["-smbios", claimed] == ["-smbios", system, "-smbios", claimed];
  }

  lemma FirmwarePlanUnambiguous(e: Identity)
    requires ValidSystem(e.system) && (e.bios.Some? ==> ValidBios(e.bios.value))
    ensures Unambiguous(FirmwarePlan(e), "-smbios", FirmwareTables(e))
  {
    SystemPlanUnambiguous(e, "-smbios");
    WithFirmwareUnambiguous(SystemPlan(e, "-smbios"), [Table("1", SystemOptions(e))], e);
    FirmwarePlanIs(e);
    FirmwareTablesAre(e);
  }

  lemma FirmwareTablesAre(e: Identity)
    ensures FirmwareTables(e) == [Table("1", SystemOptions(e))] + [Table("0", BiosOptions(e) + [UEFI])]
  {
  }

  lemma BoardValuesAreClean(b: Baseboard)
    requires ValidBoard(b)
    ensures CleanValues(BoardValues(b))
  {
  }

  lemma ChassisValuesAreClean(c: Chassis)
    requires ValidChassis(c)
    ensures CleanValues(ChassisValues(c))
  {
  }

  function BoardPlan(e: Identity): Planned {
    var p := FirmwarePlan(e);
    if e.baseboard.None? then p
    else AppendTable(p.plan, p.arguments, "2", BoardSchema(), BoardValues(e.baseboard.value))
  }

  /** The plan QEMU gets from an identity whose defaults are filled in. */
  function QemuPlanOf(e: Identity): Planned {
    var p := BoardPlan(e);
    if e.chassis.None? then p
    else AppendTable(p.plan, p.arguments, "3", ChassisSchema(), ChassisValues(e.chassis.value))
  }

  lemma OptionalTableUnambiguous(
    p: Planned, tables: seq<seq<Pair<string, string>>>, kind: string, schema: Schema, values: seq<Option<string>>)
    requires Unambiguous(p, "-smbios", tables)
    requires ',' !in kind && SchemaOf(kind) == schema && |values| == |schema|
    requires CleanSchema(schema) && CleanValues(values)
    ensures Unambiguous(AppendTable(p.plan, p.arguments, kind, schema, values), "-smbios",
                        tables + OptionalTable(kind, Options(schema, values)))
  {
    AppendUnambiguous(p, "-smbios", tables, kind, schema, values);
  }

  function FirmwareTables(e: Identity): seq<seq<Pair<string, string>>> {
    [Table("1", SystemOptions(e)), Table("0", BiosOptions(e) + [UEFI])]
  }

  lemma AppendBoardUnambiguous(p: Planned, tables: seq<seq<Pair<string, string>>>, b: Baseboard)
    requires Unambiguous(p, "-smbios", tables) && ValidBoard(b)
    ensures Unambiguous(AppendTable(p.plan, p.arguments, "2", BoardSchema(), BoardValues(b)), "-smbios",
                        tables + OptionalTable("2", Options(BoardSchema(), BoardValues(b))))
  {
    SchemasAreClean();
    BoardValuesAreClean(b);
    OptionalTableUnambiguous(p, tables, "2", BoardSchema(), BoardValues(b));
  }

  lemma AppendChassisUnambiguous(p: Planned, tables: seq<seq<Pair<string, string>>>, c: Chassis)
    requires Unambiguous(p, "-smbios", tables) && ValidChassis(c)
    ensures Unambiguous(AppendTable(p.plan, p.arguments, "3", ChassisSchema(), ChassisValues(c)), "-smbios",
                        tables + OptionalTable("3", Options(ChassisSchema(), ChassisValues(c))))
  {
    SchemasAreClean();
    ChassisValuesAreClean(c);
    OptionalTableUnambiguous(p, tables, "3", ChassisSchema(), ChassisValues(c));
  }

  lemma BoardPlanUnambiguous(e: Identity)
    requires Unambiguous(FirmwarePlan(e), "-smbios", FirmwareTables(e))
    requires e.baseboard.Some? ==> ValidBoard(e.baseboard.value)
    ensures Unambiguous(BoardPlan(e), "-smbios", FirmwareTables(e) + BoardTables(e))
  {
    if e.baseboard.Some? {
      AppendBoardUnambiguous(FirmwarePlan(e), FirmwareTables(e), e.baseboard.value);
    } else {
      assert FirmwareTables(e) + [] == FirmwareTables(e);
    }
  }

  lemma ChassisPlanUnambiguous(e: Identity)
    requires Unambiguous(BoardPlan(e), "-smbios", FirmwareTables(e) + BoardTables(e))
    requires e.chassis.Some? ==> ValidChassis(e.chassis.value)
    ensures Unambiguous(QemuPlanOf(e), "-smbios", QemuTables(e))
  {
    var tables := FirmwareTables(e) + BoardTables(e);
    if e.chassis.Some? {
      AppendChassisUnambiguous(BoardPlan(e), tables, e.chassis.value);
    } else {
      assert tables + [] == tables;
    }
  }

  lemma QemuPlanOfUnambiguous(e: Identity)
    requires ValidQemu(e)
    ensures Unambiguous(QemuPlanOf(e), "-smbios", QemuTables(e))
  {
    FirmwarePlanUnambiguous(e);
    BoardPlanUnambiguous(e);
    ChassisPlanUnambiguous(e);
  }

  /** The rewriting that plan_qemu does on the shared plan gives QEMU's plan. */
  lemma PlanQemuIs(i: Identity)
    requires ValidQemu(i)
    ensures PlanQemu(i) == Some(QemuPlanOf(ApplyQemuDefaults(i)))
  {
    QemuDefaultsKeepValidity(i);
    QemuBaseIs(i);
    FirmwareIs(ApplyQemuDefaults(i));
  }

  /** The shared plan that plan_qemu starts from. */
  lemma QemuBaseIs(i: Identity)
    requires ValidQemu(i) && ValidQemu(ApplyQemuDefaults(i))
    ensures Plan(Type01(ApplyQemuDefaults(i)), true) == Some(PlanOf(ApplyQemuDefaults(i)))
  {
    QemuDefaultsKeepBase(i);
    assert PlanOf(Type01(ApplyQemuDefaults(i))) == PlanOf(ApplyQemuDefaults(i));
  }

  lemma FirmwareIs(e: Identity)
    ensures var flags := QemuFlags(PlanOf(e).arguments);
      ClaimUefi(flags) + (if HasBios(flags) then [] else ["-smbios", "type=0,uefi=on"]) == FirmwarePlan(e).arguments
  {
    QemuFirmwareArguments(e, PlanOf(e).arguments);
  }

  lemma QemuDefaultsKeepBase(i: Identity)
    ensures var b := Type01(ApplyQemuDefaults(i)); ApplyDefaults(b, true) == b
  {
  }

  /** The QEMU options are unambiguous: read back, they are the system table, a firmware table
      that claims UEFI, and the board and chassis tables that set anything. */
  lemma PlanQemuUnambiguous(i: Identity)
    requires ValidQemu(i)
    ensures PlanQemu(i).Some?
    ensures Unambiguous(PlanQemu(i).value, "-smbios", QemuTables(ApplyQemuDefaults(i)))
  {
    PlanQemuIs(i);
    QemuDefaultsKeepValidity(i);
    QemuPlanOfUnambiguous(ApplyQemuDefaults(i));
  }

  /** A materialised identity is ready to start: its plan asks for no registration. */
  lemma MaterializedIsPlannable(i: Identity, previous: Option<Identity>, linuxDirect: bool, newUuid: Uuid)
    requires Valid(i, linuxDirect) && Inheritable(previous) && ValidUuid(newUuid)
    ensures var m := Materialize(i, previous, linuxDirect, newUuid);
      m.Some? && Plan(m.value, linuxDirect).Some? && !Plan(m.value, linuxDirect).value.plan.requiresRegistration
  {
    MaterializeTotal(i, previous, linuxDirect, newUuid);
  }

  lemma MaterializedQemuIsPlannable(i: Identity, previous: Option<Identity>, newUuid: Uuid)
    requires ValidQemu(i) && Inheritable(previous) && ValidUuid(newUuid)
    ensures var m := MaterializeQemu(i, previous, newUuid);
      m.Some? && PlanQemu(m.value).Some? && !PlanQemu(m.value).value.plan.requiresRegistration
  {
    MaterializeQemuTotal(i, previous, newUuid);
    var m := MaterializeQemu(i, previous, newUuid).value;
    PlanQemuIs(m);
    QemuDefaultsExtend(m);
  }
}
