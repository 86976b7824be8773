/** Which option of an SMBIOS table carries which value of the identity, and under which DMI name the
    guest is expected to report it; and that the text of a UUID reads back as the UUID. */
module TableValues {
  import opened Wrappers
  import opened Text
  import opened Hexadecimal
  import opened Identities
  import opened Smbios

  // ---- Any table --------------------------------------------------------------------------

  /** The value an option has, if the table names it. */
  function ValueOf(options: seq<Pair<string, string>>, name: string): Option<string> {
    if options == [] then None
    else if options[0].first == name then Some(options[0].second)
    else ValueOf(options[1..], name)
  }

  lemma {:induction false} NoOtherOption(schema: Schema, values: seq<Option<string>>, name: string)
    requires |schema| == |values| && forall k | 0 <= k < |schema| :: schema[k].first != name
    ensures ValueOf(Options(schema, values), name) == None
  {
    if schema != [] {
      NoOtherOption(schema[1..], values[1..], name);
      if values[0].Some? {
        assert Options(schema, values)[1..] == Options(schema[1..], values[1..]);
      } else {
        assert Options(schema, values) == Options(schema[1..], values[1..]);
      }
    }
  }

  lemma {:induction false} OptionCarries(schema: Schema, values: seq<Option<string>>, k: nat)
    requires k < |schema| == |values| && DistinctOptions(schema)
    ensures ValueOf(Options(schema, values), schema[k].first) == values[k]
  {
    var rest := Options(schema[1..], values[1..]);
    if values[0].Some? {
      assert Options(schema, values) == [Pair(schema[0].first, values[0].value)] + rest;
      assert Options(schema, values)[1..] == rest;
    } else {
      assert Options(schema, values) == rest;
    }
    if k > 0 {
      OptionCarries(schema[1..], values[1..], k - 1);
    } else {
      NoOtherOption(schema[1..], values[1..], schema[0].first);
    }
  }

  predicate DistinctNames(schema: Schema) {
    forall a, b | 0 <= a < b < |schema| :: schema[a].second != schema[b].second
  }

  lemma {:induction false} OthersNotExpected(
    m: map<string, string>, schema: Schema, values: seq<Option<string>>, name: string)
    requires |schema| == |values| && forall k | 0 <= k < |schema| :: schema[k].second != name
    ensures (name in Expect(m, schema, values) <==> name in m)
    ensures name in m ==> Expect(m, schema, values)[name] == m[name]
    decreases |schema|
  {
    if schema != [] {
      var n := if values[0].Some? then m[schema[0].second := Reported(schema[0].first, values[0].value)] else m;
      OthersNotExpected(n, schema[1..], values[1..], name);
    }
  }

  /** The guest is expected to report this value, or nothing, under a name. */
  predicate Told(expected: map<string, string>, name: string, value: Option<string>) {
    if value.Some? then name in expected && expected[name] == value.value else name !in expected
  }

  lemma {:induction false} ExpectedTells(m: map<string, string>, schema: Schema, values: seq<Option<string>>, k: nat)
    requires k < |schema| == |values| && DistinctNames(schema) && schema[k].first != "release"
    requires schema[k].second !in m
    ensures Told(Expect(m, schema, values), schema[k].second, values[k])
    decreases |schema|
  {
    var n := if values[0].Some? then m[schema[0].second := Reported(schema[0].first, values[0].value)] else m;
    if k > 0 {
      ExpectedTells(n, schema[1..], values[1..], k - 1);
    } else {
      OthersNotExpected(n, schema[1..], values[1..], schema[0].second);
    }
  }

  // ---- The system table -------------------------------------------------------------------

  /** 36 characters, hyphens at 8, 13, 18 and 23, and the digits between them spell the UUID. */
  predicate SpellsUuid(text: string, uuid: Uuid) {
    && |text| == 36 && text[8] == '-' && text[13] == '-' && text[18] == '-' && text[23] == '-'
    && var digits := text[..8] + text[9..13] + text[14..18] + text[19..23] + text[24..];
    AllHex(digits) && ReadHex(digits) == uuid
  }

  lemma HyphensSplit(h: string)
    requires |h| == 32
    ensures var t := h[..8] + "-" + h[8..12] + "-" + h[12..16] + "-" + h[16..20] + "-" + h[20..];
      && |t| == 36 && t[8] == '-' && t[13] == '-' && t[18] == '-' && t[23] == '-'
      && t[..8] + t[9..13] + t[14..18] + t[19..23] + t[24..] == h
  {
    var t := h[..8] + "-" + h[8..12] + "-" + h[12..16] + "-" + h[16..20] + "-" + h[20..];
    assert t[..8] == h[..8] && t[9..13] == h[8..12] && t[14..18] == h[12..16];
    assert t[19..23] == h[16..20] && t[24..] == h[20..];
    assert h[..8] + h[8..12] + h[12..16] + h[16..20] + h[20..] == h;
  }

  lemma UuidReadsBack(u: Uuid)
    ensures SpellsUuid(UuidText(u), u)
  {
    var h := HexText(u, 32);
    Pow16Sixteen();
    HexReadsBack(u, 32);
    HyphensSplit(h);
  }

  predicate UuidCarried(value: Option<string>, uuid: Option<Uuid>) {
    match uuid
    case Some(u) => value.Some? && SpellsUuid(value.value, u)
    case None => value.None?
  }

  predicate SystemCarried(s: System, options: seq<Pair<string, string>>) {
    && ValueOf(options, "manufacturer") == s.manufacturer && ValueOf(options, "product") == s.product
    && ValueOf(options, "version") == s.version && ValueOf(options, "serial") == s.serial
    && ValueOf(options, "sku") == s.sku && ValueOf(options, "family") == s.family
    && UuidCarried(ValueOf(options, "uuid"), s.uuid)
  }

  lemma SystemOptionsCarry(s: System)
    ensures SystemCarried(s, Options(SystemSchema(), SystemValues(s)))
  {
    var schema, values := SystemSchema(), SystemValues(s);
    SchemasAreDistinct();
    OptionCarries(schema, values, 0);
    OptionCarries(schema, values, 1);
    OptionCarries(schema, values, 2);
    OptionCarries(schema, values, 3);
    OptionCarries(schema, values, 4);
    OptionCarries(schema, values, 5);
    OptionCarries(schema, values, 6);
    if s.uuid.Some? {
      UuidReadsBack(s.uuid.value);
    }
  }

  predicate SystemTold(s: System, expected: map<string, string>) {
    && Told(expected, "sys_vendor", s.manufacturer) && Told(expected, "product_name", s.product)
    && Told(expected, "product_version", s.version) && Told(expected, "product_serial", s.serial)
    && Told(expected, "product_sku", s.sku) && Told(expected, "product_family", s.family)
    && (s.uuid.Some? ==> "product_uuid" in expected && SpellsUuid(expected["product_uuid"], s.uuid.value))
    && (s.uuid.None? ==> "product_uuid" !in expected)
  }

  lemma SystemNamesAreDistinct()
    ensures DistinctNames(SystemSchema())
  {
    assert "product_name"[8] == 'n' && "product_uuid"[8] == 'u';
    assert "product_serial"[8] == 's' && "product_family"[8] == 'f';
  }

  lemma SystemIsTold(s: System)
    ensures SystemTold(s, Expect(map[], SystemSchema(), SystemValues(s)))
  {
    var schema, values := SystemSchema(), SystemValues(s);
    SystemNamesAreDistinct();
    ExpectedTells(map[], schema, values, 0);
    ExpectedTells(map[], schema, values, 1);
    ExpectedTells(map[], schema, values, 2);
    ExpectedTells(map[], schema, values, 3);
    ExpectedTells(map[], schema, values, 4);
    ExpectedTells(map[], schema, values, 5);
    ExpectedTells(map[], schema, values, 6);
    if s.uuid.Some? {
      UuidReadsBack(s.uuid.value);
    }
  }

  // ---- The other tables -------------------------------------------------------------------

  predicate BiosCarried(b: Bios, options: seq<Pair<string, string>>) {
    && ValueOf(options, "vendor") == b.vendor && ValueOf(options, "version") == b.version
    && ValueOf(options, "date") == b.date && ValueOf(options, "release") == b.release
  }

  lemma BiosOptionsCarry(b: Bios)
    ensures BiosCarried(b, Options(BiosSchema(), BiosValues(b)))
  {
    SchemasAreDistinct();
    OptionCarries(BiosSchema(), BiosValues(b), 0);
    OptionCarries(BiosSchema(), BiosValues(b), 1);
    OptionCarries(BiosSchema(), BiosValues(b), 2);
    OptionCarries(BiosSchema(), BiosValues(b), 3);
  }

  predicate BoardCarried(b: Baseboard, options: seq<Pair<string, string>>) {
    && ValueOf(options, "manufacturer") == b.manufacturer && ValueOf(options, "product") == b.product
    && ValueOf(options, "version") == b.version && ValueOf(options, "serial") == b.serial
    && ValueOf(options, "asset") == b.asset && ValueOf(options, "location") == b.location
  }

  lemma BoardOptionsCarry(b: Baseboard)
    ensures BoardCarried(b, Options(BoardSchema(), BoardValues(b)))
  {
    SchemasAreDistinct();
    OptionCarries(BoardSchema(), BoardValues(b), 0);
    OptionCarries(BoardSchema(), BoardValues(b), 1);
    OptionCarries(BoardSchema(), BoardValues(b), 2);
    OptionCarries(BoardSchema(), BoardValues(b), 3);
    OptionCarries(BoardSchema(), BoardValues(b), 4);
    OptionCarries(BoardSchema(), BoardValues(b), 5);
  }

  predicate ChassisCarried(c: Chassis, options: seq<Pair<string, string>>) {
    && ValueOf(options, "manufacturer") == c.manufacturer && ValueOf(options, "version") == c.version
    && ValueOf(options, "serial") == c.serial && ValueOf(options, "asset") == c.asset
    && ValueOf(options, "sku") == c.sku
  }

  lemma ChassisOptionsCarry(c: Chassis)
    ensures ChassisCarried(c, Options(ChassisSchema(), ChassisValues(c)))
  {
    SchemasAreDistinct();
    OptionCarries(ChassisSchema(), ChassisValues(c), 0);
    OptionCarries(ChassisSchema(), ChassisValues(c), 1);
    OptionCarries(ChassisSchema(), ChassisValues(c), 2);
    OptionCarries(ChassisSchema(), ChassisValues(c), 3);
    OptionCarries(ChassisSchema(), ChassisValues(c), 4);
  }

  // ---- All expected values of a plan ------------------------------------------------------

  /** Which table a DMI name belongs to shows in its second letter. */
  predicate Marked(name: string, marks: set<char>) {
    |name| >= 2 && name[1] in marks
  }

  predicate AllMarked(schema: Schema, marks: set<char>) {
    forall k | 0 <= k < |schema| :: Marked(schema[k].second, marks)
  }

  predicate NoneMarked(m: map<string, string>, marks: set<char>) {
    forall name | name in m :: !Marked(name, marks)
  }

  lemma SchemasAreMarked()
    ensures AllMarked(SystemSchema(), {'y', 'r'}) && AllMarked(BiosSchema(), {'i'})
    ensures AllMarked(BoardSchema(), {'o'}) && AllMarked(ChassisSchema(), {'h'})
  {
  }

  lemma {:induction false} ExpectedStaysUnmarked(
    m: map<string, string>, schema: Schema, values: seq<Option<string>>, marks: set<char>, others: set<char>)
    requires |schema| == |values| && AllMarked(schema, marks) && marks !! others && NoneMarked(m, others)
    ensures NoneMarked(Expect(m, schema, values), others)
    decreases |schema|
  {
    if schema != [] {
      assert Marked(schema[0].second, marks);
      var n := if values[0].Some? then m[schema[0].second := Reported(schema[0].first, values[0].value)] else m;
      forall k | 0 <= k < |schema[1..]| ensures Marked(schema[1..][k].second, marks) {
        assert schema[1..][k] == schema[k + 1];
      }
      ExpectedStaysUnmarked(n, schema[1..], values[1..], marks, others);
    }
  }

  /** Another table changes nothing about a name that is not its own. */
  lemma ToldStays(m: map<string, string>, schema: Schema, values: seq<Option<string>>, marks: set<char>, name: string)
    requires |schema| == |values| && AllMarked(schema, marks) && !Marked(name, marks)
    ensures name in Expect(m, schema, values) <==> name in m
    ensures name in m ==> Expect(m, schema, values)[name] == m[name]
  {
    forall k | 0 <= k < |schema| ensures schema[k].second != name {
      assert Marked(schema[k].second, marks);
    }
    OthersNotExpected(m, schema, values, name);
  }

  /** The release that is told has the numbers of the one that was set. */
  predicate SameRelease(told: string, release: string) {
    match (SplitOnce(told, '.'), SplitOnce(release, '.'))
    case (Some(t), Some(r)) =>
      && AllDigits(t.first) && AllDigits(t.second) && AllDigits(r.first) && AllDigits(r.second)
      && DigitsValue(t.first) == DigitsValue(r.first) && DigitsValue(t.second) == DigitsValue(r.second)
    case _ => false
  }

  lemma ReleaseKeepsNumbers(release: string)
    requires ValidRelease(release)
    ensures SameRelease(ReportedRelease(release), release)
  {
    var r := SplitOnce(release, '.').value;
    var major, minor := NatText(DigitsValue(r.first)), NatText(DigitsValue(r.second));
    assert '.' !in major;
    SplitOnceConcat(major, '.', minor);
    assert major + "." + minor == major + ['.'] + minor;
  }

  predicate BiosTold(b: Bios, expected: map<string, string>) {
    && Told(expected, "bios_vendor", b.vendor) && Told(expected, "bios_version", b.version)
    && Told(expected, "bios_date", b.date)
    && (b.release.Some? ==> "bios_release" in expected && SameRelease(expected["bios_release"], b.release.value))
    && (b.release.None? ==> "bios_release" !in expected)
  }

  lemma {:induction false} ReleaseIsTold(m: map<string, string>, schema: Schema, values: seq<Option<string>>, k: nat)
    requires k < |schema| == |values| && DistinctNames(schema) && schema[k].first == "release"
    requires schema[k].second !in m
    ensures Told(Expect(m, schema, values), schema[k].second,
                 if values[k].Some? then Some(ReportedRelease(values[k].value)) else None)
    decreases |schema|
  {
    var n := if values[0].Some? then m[schema[0].second := Reported(schema[0].first, values[0].value)] else m;
    if k > 0 {
      ReleaseIsTold(n, schema[1..], values[1..], k - 1);
    } else {
      OthersNotExpected(n, schema[1..], values[1..], schema[0].second);
    }
  }

  lemma BiosNamesAreDistinct()
    ensures DistinctNames(BiosSchema())
  {
    assert "bios_vendor"[5] == 'v' && "bios_version"[6] == 'e' && "bios_date"[5] == 'd' && "bios_release"[5] == 'r';
  }

  lemma BiosIsTold(m: map<string, string>, b: Bios)
    requires ValidBios(b) && NoneMarked(m, {'i'})
    ensures BiosTold(b, Expect(m, BiosSchema(), BiosValues(b)))
  {
    var schema, values := BiosSchema(), BiosValues(b);
    BiosNamesAreDistinct();
    SchemasAreMarked();
    forall k | 0 <= k < |schema| ensures schema[k].second !in m {
      assert Marked(schema[k].second, {'i'});
    }
    ExpectedTells(m, schema, values, 0);
    ExpectedTells(m, schema, values, 1);
    ExpectedTells(m, schema, values, 2);
    ReleaseIsTold(m, schema, values, 3);
    if b.release.Some? {
      ReleaseKeepsNumbers(b.release.value);
    }
  }

  predicate BoardTold(b: Baseboard, expected: map<string, string>) {
    && Told(expected, "board_vendor", b.manufacturer) && Told(expected, "board_name", b.product)
    && Told(expected, "board_version", b.version) && Told(expected, "board_serial", b.serial)
    && Told(expected, "board_asset_tag", b.asset) && Told(expected, "board_location", b.location)
  }

  lemma BoardNamesAreDistinct()
    ensures DistinctNames(BoardSchema())
  {
    assert "board_vendor"[6] == 'v' && "board_serial"[6] == 's';
    assert |"board_name"| == 10 && |"board_version"| == 13 && |"board_asset_tag"| == 15 && |"board_location"| == 14;
  }

  lemma BoardIsTold(m: map<string, string>, b: Baseboard)
    requires NoneMarked(m, {'o'})
    ensures BoardTold(b, Expect(m, BoardSchema(), BoardValues(b)))
  {
    var schema, values := BoardSchema(), BoardValues(b);
    BoardNamesAreDistinct();
    SchemasAreMarked();
    forall k | 0 <= k < |schema| ensures schema[k].second !in m {
      assert Marked(schema[k].second, {'o'});
    }
    ExpectedTells(m, schema, values, 0);
    ExpectedTells(m, schema, values, 1);
    ExpectedTells(m, schema, values, 2);
    ExpectedTells(m, schema, values, 3);
    ExpectedTells(m, schema, values, 4);
    ExpectedTells(m, schema, values, 5);
  }

  predicate ChassisTold(c: Chassis, expected: map<string, string>) {
    && Told(expected, "chassis_vendor", c.manufacturer) && Told(expected, "chassis_version", c.version)
    && Told(expected, "chassis_serial", c.serial) && Told(expected, "chassis_asset_tag", c.asset)
    && Told(expected, "chassis_sku", c.sku)
  }

  lemma ChassisNamesAreDistinct()
    ensures DistinctNames(ChassisSchema())
  {
    assert "chassis_vendor"[8] == 'v' && "chassis_serial"[8] == 's';
    assert |"chassis_version"| == 15 && |"chassis_asset_tag"| == 17 && |"chassis_sku"| == 11;
  }

  lemma ChassisIsTold(m: map<string, string>, c: Chassis)
    requires NoneMarked(m, {'h'})
    ensures ChassisTold(c, Expect(m, ChassisSchema(), ChassisValues(c)))
  {
    var schema, values := ChassisSchema(), ChassisValues(c);
    ChassisNamesAreDistinct();
    SchemasAreMarked();
    forall k | 0 <= k < |schema| ensures schema[k].second !in m {
      assert Marked(schema[k].second, {'h'});
    }
    ExpectedTells(m, schema, values, 0);
    ExpectedTells(m, schema, values, 1);
    ExpectedTells(m, schema, values, 2);
    ExpectedTells(m, schema, values, 3);
    ExpectedTells(m, schema, values, 4);
  }

  // ---- Later tables leave earlier values alone --------------------------------------------

  /** Nothing told under a name of these marks is changed. */
  ghost predicate KeepsMarked(m: map<string, string>, n: map<string, string>, marks: set<char>) {
    forall name: string | Marked(name, marks) :: (name in n <==> name in m) && (name in m ==> n[name] == m[name])
  }

  lemma TableKeepsOthers(
    m: map<string, string>, schema: Schema, values: seq<Option<string>>, marks: set<char>, others: set<char>)
    requires |schema| == |values| && AllMarked(schema, marks) && marks !! others
    ensures KeepsMarked(m, Expect(m, schema, values), others)
  {
    forall name: string | Marked(name, others)
      ensures name in Expect(m, schema, values) <==> name in m
      ensures name in m ==> Expect(m, schema, values)[name] == m[name]
    {
      ToldStays(m, schema, values, marks, name);
    }
  }

  lemma SystemStaysTold(s: System, m: map<string, string>, n: map<string, string>)
    requires SystemTold(s, m) && KeepsMarked(m, n, {'y', 'r'})
    ensures SystemTold(s, n)
  {
    assert Marked("sys_vendor", {'y', 'r'}) && Marked("product_name", {'y', 'r'});
    assert Marked("product_version", {'y', 'r'}) && Marked("product_serial", {'y', 'r'});
    assert Marked("product_sku", {'y', 'r'}) && Marked("product_family", {'y', 'r'});
    assert Marked("product_uuid", {'y', 'r'});
  }

  lemma BiosStaysTold(b: Bios, m: map<string, string>, n: map<string, string>)
    requires BiosTold(b, m) && KeepsMarked(m, n, {'i'})
    ensures BiosTold(b, n)
  {
    assert Marked("bios_vendor", {'i'}) && Marked("bios_version", {'i'});
    assert Marked("bios_date", {'i'}) && Marked("bios_release", {'i'});
  }

  lemma BoardStaysTold(b: Baseboard, m: map<string, string>, n: map<string, string>)
    requires BoardTold(b, m) && KeepsMarked(m, n, {'o'})
    ensures BoardTold(b, n)
  {
    assert Marked("board_vendor", {'o'}) && Marked("board_name", {'o'}) && Marked("board_version", {'o'});
    assert Marked("board_serial", {'o'}) && Marked("board_asset_tag", {'o'}) && Marked("board_location", {'o'});
  }

  /** Every table of the identity is told as it is. */
  predicate AllTold(e: Identity, expected: map<string, string>) {
    && SystemTold(e.system, expected)
    && (e.bios.Some? ==> BiosTold(e.bios.value, expected))
    && (e.baseboard.Some? ==> BoardTold(e.baseboard.value, expected))
    && (e.chassis.Some? ==> ChassisTold(e.chassis.value, expected))
  }

  function WithBios(m: map<string, string>, bios: Option<Bios>): map<string, string> {
    if bios.Some? then Expect(m, BiosSchema(), BiosValues(bios.value)) else m
  }

  function WithBoard(m: map<string, string>, board: Option<Baseboard>): map<string, string> {
    if board.Some? then Expect(m, BoardSchema(), BoardValues(board.value)) else m
  }

  function WithChassis(m: map<string, string>, chassis: Option<Chassis>): map<string, string> {
    if chassis.Some? then Expect(m, ChassisSchema(), ChassisValues(chassis.value)) else m
  }

  function SystemOnly(s: System): map<string, string> {
    Expect(map[], SystemSchema(), SystemValues(s))
  }

  lemma FirmwareIsTold(e: Identity)
    requires e.bios.Some? ==> ValidBios(e.bios.value)
    ensures var m := WithBios(SystemOnly(e.system), e.bios);
      SystemTold(e.system, m) && (e.bios.Some? ==> BiosTold(e.bios.value, m)) && NoneMarked(m, {'o', 'h'})
  {
    var m := SystemOnly(e.system);
    SchemasAreMarked();
    SystemIsTold(e.system);
    ExpectedStaysUnmarked(map[], SystemSchema(), SystemValues(e.system), {'y', 'r'}, {'i', 'o', 'h'});
    if e.bios.Some? {
      BiosIsTold(m, e.bios.value);
      TableKeepsOthers(m, BiosSchema(), BiosValues(e.bios.value), {'i'}, {'y', 'r'});
      SystemStaysTold(e.system, m, WithBios(m, e.bios));
      ExpectedStaysUnmarked(m, BiosSchema(), BiosValues(e.bios.value), {'i'}, {'o', 'h'});
    }
  }

  lemma BoardAddsItself(e: Identity, m: map<string, string>)
    requires SystemTold(e.system, m) && (e.bios.Some? ==> BiosTold(e.bios.value, m)) && NoneMarked(m, {'o', 'h'})
    ensures var n := WithBoard(m, e.baseboard);
      && SystemTold(e.system, n) && (e.bios.Some? ==> BiosTold(e.bios.value, n)) && NoneMarked(n, {'h'})
      && (e.baseboard.Some? ==> BoardTold(e.baseboard.value, n))
  {
    if e.baseboard.Some? {
      var n := WithBoard(m, e.baseboard);
      SchemasAreMarked();
      BoardIsTold(m, e.baseboard.value);
      TableKeepsOthers(m, BoardSchema(), BoardValues(e.baseboard.value), {'o'}, {'y', 'r', 'i'});
      SystemStaysTold(e.system, m, n);
      if e.bios.Some? {
        BiosStaysTold(e.bios.value, m, n);
      }
      ExpectedStaysUnmarked(m, BoardSchema(), BoardValues(e.baseboard.value), {'o'}, {'h'});
    }
  }

  lemma ChassisAddsItself(e: Identity, m: map<string, string>)
    requires SystemTold(e.system, m) && (e.bios.Some? ==> BiosTold(e.bios.value, m)) && NoneMarked(m, {'h'})
    requires e.baseboard.Some? ==> BoardTold(e.baseboard.value, m)
    ensures AllTold(e, WithChassis(m, e.chassis))
  {
    if e.chassis.Some? {
      var n := WithChassis(m, e.chassis);
      SchemasAreMarked();
      ChassisIsTold(m, e.chassis.value);
      TableKeepsOthers(m, ChassisSchema(), ChassisValues(e.chassis.value), {'h'}, {'y', 'r', 'i', 'o'});
      SystemStaysTold(e.system, m, n);
      if e.bios.Some? {
        BiosStaysTold(e.bios.value, m, n);
      }
      if e.baseboard.Some? {
        BoardStaysTold(e.baseboard.value, m, n);
      }
    }
  }

  /** What an OpenVMM plan expects the guest to report: each value under its own name. */
  lemma PlanTells(i: Identity, linuxDirect: bool)
    requires Valid(i, linuxDirect)
    ensures Plan(i, linuxDirect).Some?
    ensures AllTold(ApplyDefaults(i, linuxDirect), Plan(i, linuxDirect).value.plan.expected)
  {
    var e := ApplyDefaults(i, linuxDirect);
    DefaultsKeepValidity(i, linuxDirect);
    FirmwareIsTold(e);
  }

  /** The same of a QEMU plan, for all four tables. */
  lemma PlanQemuTells(i: Identity)
    requires ValidQemu(i)
    ensures PlanQemu(i).Some?
    ensures AllTold(ApplyQemuDefaults(i), PlanQemu(i).value.plan.expected)
  {
    var e := ApplyQemuDefaults(i);
    PlanQemuIs(i);
    QemuDefaultsKeepValidity(i);
    FirmwareIsTold(e);
    BoardAddsItself(e, WithBios(SystemOnly(e.system), e.bios));
    ChassisAddsItself(e, WithBoard(WithBios(SystemOnly(e.system), e.bios), e.baseboard));
  }

  /** The printed tables carry each value in its own option. */
  lemma TablesCarry(e: Identity)
    ensures SystemCarried(e.system, SystemOptions(e))
    ensures e.bios.Some? ==> BiosCarried(e.bios.value, BiosOptions(e))
    ensures e.baseboard.Some? ==>
      BoardCarried(e.baseboard.value, Options(BoardSchema(), BoardValues(e.baseboard.value)))
    ensures e.chassis.Some? ==>
      ChassisCarried(e.chassis.value, Options(ChassisSchema(), ChassisValues(e.chassis.value)))
  {
    SystemOptionsCarry(e.system);
    if e.bios.Some? {
      BiosOptionsCarry(e.bios.value);
    }
    if e.baseboard.Some? {
      BoardOptionsCarry(e.baseboard.value);
    }
    if e.chassis.Some? {
      ChassisOptionsCarry(e.chassis.value);
    }
  }
}
