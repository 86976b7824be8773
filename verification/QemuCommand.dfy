/** Reading a QEMU command line back into the settings of a machine: which drives there are and
    whether they may be written, what is attached to them, and how the guest is shown, heard and
    connected. */
module QemuCommand {
  import opened Wrappers
  import opened Text
  import opened CommandLine
  import Smbios

  datatype Image = Image(file: string, format: string, readOnly: bool)

  datatype Display = NoDisplay | Window(gl: bool)

  datatype Topology = Topology(cpus: nat, sockets: nat, cores: nat, threads: nat)

  /** Flash drives are numbered in the order they are given; other drives are named, and devices
      are attached to them by name. Snapshot mode discards what the guest writes to any drive. */
  datatype Settings = Settings(
    name: Option<string>, machine: Option<string>, accelerator: Option<string>,
    cpu: Option<string>, topology: Option<Topology>, memoryMib: Option<nat>, defaultDevices: bool,
    flash: seq<Image>, drives: map<string, Image>, hardDisk: Option<string>, cdDrive: Option<string>, snapshot: bool,
    vga: Option<string>, display: Option<Display>, nic: Option<string>,
    audioBackend: Option<string>, audioOutput: Option<string>, serial: Option<string>, control: Option<string>)

  const NOTHING := Settings(
    None, None, None, None, None, None, true, [], map[], None, None, false, None, None, None, None, None, None, None)

  // ---- Options inside a value -------------------------------------------------------------

  type Options = seq<Pair<string, string>>

  /** A value that begins with a word: what stands before the first comma. */
  function Word(value: string): string {
    value[..IndexOf(value, ',')]
  }

  /** The options behind the word. */
  function Behind(value: string): Options {
    var i := IndexOf(value, ',');
    if i == |value| then [] else Smbios.ParseTable(value[i + 1..]).GetOr([])
  }

  /** The first value given to a key. */
  function LookupFrom(options: Options, key: string, at: nat): Option<string>
    requires at <= |options|
    decreases |options| - at
  {
    if at == |options| then None
    else if options[at].first == key then Some(options[at].second)
    else LookupFrom(options, key, at + 1)
  }

  function Lookup(options: Options, key: string): Option<string> {
    LookupFrom(options, key, 0)
  }

  lemma {:induction false} LooksUp(options: Options, key: string, at: nat, k: nat)
    requires at <= k < |options| && options[k].first == key
    requires forall j | at <= j < k :: options[j].first != key
    ensures LookupFrom(options, key, at) == Some(options[k].second)
    decreases k - at
  {
    if at < k {
      LooksUp(options, key, at + 1, k);
    }
  }

  lemma {:induction false} LooksUpNothing(options: Options, key: string, at: nat)
    requires at <= |options| && forall j | at <= j < |options| :: options[j].first != key
    ensures LookupFrom(options, key, at) == None
    decreases |options| - at
  {
    if at < |options| {
      LooksUpNothing(options, key, at + 1);
    }
  }

  function NumberAt(options: Options, key: string): Option<nat> {
    var text :- Lookup(options, key);
    Number(text)
  }

  lemma WordReads(word: string, rest: string)
    requires ',' !in word
    ensures Word(word) == word && Behind(word) == []
    ensures Word(word + "," + rest) == word
    ensures Behind(word + "," + rest) == Smbios.ParseTable(rest).GetOr([])
  {
    var value := word + "," + rest;
    IndexOfAbsent(word, ',');
    IndexOfConcat(word, ',', rest);
    assert value == word + [','] + rest;
    assert value[..|word|] == word && value[|word| + 1..] == rest;
  }

  /** A value with a word and a comma in front. */
  lemma ValueSplits(front: string, word: string, rest: string)
    requires front == word + "," && ',' !in word
    ensures Word(front + rest) == word && Behind(front + rest) == Smbios.ParseTable(rest).GetOr([])
  {
    WordReads(word, rest);
  }

  lemma FirstIsWord(parts: seq<string>)
    requires |parts| > 1 && ',' !in parts[0]
    ensures Word(Join(parts, ',')) == parts[0]
  {
    WordReads(parts[0], Join(parts[1..], ','));
    assert "," == [','];
  }

  lemma LastOption(key: string, value: string)
    requires '=' !in key && ',' !in key && ',' !in value
    ensures Smbios.ParseTable(key + "=" + value) == Some([Pair(key, value)])
  {
    var text := key + "=" + value;
    assert text == key + ['='] + value;
    SplitOnceConcat(key, '=', value);
    assert ',' !in text;
    IndexOfAbsent(text, ',');
    assert Split(text, ',') == [text] && [text][1..] == [];
    assert [Pair(key, value)] + [] == [Pair(key, value)];
    assert Smbios.ParsePieces([text]) == Some([Pair(key, value)] + []);
  }

  /** Options that are printed as such read back as themselves. */
  lemma OptionsRead(options: Options)
    requires |options| > 0 && Smbios.AllClean(options)
    ensures Smbios.ParseTable(Smbios.OptionText(options)) == Some(options)
  {
    Smbios.ParsePiecesOfOptions(options);
    SplitJoin(Smbios.Pieces(options), ',');
  }

  // ---- Flags ------------------------------------------------------------------------------

  /** A flash drive is numbered, any other drive goes by its name. */
  function TakeDrive(r: Settings, options: Options): Settings {
    var drive := Image(Lookup(options, "file").GetOr(""), Lookup(options, "format").GetOr(""),
                       Lookup(options, "readonly") == Some("on"));
    if Lookup(options, "if") == Some("pflash") then r.(flash := r.flash + [drive])
    else
      match Lookup(options, "id")
      case Some(id) => r.(drives := r.drives[id := drive])
      case None => r
  }

  datatype Device = HardDisk | CdDrive | Screen | AudioOutput | OtherDevice

  function DeviceOf(word: string): Device {
    if word == "ide-hd" then HardDisk
    else if word == "ide-cd" then CdDrive
    else if word == "VGA" || word == "virtio-vga-gl" then Screen
    else if word == "hda-output" then AudioOutput
    else OtherDevice
  }

  function TakeDevice(r: Settings, word: string, options: Options): Settings {
    match DeviceOf(word)
    case HardDisk => r.(hardDisk := Lookup(options, "drive"))
    case CdDrive => r.(cdDrive := Lookup(options, "drive"))
    case Screen => r.(vga := Some(word))
    case AudioOutput => r.(audioOutput := Lookup(options, "audiodev"))
    case OtherDevice => r
  }

  function TopologyOf(value: string): Option<Topology> {
    var cpus :- Number(Word(value));
    var sockets :- NumberAt(Behind(value), "sockets");
    var cores :- NumberAt(Behind(value), "cores");
    var threads :- NumberAt(Behind(value), "threads");
    Some(Topology(cpus, sockets, cores, threads))
  }

  function DisplayOf(value: string): Display {
    if Word(value) == "none" then NoDisplay else Window(Lookup(Behind(value), "gl") == Some("on"))
  }

  /** A control socket is given as unix:PATH,OPTIONS. */
  function SocketOf(value: string): Option<string> {
    var place :- ValueOf(value, "unix", ':');
    Some(Word(place))
  }

  datatype Flag =
    | Name | MachineFlag | Accelerator | Cpu | Smp | Memory | DriveFlag | DeviceFlag | DisplayFlag | Nic
    | Serial | Audio | Control | Other

  function FlagOf(flag: string): Flag {
    if flag == "-name" then Name
    else if flag == "-machine" then MachineFlag
    else if flag == "-accel" then Accelerator
    else if flag == "-cpu" then Cpu
    else if flag == "-smp" then Smp
    else if flag == "-m" then Memory
    else if flag == "-drive" then DriveFlag
    else if flag == "-device" then DeviceFlag
    else if flag == "-display" then DisplayFlag
    else if flag == "-nic" then Nic
    else if flag == "-serial" then Serial
    else if flag == "-audiodev" then Audio
    else if flag == "-qmp" then Control
    else Other
  }

  function Apply(r: Settings, flag: Flag, value: string): Settings {
    match flag
    case Name => r.(name := Some(value))
    case MachineFlag => r.(machine := Some(value))
    case Accelerator => r.(accelerator := Some(value))
    case Cpu => r.(cpu := Some(Word(value)))
    case Smp => r.(topology := TopologyOf(value))
    case Memory => r.(memoryMib := Number(value))
    case DriveFlag => TakeDrive(r, Smbios.ParseTable(value).GetOr([]))
    case DeviceFlag => TakeDevice(r, Word(value), Behind(value))
    case DisplayFlag => r.(display := Some(DisplayOf(value)))
    case Nic => r.(nic := Some(Word(value)))
    case Serial => r.(serial := Some(value))
    case Audio => r.(audioBackend := Lookup(Behind(value), "id"))
    case Control => r.(control := SocketOf(value))
    case Other => r
  }

  predicate IsSwitch(flag: string) {
    flag == "-nodefaults" || flag == "-snapshot"
  }

  function Flip(r: Settings, flag: string): Settings {
    if flag == "-snapshot" then r.(snapshot := true) else r.(defaultDevices := false)
  }

  function Qemu(): Reader<Settings> {
    Reader((flag: string) => IsSwitch(flag), (r: Settings, flag: string) => Flip(r, flag),
           (r: Settings, flag: string, value: string) => Apply(r, FlagOf(flag), value))
  }

  lemma ShortFlagsRead()
    ensures FlagOf("-name") == Name && FlagOf("-cpu") == Cpu && FlagOf("-smp") == Smp && FlagOf("-m") == Memory
    ensures FlagOf("-nic") == Nic && FlagOf("-qmp") == Control && FlagOf("-rtc") == Other
    ensures !IsSwitch("-name") && !IsSwitch("-cpu") && !IsSwitch("-smp") && !IsSwitch("-m")
    ensures !IsSwitch("-nic") && !IsSwitch("-qmp") && !IsSwitch("-rtc")
  {
    assert "-cpu"[1] == 'c' && "-smp"[1] == 's' && "-nic"[1] == 'n' && "-qmp"[1] == 'q' && "-rtc"[1] == 'r';
  }

  lemma LongFlagsRead()
    ensures FlagOf("-machine") == MachineFlag && FlagOf("-accel") == Accelerator && FlagOf("-drive") == DriveFlag
    ensures FlagOf("-device") == DeviceFlag && FlagOf("-display") == DisplayFlag
    ensures !IsSwitch("-machine") && !IsSwitch("-accel") && !IsSwitch("-drive")
    ensures !IsSwitch("-device") && !IsSwitch("-display")
  {
    assert "-accel"[1] == 'a' && "-drive"[1] == 'd';
    assert "-machine"[1] == 'm' && "-display"[1] == 'd' && "-display"[2] == 'i' && "-device"[2] == 'e';
  }

  lemma OtherFlagsRead()
    ensures FlagOf("-serial") == Serial && FlagOf("-audiodev") == Audio
    ensures FlagOf("-monitor") == Other && FlagOf("-smbios") == Other
    ensures !IsSwitch("-serial") && !IsSwitch("-audiodev") && !IsSwitch("-monitor") && !IsSwitch("-smbios")
    ensures IsSwitch("-nodefaults") && IsSwitch("-snapshot") && "-nodefaults" != "-snapshot"
  {
    assert "-serial"[1] == 's' && "-device"[1] == 'd' && "-smbios"[2] == 'm';
    assert "-audiodev"[1] == 'a' && "-snapshot"[1] == 's';
    assert "-monitor"[1] == 'm' && "-machine"[2] == 'a' && "-monitor"[2] == 'o' && "-display"[1] == 'd';
  }
}
