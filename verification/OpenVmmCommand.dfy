/** Reading an OpenVMM command line back into the settings of a machine. */
module OpenVmmCommand {
  import opened Wrappers
  import opened Text
  import opened CommandLine

  /** A disk file; a memory overlay over it discards what the guest writes. */
  datatype Disk = Disk(path: string, discardsWrites: bool)

  /** What becomes of the process when the guest shuts down, crashes or resets: its exit code. */
  datatype Exits = Exits(shutdown: Option<nat>, crash: Option<nat>, reset: Option<nat>)

  datatype Settings = Settings(
    hypervisor: Option<string>, cpus: Option<nat>, memoryMib: Option<nat>, serial: Option<string>, exits: Exits,
    kernel: Option<string>, initrd: Option<string>, cmdline: Option<string>,
    firmware: Option<string>, disk: Option<Disk>)

  const NOTHING := Settings(None, None, None, None, Exits(None, None, None), None, None, None, None, None)

  datatype Flag =
    | Hypervisor | Processors | Memory | Serial | Shutdown | Crash | Reset
    | Kernel | Initrd | Cmdline | Uefi | DiskFlag | Other

  function FlagOf(flag: string): Flag {
    if flag == "-p" then Processors
    else if flag == "-m" then Memory
    else if flag == "--kernel" then Kernel
    else if flag == "--initrd" then Initrd
    else if flag == "--cmdline" then Cmdline
    else if flag == "--uefi" then Uefi
    else if flag == "--disk" then DiskFlag
    else if flag == "--hypervisor" then Hypervisor
    else if flag == "--com1" then Serial
    else if flag == "--guest-shutdown-action" then Shutdown
    else if flag == "--guest-crash-action" then Crash
    else if flag == "--guest-reset-action" then Reset
    else Other
  }

  /** A disk is given as MODE:PATH,on=CONTROLLER. */
  function DiskOf(value: string): Option<Disk> {
    var modeAndRest :- SplitOnce(value, ':');
    var pathAndRest :- SplitOnce(modeAndRest.second, ',');
    if modeAndRest.first == "memdiff" then Some(Disk(pathAndRest.first, true))
    else if modeAndRest.first == "file" then Some(Disk(pathAndRest.first, false))
    else None
  }

  /** An action exits with a code, which is 0 when none is named. */
  function ExitOf(value: string): Option<nat> {
    if value == "exit" then Some(0) else
      var code :- ValueOf(value, "exit", ':');
      Number(code)
  }

  function Apply(r: Settings, flag: string, value: string): Settings {
    match FlagOf(flag)
    case Hypervisor => r.(hypervisor := Some(value))
    case Serial => r.(serial := Some(value))
    case Shutdown => r.(exits := r.exits.(shutdown := ExitOf(value)))
    case Crash => r.(exits := r.exits.(crash := ExitOf(value)))
    case Reset => r.(exits := r.exits.(reset := ExitOf(value)))
    case Processors => r.(cpus := Number(value))
    case Memory => r.(memoryMib := NumberWithUnit(value, "MB"))
    case Kernel => r.(kernel := Some(value))
    case Initrd => r.(initrd := Some(value))
    case Cmdline => r.(cmdline := Some(value))
    case Uefi => r.(firmware := ValueOf(value, "firmware", '='))
    case DiskFlag => r.(disk := DiskOf(value))
    case Other => r
  }

  /** OpenVMM has no switches among the options that are used. */
  function Options(): Reader<Settings> {
    Reader((flag: string) => false, (r: Settings, flag: string) => r,
           (r: Settings, flag: string, value: string) => Apply(r, flag, value))
  }

  lemma FlagsRead()
    ensures FlagOf("-p") == Processors && FlagOf("-m") == Memory
    ensures FlagOf("--kernel") == Kernel && FlagOf("--initrd") == Initrd && FlagOf("--cmdline") == Cmdline
    ensures FlagOf("--uefi") == Uefi && FlagOf("--disk") == DiskFlag
  {
    assert "-p"[1] == 'p' && "-m"[1] == 'm';
    assert "--kernel"[2] == 'k' && "--initrd"[2] == 'i';
    assert "--uefi"[2] == 'u' && "--disk"[2] == 'd';
  }

  lemma OtherFlagsRead()
    ensures FlagOf("--vmbus-scsi") == Other && FlagOf("--smbios") == Other
  {
    assert "--smbios"[2] == 's' && "--kernel"[2] == 'k' && "--initrd"[2] == 'i';
    assert "--hypervisor"[2] == 'h' && "--vmbus-scsi"[2] == 'v';
  }

  lemma ProcessFlagsRead()
    ensures FlagOf("--hypervisor") == Hypervisor && FlagOf("--com1") == Serial
    ensures FlagOf("--guest-shutdown-action") == Shutdown && FlagOf("--guest-crash-action") == Crash
    ensures FlagOf("--guest-reset-action") == Reset
  {
    assert "--com1"[2] == 'c' && "--uefi"[2] == 'u' && "--disk"[2] == 'd';
    assert "--guest-crash-action"[8] == 'c' && "--guest-reset-action"[8] == 'r';
  }

  lemma ExitCodesRead()
    ensures ExitOf("exit") == Some(0) && ExitOf("exit:2") == Some(2) && ExitOf("exit:3") == Some(3)
  {
    ValueReads("exit", ':', "2");
    ValueReads("exit", ':', "3");
    assert "exit:2" == "exit" + [':'] + "2" && "exit:3" == "exit" + [':'] + "3";
    assert "2"[..0] == "" && "3"[..0] == "";
  }

  lemma ReadsFlag(r: Settings, flag: string, value: string)
    ensures Reads(Options(), [flag, value], r, Apply(r, flag, value))
  {
    ReadsSetting(Options(), flag, value, r);
  }

  lemma DiskReads(mode: string, path: string, controller: string)
    requires ':' !in mode && ',' !in path && (mode == "memdiff" || mode == "file")
    ensures DiskOf(mode + ":" + path + "," + controller) == Some(Disk(path, mode == "memdiff"))
  {
    var rest := path + [','] + controller;
    assert mode + ":" + path + "," + controller == mode + [':'] + rest;
    SplitOnceConcat(mode, ':', rest);
    SplitOnceConcat(path, ',', controller);
    assert |"memdiff"| != |"file"|;
  }
}
