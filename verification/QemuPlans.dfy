/** The QEMU command line of a launch plan, read back: it says what the profile says, with every
    path resolved, the firmware never writable and the disk written only when the profile allows. */
module QemuPlans {
  import opened Wrappers
  import opened Text
  import opened Paths
  import opened Config
  import opened CommandLine
  import opened QemuCommand
  import Identities
  import Smbios

  // ---- Flags, whatever their values -------------------------------------------------------

  lemma ReadsThreeParts(
    a: seq<string>, b: seq<string>, c: seq<string>, r: Settings, r1: Settings, r2: Settings, r3: Settings)
    requires Reads(Qemu(), a, r, r1) && Reads(Qemu(), b, r1, r2) && Reads(Qemu(), c, r2, r3)
    ensures Reads(Qemu(), a + b + c, r, r3)
  {
    ReadsConcat(Qemu(), a, b, r, r1, r2);
    ReadsConcat(Qemu(), a + b, c, r, r2, r3);
  }

  lemma DriveFlagRead(r: Settings, value: string, options: Options)
    requires Smbios.ParseTable(value) == Some(options)
    ensures Reads(Qemu(), ["-drive", value], r, TakeDrive(r, options))
  {
    LongFlagsRead();
    ReadsSetting(Qemu(), "-drive", value, r);
  }

  lemma DeviceFlagRead(r: Settings, value: string)
    ensures Reads(Qemu(), ["-device", value], r, TakeDevice(r, Word(value), Behind(value)))
  {
    LongFlagsRead();
    ReadsSetting(Qemu(), "-device", value, r);
  }

  lemma DeviceReads(r: Settings, front: string, word: string, rest: string, options: Options)
    requires front == word + "," && ',' !in word && Smbios.ParseTable(rest) == Some(options)
    ensures Reads(Qemu(), ["-device", front + rest], r, TakeDevice(r, word, options))
  {
    ValueSplits(front, word, rest);
    DeviceFlagRead(r, front + rest);
  }

  // ---- Values -----------------------------------------------------------------------------

  lemma FirmwareReads(file: string)
    requires ',' !in file
    ensures Smbios.ParseTable(Smbios.OptionText(FirmwareOptions(file))) == Some(FirmwareOptions(file))
  {
    OptionsRead(FirmwareOptions(file));
  }

  lemma VariablesRead(file: string)
    requires ',' !in file
    ensures Smbios.ParseTable(Smbios.OptionText(VariablesOptions(file))) == Some(VariablesOptions(file))
  {
    OptionsRead(VariablesOptions(file));
  }

  lemma DiskReads(file: string)
    requires ',' !in file
    ensures Smbios.ParseTable(Smbios.OptionText(DiskOptions(file))) == Some(DiskOptions(file))
  {
    OptionsRead(DiskOptions(file));
  }

  lemma CdromReads(file: string)
    requires ',' !in file
    ensures Smbios.ParseTable(Smbios.OptionText(CdromOptions(file))) == Some(CdromOptions(file))
  {
    OptionsRead(CdromOptions(file));
  }

  lemma HardDiskReads()
    ensures Smbios.ParseTable(Smbios.OptionText(HardDiskOptions())) == Some(HardDiskOptions())
  {
    OptionsRead(HardDiskOptions());
  }

  lemma CdDriveReads()
    ensures Smbios.ParseTable(Smbios.OptionText(CdDriveOptions())) == Some(CdDriveOptions())
  {
    OptionsRead(CdDriveOptions());
  }

  lemma TopologyOptionsRead(cpus: nat)
    ensures Smbios.ParseTable(Smbios.OptionText(TopologyOptions(cpus))) == Some(TopologyOptions(cpus))
  {
    assert ',' !in NatText(cpus);
    OptionsRead(TopologyOptions(cpus));
  }

  // ---- What the values mean ---------------------------------------------------------------

  lemma KeysDiffer()
    ensures "if" != "id" && "if" != "format" && "if" != "readonly" && "if" != "file" && "if" != "media"
    ensures "id" != "format" && "id" != "readonly" && "id" != "file" && "id" != "media"
    ensures "format" != "readonly" && "format" != "file" && "format" != "media"
    ensures "readonly" != "file" && "readonly" != "media" && "file" != "media"
  {
    assert "if"[1] == 'f' && "id"[1] == 'd';
  }

  lemma FirmwareLooksUp(file: string)
    ensures var o := FirmwareOptions(file);
      && Lookup(o, "if") == Some("pflash") && Lookup(o, "format") == Some("raw")
      && Lookup(o, "readonly") == Some("on") && Lookup(o, "file") == Some(file)
  {
    var o := FirmwareOptions(file);
    KeysDiffer();
    LooksUp(o, "if", 0, 0);
    LooksUp(o, "format", 0, 1);
    LooksUp(o, "readonly", 0, 2);
    LooksUp(o, "file", 0, 3);
  }

  lemma VariablesLookUp(file: string)
    ensures var o := VariablesOptions(file);
      && Lookup(o, "if") == Some("pflash") && Lookup(o, "format") == Some("raw")
      && Lookup(o, "readonly") == None && Lookup(o, "file") == Some(file)
  {
    var o := VariablesOptions(file);
    KeysDiffer();
    LooksUp(o, "if", 0, 0);
    LooksUp(o, "format", 0, 1);
    LooksUpNothing(o, "readonly", 0);
    LooksUp(o, "file", 0, 2);
  }

  lemma DiskLooksUp(file: string)
    ensures var o := DiskOptions(file);
      && Lookup(o, "if") == Some("none") && Lookup(o, "id") == Some("os") && Lookup(o, "format") == Some("qcow2")
      && Lookup(o, "readonly") == None && Lookup(o, "file") == Some(file)
  {
    var o := DiskOptions(file);
    KeysDiffer();
    LooksUp(o, "if", 0, 0);
    LooksUp(o, "id", 0, 1);
    LooksUp(o, "format", 0, 2);
    LooksUpNothing(o, "readonly", 0);
    LooksUp(o, "file", 0, 3);
  }

  lemma CdromLooksUp(file: string)
    ensures var o := CdromOptions(file);
      && Lookup(o, "if") == Some("none") && Lookup(o, "id") == Some("cdrom") && Lookup(o, "format") == Some("raw")
      && Lookup(o, "readonly") == Some("on") && Lookup(o, "file") == Some(file)
  {
    var o := CdromOptions(file);
    KeysDiffer();
    LooksUp(o, "if", 0, 0);
    LooksUp(o, "id", 0, 1);
    LooksUp(o, "format", 0, 3);
    LooksUp(o, "readonly", 0, 4);
    LooksUp(o, "file", 0, 5);
  }

  lemma HardDiskTaken(r: Settings)
    ensures TakeDevice(r, "ide-hd", HardDiskOptions()) == r.(hardDisk := Some("os"))
  {
    assert DeviceOf("ide-hd") == HardDisk;
  }

  // ---- The machine ------------------------------------------------------------------------

  lemma NameReads(r: Settings, name: string, machine: string, accelerator: string)
    ensures Reads(Qemu(), ["-name", name, "-machine", machine, "-accel", accelerator], r,
                  r.(name := Some(name), machine := Some(machine), accelerator := Some(accelerator)))
  {
    ShortFlagsRead();
    LongFlagsRead();
    var a := ["-name", name, "-machine", machine, "-accel", accelerator];
    var after := r.(name := Some(name), machine := Some(machine), accelerator := Some(accelerator));
    assert Read(Qemu(), a, 6, after) == Some(after);
    assert Read(Qemu(), a, 4, r.(name := Some(name), machine := Some(machine))) == Some(after);
    assert Read(Qemu(), a, 2, r.(name := Some(name))) == Some(after);
  }

  lemma ProcessorReads(r: Settings, cpu: string, smp: string)
    ensures Reads(Qemu(), ["-cpu", cpu, "-smp", smp], r,
                  r.(cpu := Some(Word(cpu)), topology := TopologyOf(smp)))
  {
    ShortFlagsRead();
    ReadsTwo(Qemu(), "-cpu", cpu, "-smp", smp, r);
  }

  lemma MemoryReads(r: Settings, memory: string)
    ensures Reads(Qemu(), ["-m", memory, "-nodefaults"], r, r.(memoryMib := Number(memory), defaultDevices := false))
  {
    ShortFlagsRead();
    OtherFlagsRead();
    var a := ["-m", memory, "-nodefaults"];
    var after := r.(memoryMib := Number(memory), defaultDevices := false);
    assert Read(Qemu(), a, 3, after) == Some(after);
    assert Read(Qemu(), a, 2, r.(memoryMib := Number(memory))) == Some(after);
  }

  /** The model that -cpu names. */
  function CpuWord(m: CpuModel): string {
    match m
    case HostCpu => "host"
    case Compatible => "qemu64"
    case Max => "max"
  }

  lemma CpuReads(m: CpuModel)
    ensures Word(CpuName(m)) == CpuWord(m)
  {
    match m
    case HostCpu => WordReads("host", "");
    case Max => WordReads("max", "");
    case Compatible =>
      FirstIsWord(["qemu64", "+ssse3", "+sse4.1", "+sse4.2", "+popcnt", "+cx16", "+lahf_lm", "-svm"]);
  }

  lemma OneReads()
    ensures Number("1") == Some(1)
  {
    assert "1"[..0] == "";
  }

  lemma TopologyLooksUp(cpus: nat)
    ensures var o := TopologyOptions(cpus);
      && NumberAt(o, "sockets") == Some(1) && NumberAt(o, "cores") == Some(cpus) && NumberAt(o, "threads") == Some(1)
  {
    OneReads();
    var o := TopologyOptions(cpus);
    assert "sockets"[0] == 's' && "threads"[0] == 't';
    LooksUp(o, "sockets", 0, 0);
    LooksUp(o, "cores", 0, 1);
    LooksUp(o, "threads", 0, 2);
  }

  lemma TopologyReads(cpus: nat)
    ensures TopologyOf(NatText(cpus) + "," + Smbios.OptionText(TopologyOptions(cpus)))
         == Some(Topology(cpus, 1, cpus, 1))
  {
    TopologyOptionsRead(cpus);
    assert ',' !in NatText(cpus);
    WordReads(NatText(cpus), Smbios.OptionText(TopologyOptions(cpus)));
    TopologyLooksUp(cpus);
  }

  function WithMachine(r: Settings, m: Machine): Settings {
    r.(name := Some(m.name), machine := Some("q35"), accelerator := Some("whpx"),
       cpu := Some(CpuWord(m.cpuModel)), topology := Some(Topology(m.cpus, 1, m.cpus, 1)),
       memoryMib := Some(m.memoryMib), defaultDevices := false)
  }

  lemma MachineFlagsRead(r: Settings, name: string, machine: string, accel: string, cpu: string, smp: string, m: string)
    ensures Reads(Qemu(),
      ["-name", name, "-machine", machine, "-accel", accel, "-cpu", cpu, "-smp", smp, "-m", m, "-nodefaults"], r,
      r.(name := Some(name), machine := Some(machine), accelerator := Some(accel), cpu := Some(Word(cpu)),
         topology := TopologyOf(smp), memoryMib := Number(m), defaultDevices := false))
  {
    var r1 := r.(name := Some(name), machine := Some(machine), accelerator := Some(accel));
    var r2 := r1.(cpu := Some(Word(cpu)), topology := TopologyOf(smp));
    var r3 := r2.(memoryMib := Number(m), defaultDevices := false);
    var a, b, c := ["-name", name, "-machine", machine, "-accel", accel], ["-cpu", cpu, "-smp", smp],
                   ["-m", m, "-nodefaults"];
    NameReads(r, name, machine, accel);
    ProcessorReads(r1, cpu, smp);
    MemoryReads(r2, m);
    ReadsConcat(Qemu(), a, b, r, r1, r2);
    ReadsConcat(Qemu(), a + b, c, r, r2, r3);
    assert a + b + c
        == ["-name", name, "-machine", machine, "-accel", accel, "-cpu", cpu, "-smp", smp, "-m", m, "-nodefaults"];
  }

  lemma MachineReads(r: Settings, m: Machine)
    ensures Reads(Qemu(), QemuMachine(m), r, WithMachine(r, m))
  {
    CpuReads(m.cpuModel);
    TopologyReads(m.cpus);
    MachineFlagsRead(r, m.name, "q35", "whpx", CpuName(m.cpuModel),
                     NatText(m.cpus) + "," + Smbios.OptionText(TopologyOptions(m.cpus)), NatText(m.memoryMib));
  }

  // ---- The drives -------------------------------------------------------------------------

  function WithFlash(r: Settings, firmware: string, variables: string): Settings {
    r.(flash := r.flash + [Image(firmware, "raw", true), Image(variables, "raw", false)])
  }

  lemma FirmwareTaken(r: Settings, file: string)
    ensures TakeDrive(r, FirmwareOptions(file)) == r.(flash := r.flash + [Image(file, "raw", true)])
  {
    FirmwareLooksUp(file);
  }

  lemma VariablesTaken(r: Settings, file: string)
    ensures TakeDrive(r, VariablesOptions(file)) == r.(flash := r.flash + [Image(file, "raw", false)])
  {
    VariablesLookUp(file);
  }

  lemma DiskTaken(r: Settings, file: string)
    ensures TakeDrive(r, DiskOptions(file)) == r.(drives := r.drives["os" := Image(file, "qcow2", false)])
  {
    DiskLooksUp(file);
    assert |"none"| != |"pflash"|;
  }

  lemma CdromTaken(r: Settings, file: string)
    ensures TakeDrive(r, CdromOptions(file)) == r.(drives := r.drives["cdrom" := Image(file, "raw", true)])
  {
    CdromLooksUp(file);
    assert |"none"| != |"pflash"|;
  }

  lemma FlashReads(r: Settings, firmware: string, variables: string)
    requires ',' !in firmware && ',' !in variables
    ensures var f, v := Smbios.OptionText(FirmwareOptions(firmware)), Smbios.OptionText(VariablesOptions(variables));
      Reads(Qemu(), ["-drive", f, "-drive", v], r, WithFlash(r, firmware, variables))
  {
    var f, v := Smbios.OptionText(FirmwareOptions(firmware)), Smbios.OptionText(VariablesOptions(variables));
    var middle := r.(flash := r.flash + [Image(firmware, "raw", true)]);
    FirmwareReads(firmware);
    FirmwareTaken(r, firmware);
    DriveFlagRead(r, f, FirmwareOptions(firmware));
    VariablesRead(variables);
    VariablesTaken(middle, variables);
    DriveFlagRead(middle, v, VariablesOptions(variables));
    Regroup(r.flash, [Image(firmware, "raw", true)], [Image(variables, "raw", false)]);
    assert [Image(firmware, "raw", true)] + [Image(variables, "raw", false)]
        == [Image(firmware, "raw", true), Image(variables, "raw", false)];
    ReadsConcat(Qemu(), ["-drive", f], ["-drive", v], r, middle, WithFlash(r, firmware, variables));
    assert ["-drive", f] + ["-drive", v] == ["-drive", f, "-drive", v];
  }

  lemma DiskFrontsSplit()
    ensures "ide-hd," == "ide-hd" + "," && "ide-cd," == "ide-cd" + ","
  {
  }

  lemma HardDiskFlagReads(r: Settings, text: string)
    requires Smbios.ParseTable(text) == Some(HardDiskOptions())
    ensures Reads(Qemu(), ["-device", "ide-hd," + text], r, r.(hardDisk := Some("os")))
  {
    DiskFrontsSplit();
    HardDiskTaken(r);
    DeviceReads(r, "ide-hd,", "ide-hd", text, HardDiskOptions());
  }

  function WithDisk(r: Settings, disk: string): Settings {
    r.(drives := r.drives["os" := Image(disk, "qcow2", false)], hardDisk := Some("os"))
  }

  lemma DiskFlagsRead(r: Settings, disk: string)
    requires ',' !in disk
    ensures var d, h := Smbios.OptionText(DiskOptions(disk)), "ide-hd," + Smbios.OptionText(HardDiskOptions());
      Reads(Qemu(), ["-drive", d, "-device", h], r, WithDisk(r, disk))
  {
    var d, h := Smbios.OptionText(DiskOptions(disk)), "ide-hd," + Smbios.OptionText(HardDiskOptions());
    var middle := r.(drives := r.drives["os" := Image(disk, "qcow2", false)]);
    DiskReads(disk);
    DiskTaken(r, disk);
    DriveFlagRead(r, d, DiskOptions(disk));
    HardDiskReads();
    HardDiskFlagReads(middle, Smbios.OptionText(HardDiskOptions()));
    ReadsConcat(Qemu(), ["-drive", d], ["-device", h], r, middle, WithDisk(r, disk));
    assert ["-drive", d] + ["-device", h] == ["-drive", d, "-device", h];
  }

  lemma DrivesRead(r: Settings, firmware: string, variables: string, disk: string)
    requires ',' !in firmware && ',' !in variables && ',' !in disk
    ensures Reads(Qemu(), QemuDrives(firmware, variables, disk), r, WithDisk(WithFlash(r, firmware, variables), disk))
  {
    var a := ["-drive", Smbios.OptionText(FirmwareOptions(firmware)),
              "-drive", Smbios.OptionText(VariablesOptions(variables))];
    var b := ["-drive", Smbios.OptionText(DiskOptions(disk)),
              "-device", "ide-hd," + Smbios.OptionText(HardDiskOptions())];
    var middle := WithFlash(r, firmware, variables);
    FlashReads(r, firmware, variables);
    DiskFlagsRead(middle, disk);
    ReadsConcat(Qemu(), a, b, r, middle, WithDisk(middle, disk));
    assert a + b == QemuDrives(firmware, variables, disk);
  }

  function WithCdrom(r: Settings, file: string): Settings {
    r.(drives := r.drives["cdrom" := Image(file, "raw", true)], cdDrive := Some("cdrom"))
  }

  lemma CdDeviceReads(r: Settings, front: string, word: string, rest: string, options: Options)
    requires front == word + "," && ',' !in word && Smbios.ParseTable(rest) == Some(options)
    requires DeviceOf(word) == CdDrive
    ensures Reads(Qemu(), ["-device", front + rest], r, r.(cdDrive := Lookup(options, "drive")))
  {
    DeviceReads(r, front, word, rest, options);
  }

  lemma CdDriveIsDevice()
    ensures DeviceOf("ide-cd") == CdDrive && Lookup(CdDriveOptions(), "drive") == Some("cdrom")
  {
    assert "ide-cd"[4] == 'c' && "ide-hd"[4] == 'h';
  }

  lemma CdDriveFlagReads(r: Settings, text: string)
    requires Smbios.ParseTable(text) == Some(CdDriveOptions())
    ensures Reads(Qemu(), ["-device", "ide-cd," + text], r, r.(cdDrive := Some("cdrom")))
  {
    DiskFrontsSplit();
    CdDriveIsDevice();
    CdDeviceReads(r, "ide-cd,", "ide-cd", text, CdDriveOptions());
  }

  lemma CdromFlagsRead(r: Settings, file: string)
    requires ',' !in file
    ensures var d, h := Smbios.OptionText(CdromOptions(file)), "ide-cd," + Smbios.OptionText(CdDriveOptions());
      Reads(Qemu(), ["-drive", d, "-device", h], r, WithCdrom(r, file))
  {
    var d, h := Smbios.OptionText(CdromOptions(file)), "ide-cd," + Smbios.OptionText(CdDriveOptions());
    var middle := r.(drives := r.drives["cdrom" := Image(file, "raw", true)]);
    CdromReads(file);
    CdromTaken(r, file);
    DriveFlagRead(r, d, CdromOptions(file));
    CdDriveReads();
    CdDriveFlagReads(middle, Smbios.OptionText(CdDriveOptions()));
    ReadsConcat(Qemu(), ["-drive", d], ["-device", h], r, middle, WithCdrom(r, file));
    assert ["-drive", d] + ["-device", h] == ["-drive", d, "-device", h];
  }

  // ---- Screen, network and sound ----------------------------------------------------------

  function VgaWord(graphics: Graphics): string {
    if graphics == Basic then "VGA" else "virtio-vga-gl"
  }

  lemma VgaReads(graphics: Graphics)
    ensures Word(VgaName(graphics)) == VgaWord(graphics)
  {
    match graphics
    case Basic => FirstIsWord(["VGA", "vgamem_mb=32", "xres=1280", "yres=720"]);
    case VirglExperimental => FirstIsWord(["virtio-vga-gl", "xres=1280", "yres=720", "max_outputs=1"]);
  }

  lemma ScreenDevices()
    ensures DeviceOf("VGA") == Screen && DeviceOf("virtio-vga-gl") == Screen
    ensures DeviceOf("qemu-xhci") == OtherDevice && DeviceOf("usb-tablet") == OtherDevice
    ensures DeviceOf("intel-hda") == OtherDevice && DeviceOf("hda-output") == AudioOutput
  {
    assert "hda-output"[0] == 'h' && "usb-tablet"[0] == 'u';
  }

  lemma PlainDevice(r: Settings, word: string)
    requires ',' !in word && DeviceOf(word) == OtherDevice
    ensures Reads(Qemu(), ["-device", word], r, r)
  {
    WordReads(word, "");
    DeviceFlagRead(r, word);
  }

  lemma DeviceFlagsRead(r: Settings, vga: string)
    requires DeviceOf(Word(vga)) == Screen
    ensures Reads(Qemu(), ["-device", vga, "-device", "qemu-xhci", "-device", "usb-tablet"], r,
                  r.(vga := Some(Word(vga))))
  {
    var after := r.(vga := Some(Word(vga)));
    ScreenDevices();
    DeviceFlagRead(r, vga);
    PlainDevice(after, "qemu-xhci");
    PlainDevice(after, "usb-tablet");
    ReadsConcat(Qemu(), ["-device", vga], ["-device", "qemu-xhci"], r, after, after);
    ReadsConcat(Qemu(), ["-device", vga] + ["-device", "qemu-xhci"], ["-device", "usb-tablet"], r, after, after);
    assert ["-device", vga] + ["-device", "qemu-xhci"] + ["-device", "usb-tablet"]
        == ["-device", vga, "-device", "qemu-xhci", "-device", "usb-tablet"];
  }

  lemma DisplayFlagRead(r: Settings, display: string)
    ensures Reads(Qemu(), ["-display", display], r, r.(display := Some(DisplayOf(display))))
  {
    LongFlagsRead();
    ReadsSetting(Qemu(), "-display", display, r);
  }

  lemma NicFlagRead(r: Settings, nic: string)
    ensures Reads(Qemu(), ["-nic", nic], r, r.(nic := Some(Word(nic))))
  {
    ShortFlagsRead();
    ReadsSetting(Qemu(), "-nic", nic, r);
  }

  lemma ScreenReads(r: Settings, display: string, nic: string)
    ensures Reads(Qemu(), ["-display", display, "-nic", nic], r,
                  r.(display := Some(DisplayOf(display)), nic := Some(Word(nic))))
  {
    var middle := r.(display := Some(DisplayOf(display)));
    DisplayFlagRead(r, display);
    NicFlagRead(middle, nic);
    ReadsConcat(Qemu(), ["-display", display], ["-nic", nic], r, middle, middle.(nic := Some(Word(nic))));
    assert ["-display", display] + ["-nic", nic] == ["-display", display, "-nic", nic];
  }

  lemma SerialReads(r: Settings, serial: string, monitor: string, clock: string)
    ensures Reads(Qemu(), ["-serial", serial, "-monitor", monitor, "-rtc", clock], r, r.(serial := Some(serial)))
  {
    ShortFlagsRead();
    OtherFlagsRead();
    var a := ["-serial", serial, "-monitor", monitor, "-rtc", clock];
    var after := r.(serial := Some(serial));
    assert Read(Qemu(), a, 6, after) == Some(after);
    assert Read(Qemu(), a, 4, after) == Some(after);
    assert Read(Qemu(), a, 2, after) == Some(after);
  }

  lemma DeviceListReads(r: Settings, vga: string, display: string, nic: string)
    requires DeviceOf(Word(vga)) == Screen
    ensures Reads(Qemu(),
      ["-device", vga, "-device", "qemu-xhci", "-device", "usb-tablet", "-display", display, "-nic", nic,
       "-serial", "stdio", "-monitor", "none", "-rtc", "base=localtime"], r,
      r.(vga := Some(Word(vga)), display := Some(DisplayOf(display)), nic := Some(Word(nic)), serial := Some("stdio")))
  {
    var a, b := ["-device", vga, "-device", "qemu-xhci", "-device", "usb-tablet"], ["-display", display, "-nic", nic];
    var c := ["-serial", "stdio", "-monitor", "none", "-rtc", "base=localtime"];
    var r1 := r.(vga := Some(Word(vga)));
    var r2 := r1.(display := Some(DisplayOf(display)), nic := Some(Word(nic)));
    DeviceFlagsRead(r, vga);
    ScreenReads(r1, display, nic);
    SerialReads(r2, "stdio", "none", "base=localtime");
    ReadsConcat(Qemu(), a, b, r, r1, r2);
    ReadsConcat(Qemu(), a + b, c, r, r2, r2.(serial := Some("stdio")));
    assert a + b + c
        == ["-device", vga, "-device", "qemu-xhci", "-device", "usb-tablet", "-display", display, "-nic", nic,
            "-serial", "stdio", "-monitor", "none", "-rtc", "base=localtime"];
  }

  /** A guest without a screen shows nothing; the experimental graphics need GL. */
  function ShownBy(headless: bool, graphics: Graphics): Display {
    if headless then NoDisplay else Window(graphics == VirglExperimental)
  }

  lemma WindowReads(choice: string)
    requires ',' !in choice
    ensures var value := "sdl," + Smbios.OptionText([Pair("gl", choice)]);
      Word(value) == "sdl" && Lookup(Behind(value), "gl") == Some(choice)
  {
    var options := [Pair("gl", choice)];
    OneOptionReads("gl", choice);
    ValueSplits("sdl,", "sdl", Smbios.OptionText(options));
  }

  lemma OneOptionReads(key: string, value: string)
    requires '=' !in key && ',' !in key && ',' !in value
    ensures Smbios.ParseTable(Smbios.OptionText([Pair(key, value)])) == Some([Pair(key, value)])
    ensures Lookup([Pair(key, value)], key) == Some(value)
  {
    OptionsRead([Pair(key, value)]);
  }

  lemma DisplayReads(headless: bool, graphics: Graphics)
    ensures DisplayOf(DisplayName(headless, graphics)) == ShownBy(headless, graphics)
  {
    WordReads("none", "");
    WindowReads(if graphics == VirglExperimental then "on" else "off");
    assert |"on"| != |"off"| && |"sdl"| != |"none"|;
  }

  function NicWord(network: Network): string {
    match network
    case NoNetwork => "none"
    case UserNat => "user"
  }

  lemma NicReads(network: Network)
    ensures Word(NicName(network)) == NicWord(network)
  {
    match network
    case NoNetwork => WordReads("none", "");
    case UserNat => FirstIsWord(["user", "model=e1000e", "ipv6=off"]);
  }

  function WithDevices(r: Settings, m: Machine): Settings {
    r.(vga := Some(VgaWord(m.graphics)), display := Some(ShownBy(m.headless, m.graphics)),
       nic := Some(NicWord(m.network)), serial := Some("stdio"))
  }

  lemma DevicesRead(r: Settings, m: Machine)
    ensures Reads(Qemu(), QemuDevices(m), r, WithDevices(r, m))
  {
    VgaReads(m.graphics);
    ScreenDevices();
    DisplayReads(m.headless, m.graphics);
    NicReads(m.network);
    DeviceListReads(r, VgaName(m.graphics), DisplayName(m.headless, m.graphics), NicName(m.network));
  }

  function WithAudio(r: Settings, audio: bool): Settings {
    if audio then r.(audioBackend := Some("audio0"), audioOutput := Some("audio0")) else r
  }

  lemma AudioFlagReads(r: Settings, front: string, word: string, rest: string, options: Options)
    requires front == word + "," && ',' !in word && Smbios.ParseTable(rest) == Some(options)
    ensures Reads(Qemu(), ["-audiodev", front + rest], r, r.(audioBackend := Lookup(options, "id")))
  {
    OtherFlagsRead();
    ValueSplits(front, word, rest);
    ReadsSetting(Qemu(), "-audiodev", front + rest, r);
  }

  lemma BackendReads(r: Settings, text: string)
    requires Smbios.ParseTable(text) == Some([Pair("id", "audio0")])
    ensures Reads(Qemu(), ["-audiodev", "dsound," + text], r, r.(audioBackend := Some("audio0")))
  {
    AudioFrontsSplit();
    LooksUp([Pair("id", "audio0")], "id", 0, 0);
    AudioFlagReads(r, "dsound,", "dsound", text, [Pair("id", "audio0")]);
  }

  lemma OutputDeviceReads(r: Settings, front: string, word: string, rest: string, options: Options)
    requires front == word + "," && ',' !in word && Smbios.ParseTable(rest) == Some(options)
    requires DeviceOf(word) == AudioOutput
    ensures Reads(Qemu(), ["-device", front + rest], r, r.(audioOutput := Lookup(options, "audiodev")))
  {
    DeviceReads(r, front, word, rest, options);
  }

  lemma AudioFrontsSplit()
    ensures "dsound," == "dsound" + "," && "hda-output," == "hda-output" + ","
  {
  }

  lemma OutputReads(r: Settings, text: string)
    requires Smbios.ParseTable(text) == Some([Pair("audiodev", "audio0")])
    ensures Reads(Qemu(), ["-device", "hda-output," + text], r, r.(audioOutput := Some("audio0")))
  {
    ScreenDevices();
    AudioFrontsSplit();
    LooksUp([Pair("audiodev", "audio0")], "audiodev", 0, 0);
    OutputDeviceReads(r, "hda-output,", "hda-output", text, [Pair("audiodev", "audio0")]);
  }

  lemma AudioPartsRead(r: Settings, backend: string, output: string)
    requires Smbios.ParseTable(backend) == Some([Pair("id", "audio0")])
    requires Smbios.ParseTable(output) == Some([Pair("audiodev", "audio0")])
    ensures Reads(Qemu(),
      ["-audiodev", "dsound," + backend, "-device", "intel-hda", "-device", "hda-output," + output], r,
      r.(audioBackend := Some("audio0"), audioOutput := Some("audio0")))
  {
    var middle := r.(audioBackend := Some("audio0"));
    var a, b, c := ["-audiodev", "dsound," + backend], ["-device", "intel-hda"], ["-device", "hda-output," + output];
    BackendReads(r, backend);
    ScreenDevices();
    PlainDevice(middle, "intel-hda");
    OutputReads(middle, output);
    ReadsThreeParts(a, b, c, r, middle, middle, middle.(audioOutput := Some("audio0")));
    assert a + b + c
        == ["-audiodev", "dsound," + backend, "-device", "intel-hda", "-device", "hda-output," + output];
  }

  lemma AudioReads(r: Settings, audio: bool)
    ensures Reads(Qemu(), QemuAudio(audio), r, WithAudio(r, audio))
  {
    if audio {
      OneOptionReads("id", "audio0");
      OneOptionReads("audiodev", "audio0");
      AudioPartsRead(r, Smbios.OptionText([Pair("id", "audio0")]), Smbios.OptionText([Pair("audiodev", "audio0")]));
    }
  }

  lemma SnapshotReads(r: Settings, discard: bool)
    requires !r.snapshot
    ensures Reads(Qemu(), if discard then ["-snapshot"] else [], r, r.(snapshot := discard))
  {
    OtherFlagsRead();
    if discard {
      ReadsSwitch(Qemu(), "-snapshot", r);
    }
  }

  // ---- Control socket ---------------------------------------------------------------------

  function SocketText(socket: string): string {
    Join([socket, "server=on", "wait=off"], ',')
  }

  lemma SocketValueReads(socket: string)
    requires ',' !in socket
    ensures SocketOf("unix:" + SocketText(socket)) == Some(socket)
  {
    FirstIsWord([socket, "server=on", "wait=off"]);
    assert "unix:" + SocketText(socket) == "unix" + [':'] + SocketText(socket);
    ValueReads("unix", ':', SocketText(socket));
  }

  lemma SocketReads(r: Settings, socket: string)
    requires ',' !in socket
    ensures Reads(Qemu(), ["-qmp", "unix:" + SocketText(socket)], r, r.(control := Some(socket)))
  {
    ShortFlagsRead();
    SocketValueReads(socket);
    ReadsSetting(Qemu(), "-qmp", "unix:" + SocketText(socket), r);
  }

  /** Options with one flag that the reader passes over change nothing. */
  lemma {:induction false} TablesAreSkipped(arguments: seq<string>, r: Settings)
    requires Smbios.ParseArguments(arguments, "-smbios").Some?
    ensures Reads(Qemu(), arguments, r, r)
  {
    if arguments != [] {
      OtherFlagsRead();
      TablesAreSkipped(arguments[2..], r);
      ReadsSetting(Qemu(), "-smbios", arguments[1], r);
      ReadsConcat(Qemu(), ["-smbios", arguments[1]], arguments[2..], r, r, r);
      assert arguments == ["-smbios", arguments[1]] + arguments[2..];
    }
  }

  // ---- The plan ---------------------------------------------------------------------------

  function OptionalPath(platform: Platform, base: string, path: Option<string>): Option<string> {
    match path
    case Some(p) => Some(Resolve(platform, base, p))
    case None => None
  }

  /** The drives besides the flash: the disk, written as qcow2 and attached as the hard disk, and
      the CD, never written. */
  function DrivesOf(disk: string, cdrom: Option<string>): map<string, Image> {
    match cdrom
    case Some(file) => map["os" := Image(disk, "qcow2", false), "cdrom" := Image(file, "raw", true)]
    case None => map["os" := Image(disk, "qcow2", false)]
  }

  /** What the command line has to say: every setting of the profile, every path resolved, firmware
      that cannot be written beside variables that can, and a snapshot over a read-only base. */
  function SettingsOf(platform: Platform, c: VmConfig, base: string): Settings
    requires c.boot.QemuUefi?
  {
    var b := c.boot;
    Settings(
      Some(c.name), Some("q35"), Some("whpx"), Some(CpuWord(b.cpuModel)), Some(Topology(c.cpus, 1, c.cpus, 1)),
      Some(c.memoryMib), false,
      [Image(Resolve(platform, base, b.firmware), "raw", true),
       Image(Resolve(platform, base, b.variables), "raw", false)],
      DrivesOf(Resolve(platform, base, b.disk), OptionalPath(platform, base, b.cdrom)),
      Some("os"), if b.cdrom.Some? then Some("cdrom") else None, b.readOnlyBase,
      Some(VgaWord(b.graphics)), Some(ShownBy(b.headless, b.graphics)), Some(NicWord(b.network)),
      if b.audio then Some("audio0") else None, if b.audio then Some("audio0") else None, Some("stdio"),
      OptionalPath(platform, base, b.qmpSocket))
  }

  function WithArguments(r: Settings, m: Machine, firmware: string, variables: string, disk: string): Settings {
    var drives := WithDisk(WithFlash(WithMachine(r, m), firmware, variables), disk);
    WithAudio(WithDevices(drives, m), m.audio).(snapshot := m.readOnlyBase)
  }

  lemma ArgumentsRead(r: Settings, m: Machine, firmware: string, variables: string, disk: string)
    requires ',' !in firmware && ',' !in variables && ',' !in disk && !r.snapshot
    ensures Reads(Qemu(), QemuArguments(m, firmware, variables, disk), r,
                  WithArguments(r, m, firmware, variables, disk))
  {
    var a, b, c, d := QemuMachine(m), QemuDrives(firmware, variables, disk), QemuDevices(m), QemuAudio(m.audio);
    var r1 := WithMachine(r, m);
    var r2 := WithDisk(WithFlash(r1, firmware, variables), disk);
    var r3 := WithDevices(r2, m);
    var r4 := WithAudio(r3, m.audio);
    MachineReads(r, m);
    DrivesRead(r1, firmware, variables, disk);
    DevicesRead(r2, m);
    AudioReads(r3, m.audio);
    SnapshotReads(r4, m.readOnlyBase);
    ReadsConcat(Qemu(), a, b, r, r1, r2);
    ReadsConcat(Qemu(), a + b, c, r, r2, r3);
    ReadsConcat(Qemu(), a + b + c, d, r, r3, r4);
    ReadsConcat(Qemu(), a + b + c + d, if m.readOnlyBase then ["-snapshot"] else [], r, r4,
                r4.(snapshot := m.readOnlyBase));
  }

  lemma OptionalSocketReads(host: Host, base: string, socket: Option<string>, r: Settings)
    requires PlanOptionalSocket(host, base, socket).Some? && r.control.None?
    ensures Reads(Qemu(), PlanOptionalSocket(host, base, socket).value.arguments, r,
                  r.(control := OptionalPath(host.platform, base, socket)))
  {
    if socket.Some? {
      SocketReads(r, Resolve(host.platform, base, socket.value));
    } else {
      ReadsNothing(Qemu(), r);
    }
  }

  function WithOptionalCdrom(r: Settings, cdrom: Option<string>): Settings {
    if cdrom.Some? then WithCdrom(r, cdrom.value) else r
  }

  lemma OptionalCdromReads(host: Host, base: string, cdrom: Option<string>, others: seq<string>, r: Settings)
    requires PlanOptionalCdrom(host, base, cdrom, others).Some?
    ensures Reads(Qemu(), PlanOptionalCdrom(host, base, cdrom, others).value.arguments, r,
                  WithOptionalCdrom(r, OptionalPath(host.platform, base, cdrom)))
  {
    if cdrom.Some? {
      CdromFlagsRead(r, Resolve(host.platform, base, cdrom.value));
    } else {
      ReadsNothing(Qemu(), r);
    }
  }

  lemma SettingsAre(platform: Platform, c: VmConfig, base: string)
    requires c.boot.QemuUefi?
    ensures var r := WithArguments(NOTHING, MachineOf(c), Resolve(platform, base, c.boot.firmware),
                                   Resolve(platform, base, c.boot.variables), Resolve(platform, base, c.boot.disk));
      && r.control.None?
      && WithOptionalCdrom(r.(control := OptionalPath(platform, base, c.boot.qmpSocket)),
                           OptionalPath(platform, base, c.boot.cdrom)) == SettingsOf(platform, c, base)
  {
  }

  lemma BootArgumentsAre(host: Host, c: VmConfig, base: string)
    requires c.boot.QemuUefi? && PlanQemuBoot(host, c, base).Some?
    ensures var f, v, d := Resolve(host.platform, base, c.boot.firmware),
                           Resolve(host.platform, base, c.boot.variables), Resolve(host.platform, base, c.boot.disk);
      var others := [host.canonical(f), host.canonical(v), host.canonical(d)];
      && ',' !in f && ',' !in v && ',' !in d
      && PlanOptionalSocket(host, base, c.boot.qmpSocket).Some?
      && PlanOptionalCdrom(host, base, c.boot.cdrom, others).Some?
      && PlanQemuBoot(host, c, base).value.arguments
         == QemuArguments(MachineOf(c), f, v, d) + PlanOptionalSocket(host, base, c.boot.qmpSocket).value.arguments
            + PlanOptionalCdrom(host, base, c.boot.cdrom, others).value.arguments
  {
  }

  lemma QemuBootReads(host: Host, c: VmConfig, base: string)
    requires c.boot.QemuUefi? && PlanQemuBoot(host, c, base).Some?
    ensures Reads(Qemu(), PlanQemuBoot(host, c, base).value.arguments, NOTHING, SettingsOf(host.platform, c, base))
  {
    var f, v, d := Resolve(host.platform, base, c.boot.firmware), Resolve(host.platform, base, c.boot.variables),
                   Resolve(host.platform, base, c.boot.disk);
    var others := [host.canonical(f), host.canonical(v), host.canonical(d)];
    BootArgumentsAre(host, c, base);
    var socket := PlanOptionalSocket(host, base, c.boot.qmpSocket).value.arguments;
    var cdrom := PlanOptionalCdrom(host, base, c.boot.cdrom, others).value.arguments;
    var r1 := WithArguments(NOTHING, MachineOf(c), f, v, d);
    var r2 := r1.(control := OptionalPath(host.platform, base, c.boot.qmpSocket));
    SettingsAre(host.platform, c, base);
    ArgumentsRead(NOTHING, MachineOf(c), f, v, d);
    OptionalSocketReads(host, base, c.boot.qmpSocket, r1);
    OptionalCdromReads(host, base, c.boot.cdrom, others, r2);
    ReadsThreeParts(QemuArguments(MachineOf(c), f, v, d), socket, cdrom, NOTHING, r1, r2,
                    SettingsOf(host.platform, c, base));
  }

  lemma TablesRead(i: Identities.Identity, r: Settings)
    requires Smbios.PlanQemu(i).Some?
    ensures Reads(Qemu(), Smbios.PlanQemu(i).value.arguments, r, r)
  {
    Smbios.PlanQemuUnambiguous(i);
    TablesAreSkipped(Smbios.PlanQemu(i).value.arguments, r);
  }

  /** A plan is the boot's options and then the tables. */
  lemma PlanIs(host: Host, c: VmConfig, base: string)
    requires Plan(host, c, base).Some? && c.boot.QemuUefi?
    ensures PlanQemuBoot(host, c, base).Some?
    ensures c.identity.Some? ==> Smbios.PlanQemu(c.identity.value).Some?
    ensures var plan := Plan(host, c, base).value; var boot := PlanQemuBoot(host, c, base).value.arguments;
      && plan.arguments == (if c.identity.Some? then boot + Smbios.PlanQemu(c.identity.value).value.arguments else boot)
      && plan.executable == Resolve(host.platform, base, c.executable)
      && plan.name == c.name && plan.serialMarker == c.serialMarker
  {
  }

  /** The command line of a QEMU plan, read back, is the profile with its paths resolved. */
  lemma QemuPlanReadsBack(host: Host, c: VmConfig, base: string)
    requires Plan(host, c, base).Some? && c.boot.QemuUefi?
    ensures var plan := Plan(host, c, base).value;
      && Reads(Qemu(), plan.arguments, NOTHING, SettingsOf(host.platform, c, base))
      && plan.executable == Resolve(host.platform, base, c.executable)
      && plan.name == c.name && plan.serialMarker == c.serialMarker
  {
    var settings := SettingsOf(host.platform, c, base);
    PlanIs(host, c, base);
    QemuBootReads(host, c, base);
    if c.identity.Some? {
      TablesRead(c.identity.value, settings);
      ReadsConcat(Qemu(), PlanQemuBoot(host, c, base).value.arguments,
                  Smbios.PlanQemu(c.identity.value).value.arguments, NOTHING, settings, settings);
    }
  }
}
