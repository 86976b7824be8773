/** The OpenVMM command line of a launch plan, read back: it says what the profile says, with every
    path resolved, and a read-only base disk is never opened for writing. */
module OpenVmmPlans {
  import opened Wrappers
  import opened Paths
  import opened Config
  import opened CommandLine
  import opened OpenVmmCommand
  import Smbios

  // ---- The machine ------------------------------------------------------------------------

  /** Serial output goes to the error stream, and a guest that ends leaves by a code that tells a
      shutdown from a crash and a reset. */
  function Machine(cpus: nat, memoryMib: nat): Settings {
    NOTHING.(hypervisor := Some("whp"), cpus := Some(cpus), memoryMib := Some(memoryMib), serial := Some("stderr"),
             exits := Exits(Some(0), Some(2), Some(3)))
  }

  lemma MachineReads(cpus: nat, memoryMib: nat)
    ensures Reads(Options(), OpenVmmArguments(cpus, memoryMib), NOTHING, Machine(cpus, memoryMib))
  {
    FlagsRead();
    ProcessFlagsRead();
    ExitCodesRead();
    UnitReads(memoryMib, "MB");
    var a, r := OpenVmmArguments(cpus, memoryMib), Machine(cpus, memoryMib);
    assert Read(Options(), a, 14, r) == Some(r);
    assert Read(Options(), a, 12, r.(exits := Exits(Some(0), Some(2), None))) == Some(r);
    assert Read(Options(), a, 10, r.(exits := Exits(Some(0), None, None))) == Some(r);
    assert Read(Options(), a, 8, r.(exits := NOTHING.exits)) == Some(r);
    assert Read(Options(), a, 6, r.(exits := NOTHING.exits, serial := None)) == Some(r);
    assert Read(Options(), a, 4, NOTHING.(hypervisor := Some("whp"), cpus := Some(cpus))) == Some(r);
    assert Read(Options(), a, 2, NOTHING.(hypervisor := Some("whp"))) == Some(r);
  }

  lemma LinuxReads(kernel: string, initrd: string, cmdline: string, r: Settings)
    ensures Reads(Options(), ["--kernel", kernel, "--initrd", initrd, "--cmdline", cmdline], r,
                  r.(kernel := Some(kernel), initrd := Some(initrd), cmdline := Some(cmdline)))
  {
    FlagsRead();
    var a := ["--kernel", kernel, "--initrd", initrd, "--cmdline", cmdline];
    var after := r.(kernel := Some(kernel), initrd := Some(initrd), cmdline := Some(cmdline));
    assert Read(Options(), a, 6, after) == Some(after);
    assert Read(Options(), a, 4, r.(kernel := Some(kernel), initrd := Some(initrd))) == Some(after);
    assert Read(Options(), a, 2, r.(kernel := Some(kernel))) == Some(after);
  }

  lemma FirmwareReads(firmware: string)
    ensures ValueOf("firmware=" + firmware, "firmware", '=') == Some(firmware)
  {
    assert "firmware=" + firmware == "firmware" + ['='] + firmware;
    ValueReads("firmware", '=', firmware);
  }

  lemma UefiReads(firmware: string, disk: string, r: Settings)
    ensures Reads(Options(), ["--uefi", firmware, "--vmbus-scsi", "id=scsi0", "--disk", disk], r,
                  r.(firmware := ValueOf(firmware, "firmware", '='), disk := DiskOf(disk)))
  {
    FlagsRead();
    OtherFlagsRead();
    var a := ["--uefi", firmware, "--vmbus-scsi", "id=scsi0", "--disk", disk];
    var middle := r.(firmware := ValueOf(firmware, "firmware", '='));
    var after := middle.(disk := DiskOf(disk));
    assert Read(Options(), a, 6, after) == Some(after);
    assert Read(Options(), a, 4, middle) == Some(after);
    assert Read(Options(), a, 2, middle) == Some(after);
  }

  /** Options with one flag that the reader passes over change nothing. */
  lemma {:induction false} TablesAreSkipped(arguments: seq<string>, r: Settings)
    requires Smbios.ParseArguments(arguments, "--smbios").Some?
    ensures Reads(Options(), arguments, r, r)
  {
    if arguments != [] {
      OtherFlagsRead();
      TablesAreSkipped(arguments[2..], r);
      ReadsFlag(r, "--smbios", arguments[1]);
      ReadsConcat(Options(), ["--smbios", arguments[1]], arguments[2..], r, r, r);
      assert arguments == ["--smbios", arguments[1]] + arguments[2..];
    }
  }

  // ---- The plan ---------------------------------------------------------------------------

  /** What the command line has to say: every setting of the profile, every path resolved, and no
      write to a read-only base disk. */
  function SettingsOf(platform: Platform, c: VmConfig, base: string): Settings
    requires !c.boot.QemuUefi?
  {
    var machine := Machine(c.cpus, c.memoryMib);
    match c.boot
    case LinuxDirect(kernel, initrd, cmdline) =>
      machine.(kernel := Some(Resolve(platform, base, kernel)), initrd := Some(Resolve(platform, base, initrd)),
               cmdline := Some(cmdline))
    case Uefi(firmware, disk, readOnlyBase) =>
      machine.(firmware := Some(Resolve(platform, base, firmware)),
               disk := Some(Disk(Resolve(platform, base, disk), readOnlyBase)))
  }

  lemma LinuxBootReads(host: Host, c: VmConfig, base: string)
    requires c.boot.LinuxDirect? && PlanLinux(host, c, base).Some?
    ensures Reads(Options(), PlanLinux(host, c, base).value.arguments, NOTHING, SettingsOf(host.platform, c, base))
  {
    var machine := Machine(c.cpus, c.memoryMib);
    var kernel, initrd := Resolve(host.platform, base, c.boot.kernel), Resolve(host.platform, base, c.boot.initrd);
    MachineReads(c.cpus, c.memoryMib);
    LinuxReads(kernel, initrd, c.boot.cmdline, machine);
    ReadsConcat(Options(), OpenVmmArguments(c.cpus, c.memoryMib),
                ["--kernel", kernel, "--initrd", initrd, "--cmdline", c.boot.cmdline],
                NOTHING, machine, SettingsOf(host.platform, c, base));
  }

  lemma DiskTextReads(disk: string, readOnlyBase: bool)
    requires ',' !in disk
    ensures DiskOf((if readOnlyBase then "memdiff" else "file") + ":" + disk + ",on=scsi0")
         == Some(Disk(disk, readOnlyBase))
  {
    var mode := if readOnlyBase then "memdiff" else "file";
    assert mode + ":" + disk + ",on=scsi0" == mode + ":" + disk + "," + "on=scsi0";
    DiskReads(mode, disk, "on=scsi0");
    assert |"memdiff"| != |"file"|;
  }

  lemma UefiBootReads(host: Host, c: VmConfig, base: string)
    requires c.boot.Uefi? && PlanUefi(host, c, base).Some?
    ensures Reads(Options(), PlanUefi(host, c, base).value.arguments, NOTHING, SettingsOf(host.platform, c, base))
  {
    var machine := Machine(c.cpus, c.memoryMib);
    var firmware, disk := Resolve(host.platform, base, c.boot.firmware), Resolve(host.platform, base, c.boot.disk);
    var f := "firmware=" + firmware;
    var d := (if c.boot.readOnlyBase then "memdiff" else "file") + ":" + disk + ",on=scsi0";
    FirmwareReads(firmware);
    DiskTextReads(disk, c.boot.readOnlyBase);
    MachineReads(c.cpus, c.memoryMib);
    UefiReads(f, d, machine);
    ReadsConcat(Options(), OpenVmmArguments(c.cpus, c.memoryMib),
                ["--uefi", f, "--vmbus-scsi", "id=scsi0", "--disk", d],
                NOTHING, machine, SettingsOf(host.platform, c, base));
  }

  /** The command line of an OpenVMM plan, read back, is the profile with its paths resolved. */
  lemma OpenVmmPlanReadsBack(host: Host, c: VmConfig, base: string)
    requires Plan(host, c, base).Some? && !c.boot.QemuUefi?
    ensures var plan := Plan(host, c, base).value;
      && Reads(Options(), plan.arguments, NOTHING, SettingsOf(host.platform, c, base))
      && plan.executable == Resolve(host.platform, base, c.executable)
      && plan.name == c.name && plan.serialMarker == c.serialMarker
  {
    var settings := SettingsOf(host.platform, c, base);
    if c.boot.LinuxDirect? {
      LinuxBootReads(host, c, base);
    } else {
      UefiBootReads(host, c, base);
    }
    if c.identity.Some? {
      Smbios.PlanUnambiguous(c.identity.value, c.boot.LinuxDirect?);
      var tables := PlanIdentity(c.identity.value, c.boot).value.arguments;
      TablesAreSkipped(tables, settings);
      ReadsConcat(Options(), PlanBoot(host, c, base).value.arguments, tables, NOTHING, settings, settings);
    }
  }
}
