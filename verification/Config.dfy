/** VM profiles: their validation, the launch plan they describe, and the resolution of their
    relative paths into a snapshot that no longer depends on a base directory. */
module Config {
  import opened Wrappers
  import opened Text
  import opened Paths
  import opened Identities
  import Smbios

  /** The parts of the host a plan looks at, fixed while it is made. */
  datatype Host = Host(
    platform: Platform, isFile: string -> bool, isDir: string -> bool, parent: string -> Option<string>,
    canonical: string -> string, socketAllowed: string -> bool)

  // ---- Paths ------------------------------------------------------------------------------

  predicate HasControl(text: string) {
    '\0' in text || '\n' in text || '\r' in text
  }

  function PathArgument(path: string): Option<string> {
    if HasControl(path) then None else Some(path)
  }

  function StructuredPathArgument(path: string): Option<string> {
    var text :- PathArgument(path);
    if ',' in text || '=' in text then None else Some(text)
  }

  // ---- Profiles ---------------------------------------------------------------------------

  datatype CpuModel = HostCpu | Compatible | Max
  datatype Graphics = Basic | VirglExperimental
  datatype Network = NoNetwork | UserNat

  datatype Boot =
    | LinuxDirect(kernel: string, initrd: string, cmdline: string)
    | Uefi(firmware: string, disk: string, readOnlyBase: bool)
    | QemuUefi(
        firmware: string, variables: string, disk: string, cpuModel: CpuModel, graphics: Graphics,
        network: Network, audio: bool, cdrom: Option<string>, readOnlyBase: bool, headless: bool,
        qmpSocket: Option<string>)

  datatype VmConfig = VmConfig(
    schemaVersion: nat, name: string, cpus: nat, memoryMib: nat, executable: string, boot: Boot,
    identity: Option<Identity>, serialMarker: Option<string>)

  predicate NameChar(c: char) {
    IsDigit(c) || 'a' <= c <= 'z' || 'A' <= c <= 'Z' || c in {'-', '_', '.'}
  }

  const RESERVED := [
    "CON", "PRN", "AUX", "NUL",
    "COM1", "COM2", "COM3", "COM4", "COM5", "COM6", "COM7", "COM8", "COM9",
    "LPT1", "LPT2", "LPT3", "LPT4", "LPT5", "LPT6", "LPT7", "LPT8", "LPT9"]

  predicate ValidName(name: string) {
    && 1 <= |name| <= 48
    && NameChar(name[0]) && name[0] !in {'-', '_', '.'}
    && (forall k | 0 <= k < |name| :: NameChar(name[k]))
    && name[|name| - 1] != '.'
    && Upper(Split(name, '.')[0]) !in RESERVED
  }

  predicate IsSpace(c: char) {
    c == ' ' || '\t' <= c <= '\r'
  }

  predicate ValidMarker(marker: string) {
    && (exists k | 0 <= k < |marker| :: !IsSpace(marker[k]))
    && |marker| <= 512 && '\0' !in marker
  }

  predicate ValidIdentity(i: Identity, boot: Boot) {
    if boot.QemuUefi? then ValidQemu(i) else Valid(i, boot.LinuxDirect?)
  }

  predicate ValidConfig(c: VmConfig) {
    && c.schemaVersion == 1 && 1 <= c.cpus <= 64 && 128 <= c.memoryMib <= 262_144
    && ValidName(c.name)
    && (c.boot.QemuUefi? ==> !(c.boot.headless && c.boot.graphics == VirglExperimental))
    && (c.identity.Some? ==> ValidIdentity(c.identity.value, c.boot))
    && (c.serialMarker.Some? ==> ValidMarker(c.serialMarker.value))
  }

  // ---- The launch plan --------------------------------------------------------------------

  datatype Input = Input(role: string, path: string, present: bool)

  datatype LaunchPlan = LaunchPlan(
    name: string, executable: string, arguments: seq<string>, inputs: seq<Input>, ready: bool,
    serialMarker: Option<string>, identity: Option<Smbios.IdentityPlan>)

  /** What a boot mode contributes: its arguments and the files they name. */
  datatype BootPlan = BootPlan(arguments: seq<string>, inputs: seq<Input>)

  function InputPath(host: Host, base: string, path: string, role: string): Option<Input> {
    if path == "" then None else
      var resolved := Resolve(host.platform, base, path);
      if HasControl(resolved) then None else Some(Input(role, resolved, host.isFile(resolved)))
  }

  function OpenVmmArguments(cpus: nat, memoryMib: nat): seq<string> {
    ["--hypervisor", "whp", "-p", NatText(cpus), "-m", NatText(memoryMib) + "MB",
     "--com1", "stderr", "--guest-shutdown-action", "exit",
     "--guest-crash-action", "exit:2", "--guest-reset-action", "exit:3"]
  }

  function PlanLinux(host: Host, c: VmConfig, base: string): Option<BootPlan>
    requires c.boot.LinuxDirect?
  {
    if |c.boot.cmdline| > 4096 || HasControl(c.boot.cmdline) then None else
      var kernel :- InputPath(host, base, c.boot.kernel, "kernel");
      var initrd :- InputPath(host, base, c.boot.initrd, "initrd");
      Some(BootPlan(
        OpenVmmArguments(c.cpus, c.memoryMib)
        + ["--kernel", kernel.path, "--initrd", initrd.path, "--cmdline", c.boot.cmdline],
        [kernel, initrd]))
  }

  function PlanUefi(host: Host, c: VmConfig, base: string): Option<BootPlan>
    requires c.boot.Uefi?
  {
    var firmware :- InputPath(host, base, c.boot.firmware, "firmware");
    var disk :- InputPath(host, base, c.boot.disk, "disk");
    var firmwareText :- StructuredPathArgument(firmware.path);
    var diskText :- StructuredPathArgument(disk.path);
    var mode := if c.boot.readOnlyBase then "memdiff" else "file";
    Some(BootPlan(
      OpenVmmArguments(c.cpus, c.memoryMib)
      + ["--uefi", "firmware=" + firmwareText, "--vmbus-scsi", "id=scsi0",
         "--disk", mode + ":" + diskText + ",on=scsi0"],
      [firmware, disk]))
  }

  function CpuName(m: CpuModel): string {
    match m
    case HostCpu => "host"
    case Compatible =>
      Join(["qemu64", "+ssse3", "+sse4.1", "+sse4.2", "+popcnt", "+cx16", "+lahf_lm", "-svm"], ',')
    case Max => "max"
  }

  function DisplayName(headless: bool, graphics: Graphics): string {
    if headless then "none"
    else "sdl," + Smbios.OptionText([Pair("gl", if graphics == VirglExperimental then "on" else "off")])
  }

  function VgaName(graphics: Graphics): string {
    match graphics
    case Basic => Join(["VGA", "vgamem_mb=32", "xres=1280", "yres=720"], ',')
    case VirglExperimental => Join(["virtio-vga-gl", "xres=1280", "yres=720", "max_outputs=1"], ',')
  }

  function NicName(network: Network): string {
    match network
    case NoNetwork => "none"
    case UserNat => Join(["user", "model=e1000e", "ipv6=off"], ',')
  }

  /** The machine settings QEMU is given besides paths. */
  datatype Machine = Machine(
    name: string, cpus: nat, memoryMib: nat, cpuModel: CpuModel, graphics: Graphics, network: Network,
    audio: bool, readOnlyBase: bool, headless: bool)

  function MachineOf(c: VmConfig): Machine
    requires c.boot.QemuUefi?
  {
    Machine(c.name, c.cpus, c.memoryMib, c.boot.cpuModel, c.boot.graphics, c.boot.network,
            c.boot.audio, c.boot.readOnlyBase, c.boot.headless)
  }

  function TopologyOptions(cpus: nat): seq<Pair<string, string>> {
    [Pair("sockets", "1"), Pair("cores", NatText(cpus)), Pair("threads", "1")]
  }

  function QemuMachine(m: Machine): seq<string> {
    ["-name", m.name, "-machine", "q35", "-accel", "whpx", "-cpu", CpuName(m.cpuModel),
     "-smp", NatText(m.cpus) + "," + Smbios.OptionText(TopologyOptions(m.cpus)),
     "-m", NatText(m.memoryMib), "-nodefaults"]
  }

  function FirmwareOptions(file: string): seq<Pair<string, string>> {
    [Pair("if", "pflash"), Pair("format", "raw"), Pair("readonly", "on"), Pair("file", file)]
  }

  function VariablesOptions(file: string): seq<Pair<string, string>> {
    [Pair("if", "pflash"), Pair("format", "raw"), Pair("file", file)]
  }

  function DiskOptions(file: string): seq<Pair<string, string>> {
    [Pair("if", "none"), Pair("id", "os"), Pair("format", "qcow2"), Pair("file", file)]
  }

  function CdromOptions(file: string): seq<Pair<string, string>> {
    [Pair("if", "none"), Pair("id", "cdrom"), Pair("media", "cdrom"), Pair("format", "raw"),
     Pair("readonly", "on"), Pair("file", file)]
  }

  function HardDiskOptions(): seq<Pair<string, string>> {
    [Pair("drive", "os"), Pair("bus", "ide.0"), Pair("bootindex", "1")]
  }

  function CdDriveOptions(): seq<Pair<string, string>> {
    [Pair("drive", "cdrom"), Pair("bus", "ide.1")]
  }

  function QemuDrives(firmware: string, variables: string, disk: string): seq<string> {
    ["-drive", Smbios.OptionText(FirmwareOptions(firmware)),
     "-drive", Smbios.OptionText(VariablesOptions(variables)),
     "-drive", Smbios.OptionText(DiskOptions(disk)),
     "-device", "ide-hd," + Smbios.OptionText(HardDiskOptions())]
  }

  function QemuDevices(m: Machine): seq<string> {
    ["-device", VgaName(m.graphics), "-device", "qemu-xhci", "-device", "usb-tablet",
     "-display", DisplayName(m.headless, m.graphics), "-nic", NicName(m.network),
     "-serial", "stdio", "-monitor", "none", "-rtc", "base=localtime"]
  }

  function QemuAudio(audio: bool): seq<string> {
    if !audio then []
    else
      ["-audiodev", "dsound," + Smbios.OptionText([Pair("id", "audio0")]), "-device", "intel-hda",
       "-device", "hda-output," + Smbios.OptionText([Pair("audiodev", "audio0")])]
  }

  function QemuArguments(m: Machine, firmware: string, variables: string, disk: string): seq<string> {
    QemuMachine(m) + QemuDrives(firmware, variables, disk) + QemuDevices(m)
    + QemuAudio(m.audio) + (if m.readOnlyBase then ["-snapshot"] else [])
  }

  function PlanSocket(host: Host, socket: string): Option<BootPlan> {
    if !host.socketAllowed(socket) then None else
      var parent :- host.parent(socket);
      var text :- StructuredPathArgument(socket);
      if |text| > 107 then None else
        Some(BootPlan(["-qmp", "unix:" + Join([text, "server=on", "wait=off"], ',')],
                      [Input("control_directory", parent, host.isDir(parent))]))
  }

  function PlanCdrom(host: Host, base: string, cdrom: string, others: seq<string>): Option<BootPlan> {
    var input :- InputPath(host, base, cdrom, "cdrom");
    if host.canonical(input.path) in others then None else
      var text :- StructuredPathArgument(input.path);
      Some(BootPlan(
        ["-drive", Smbios.OptionText(CdromOptions(text)),
         "-device", "ide-cd," + Smbios.OptionText(CdDriveOptions())],
        [input]))
  }

  /** The three files of a QEMU machine, which must be different files. */
  datatype QemuFiles = QemuFiles(firmware: Input, variables: Input, disk: Input)

  function PlanQemuFiles(host: Host, boot: Boot, base: string): Option<QemuFiles>
    requires boot.QemuUefi?
  {
    var firmware :- InputPath(host, base, boot.firmware, "firmware");
    var variables :- InputPath(host, base, boot.variables, "variables");
    var disk :- InputPath(host, base, boot.disk, "disk");
    var f, v, d := host.canonical(firmware.path), host.canonical(variables.path), host.canonical(disk.path);
    if f == v || f == d || v == d then None else Some(QemuFiles(firmware, variables, disk))
  }

  function PlanOptionalSocket(host: Host, base: string, socket: Option<string>): Option<BootPlan> {
    if socket.None? then Some(BootPlan([], [])) else PlanSocket(host, Resolve(host.platform, base, socket.value))
  }

  function PlanOptionalCdrom(host: Host, base: string, cdrom: Option<string>, others: seq<string>): Option<BootPlan> {
    if cdrom.None? then Some(BootPlan([], [])) else PlanCdrom(host, base, cdrom.value, others)
  }

  function PlanQemuBoot(host: Host, c: VmConfig, base: string): Option<BootPlan>
    requires c.boot.QemuUefi?
  {
    var files :- PlanQemuFiles(host, c.boot, base);
    var firmware :- StructuredPathArgument(files.firmware.path);
    var variables :- StructuredPathArgument(files.variables.path);
    var disk :- StructuredPathArgument(files.disk.path);
    var socket :- PlanOptionalSocket(host, base, c.boot.qmpSocket);
    var others := [host.canonical(files.firmware.path), host.canonical(files.variables.path),
                   host.canonical(files.disk.path)];
    var cdrom :- PlanOptionalCdrom(host, base, c.boot.cdrom, others);
    Some(BootPlan(
      QemuArguments(MachineOf(c), firmware, variables, disk) + socket.arguments + cdrom.arguments,
      [files.firmware, files.variables, files.disk] + socket.inputs + cdrom.inputs))
  }

  function PlanBoot(host: Host, c: VmConfig, base: string): Option<BootPlan> {
    match c.boot
    case LinuxDirect(_, _, _) => PlanLinux(host, c, base)
    case Uefi(_, _, _) => PlanUefi(host, c, base)
    case QemuUefi(_, _, _, _, _, _, _, _, _, _, _) => PlanQemuBoot(host, c, base)
  }

  function PlanIdentity(i: Identity, boot: Boot): Option<Smbios.Planned> {
    if boot.QemuUefi? then Smbios.PlanQemu(i) else Smbios.Plan(i, boot.LinuxDirect?)
  }

  function PlanOptionalIdentity(i: Option<Identity>, boot: Boot): Option<Option<Smbios.Planned>> {
    if i.None? then Some(None) else
      var planned :- PlanIdentity(i.value, boot);
      Some(Some(planned))
  }

  /** The finished plan, once the files and the identity are settled. */
  function Assemble(
    name: string, marker: Option<string>, runtime: Input, boot: BootPlan, identity: Option<Smbios.Planned>): LaunchPlan
  {
    var inputs := [runtime] + boot.inputs;
    var present := forall k | 0 <= k < |inputs| :: inputs[k].present;
    match identity
    case None => LaunchPlan(name, runtime.path, boot.arguments, inputs, present, marker, None)
    case Some(i) => LaunchPlan(
      name, runtime.path, boot.arguments + i.arguments, inputs,
      present && !i.plan.requiresRegistration, marker, Some(i.plan))
  }

  function Plan(host: Host, c: VmConfig, base: string): Option<LaunchPlan> {
    if !ValidConfig(c) then None else
      var runtime :- InputPath(host, base, c.executable, "runtime");
      var boot :- PlanBoot(host, c, base);
      var identity :- PlanOptionalIdentity(c.identity, c.boot);
      Some(Assemble(c.name, c.serialMarker, runtime, boot, identity))
  }

  // ---- Snapshots --------------------------------------------------------------------------

  function ResolveOptional(platform: Platform, base: string, path: Option<string>): Option<string> {
    if path.None? then None else Some(Resolve(platform, base, path.value))
  }

  function ResolveBoot(platform: Platform, base: string, boot: Boot): Boot {
    match boot
    case LinuxDirect(kernel, initrd, cmdline) =>
      LinuxDirect(Resolve(platform, base, kernel), Resolve(platform, base, initrd), cmdline)
    case Uefi(firmware, disk, readOnly) =>
      Uefi(Resolve(platform, base, firmware), Resolve(platform, base, disk), readOnly)
    case QemuUefi(firmware, variables, disk, cpu, graphics, network, audio, cdrom, readOnly, headless, socket) =>
      QemuUefi(
        Resolve(platform, base, firmware), Resolve(platform, base, variables), Resolve(platform, base, disk),
        cpu, graphics, network, audio,
        ResolveOptional(platform, base, cdrom), readOnly, headless, ResolveOptional(platform, base, socket))
  }

  function WithResolvedPaths(platform: Platform, c: VmConfig, base: string): VmConfig {
    c.(executable := Resolve(platform, base, c.executable), boot := ResolveBoot(platform, base, c.boot))
  }

  /** The snapshot the registry stores, for which a plan exists. */
  function Resolved(host: Host, c: VmConfig, base: string): Option<VmConfig> {
    if !ValidConfig(c) || !IsAbsolute(host.platform, base) then None else
      var r := WithResolvedPaths(host.platform, c, base);
      var _ :- Plan(host, r, base);
      Some(r)
  }

  /** All paths of a boot mode, the optional ones among them if they are given. */
  function PathsOf(boot: Boot): seq<string> {
    match boot
    case LinuxDirect(kernel, initrd, _) => [kernel, initrd]
    case Uefi(firmware, disk, _) => [firmware, disk]
    case QemuUefi(firmware, variables, disk, _, _, _, _, cdrom, _, _, socket) =>
      [firmware, variables, disk]
      + (if cdrom.Some? then [cdrom.value] else []) + (if socket.Some? then [socket.value] else [])
  }

  function AllPaths(c: VmConfig): seq<string> {
    [c.executable] + PathsOf(c.boot)
  }

  /** What a stored profile must satisfy: every path absolute. */
  predicate AbsolutePaths(platform: Platform, c: VmConfig) {
    forall k | 0 <= k < |AllPaths(c)| :: IsAbsolute(platform, AllPaths(c)[k])
  }

  /** Some path names a drive without a root. */
  predicate NamesDriveRelative(platform: Platform, c: VmConfig) {
    exists k :: 0 <= k < |AllPaths(c)| && DriveRelative(platform, AllPaths(c)[k])
  }

  /** Every input file is named. The control socket is not an input file. */
  predicate NamesBoot(boot: Boot) {
    match boot
    case LinuxDirect(kernel, initrd, _) => kernel != "" && initrd != ""
    case Uefi(firmware, disk, _) => firmware != "" && disk != ""
    case QemuUefi(firmware, variables, disk, _, _, _, _, cdrom, _, _, _) =>
      firmware != "" && variables != "" && disk != "" && cdrom != Some("")
  }

  predicate NamesInputs(c: VmConfig) {
    c.executable != "" && NamesBoot(c.boot)
  }

  lemma ResolvedPathsAt(platform: Platform, c: VmConfig, base: string)
    ensures var r := WithResolvedPaths(platform, c, base);
      && |AllPaths(r)| == |AllPaths(c)|
      && forall k | 0 <= k < |AllPaths(c)| :: AllPaths(r)[k] == Resolve(platform, base, AllPaths(c)[k])
  {
  }

  /** Resolution makes every path absolute, unless one was drive-relative. */
  lemma ResolvedPathsAreAbsolute(platform: Platform, c: VmConfig, base: string)
    requires IsAbsolute(platform, base)
    ensures AbsolutePaths(platform, WithResolvedPaths(platform, c, base)) <==> !NamesDriveRelative(platform, c)
  {
    var r := WithResolvedPaths(platform, c, base);
    ResolvedPathsAt(platform, c, base);
    forall k | 0 <= k < |AllPaths(c)|
      ensures IsAbsolute(platform, AllPaths(r)[k]) <==> !DriveRelative(platform, AllPaths(c)[k])
    {
      ResolvedIsAbsolute(platform, base, AllPaths(c)[k]);
    }
  }

  lemma ResolveTwice(platform: Platform, base: string, path: string, other: string)
    requires IsAbsolute(platform, base)
    ensures Resolve(platform, other, Resolve(platform, base, path)) == Resolve(platform, base, path)
  {
    ResolvedIsFixed(platform, base, path, other);
  }

  lemma ResolveOptionalTwice(platform: Platform, base: string, path: Option<string>, other: string)
    requires IsAbsolute(platform, base)
    ensures ResolveOptional(platform, other, ResolveOptional(platform, base, path))
         == ResolveOptional(platform, base, path)
  {
    if path.Some? {
      ResolveTwice(platform, base, path.value, other);
    }
  }

  lemma ResolveBootTwice(platform: Platform, base: string, boot: Boot, other: string)
    requires IsAbsolute(platform, base)
    ensures ResolveBoot(platform, other, ResolveBoot(platform, base, boot)) == ResolveBoot(platform, base, boot)
  {
    match boot
    case LinuxDirect(kernel, initrd, _) =>
      ResolveTwice(platform, base, kernel, other);
      ResolveTwice(platform, base, initrd, other);
    case Uefi(firmware, disk, _) =>
      ResolveTwice(platform, base, firmware, other);
      ResolveTwice(platform, base, disk, other);
    case QemuUefi(firmware, variables, disk, _, _, _, _, cdrom, _, _, socket) =>
      ResolveTwice(platform, base, firmware, other);
      ResolveTwice(platform, base, variables, other);
      ResolveTwice(platform, base, disk, other);
      ResolveOptionalTwice(platform, base, cdrom, other);
      ResolveOptionalTwice(platform, base, socket, other);
  }

  lemma ResolvedTwice(platform: Platform, c: VmConfig, base: string, other: string)
    requires IsAbsolute(platform, base)
    ensures var r := WithResolvedPaths(platform, c, base); WithResolvedPaths(platform, r, other) == r
  {
    ResolveTwice(platform, base, c.executable, other);
    ResolveBootTwice(platform, base, c.boot, other);
  }

  lemma ResolvedNamesInputs(platform: Platform, c: VmConfig, base: string)
    requires IsAbsolute(platform, base)
    ensures NamesInputs(WithResolvedPaths(platform, c, base))
  {
    var r := WithResolvedPaths(platform, c, base);
    ResolvedPathsAt(platform, c, base);
    forall k | 0 <= k < |AllPaths(r)| ensures AllPaths(r)[k] != "" {
      ResolvedIsFixed(platform, base, AllPaths(c)[k], base);
    }
    EveryPathNamed(r);
  }

  lemma EveryPathNamed(c: VmConfig)
    requires forall k | 0 <= k < |AllPaths(c)| :: AllPaths(c)[k] != ""
    ensures NamesInputs(c)
  {
    assert AllPaths(c)[0] == c.executable;
    forall k | 0 <= k < |PathsOf(c.boot)| ensures PathsOf(c.boot)[k] != "" {
      assert AllPaths(c)[k + 1] == PathsOf(c.boot)[k];
    }
    assert PathsOf(c.boot)[0] != "" && PathsOf(c.boot)[1] != "";
    if c.boot.QemuUefi? {
      assert PathsOf(c.boot)[2] == c.boot.disk;
      assert c.boot.cdrom.Some? ==> PathsOf(c.boot)[3] == c.boot.cdrom.value;
    }
  }

  lemma InputPathAlike(host: Host, base: string, path: string, other: string, role: string)
    requires IsAbsolute(host.platform, base)
    ensures path != "" ==>
      InputPath(host, other, Resolve(host.platform, base, path), role)
      == InputPath(host, base, path, role)
    ensures path == "" ==> InputPath(host, base, path, role) == None
  {
    ResolvedIsFixed(host.platform, base, path, other);
  }

  lemma PlanLinuxAlike(host: Host, c: VmConfig, base: string, other: string)
    requires IsAbsolute(host.platform, base) && c.boot.LinuxDirect?
    ensures NamesBoot(c.boot) ==>
      PlanLinux(host, WithResolvedPaths(host.platform, c, base), other)
      == PlanLinux(host, c, base)
    ensures !NamesBoot(c.boot) ==> PlanLinux(host, c, base) == None
  {
    InputPathAlike(host, base, c.boot.kernel, other, "kernel");
    InputPathAlike(host, base, c.boot.initrd, other, "initrd");
  }

  lemma PlanUefiAlike(host: Host, c: VmConfig, base: string, other: string)
    requires IsAbsolute(host.platform, base) && c.boot.Uefi?
    ensures NamesBoot(c.boot) ==>
      PlanUefi(host, WithResolvedPaths(host.platform, c, base), other)
      == PlanUefi(host, c, base)
    ensures !NamesBoot(c.boot) ==> PlanUefi(host, c, base) == None
  {
    InputPathAlike(host, base, c.boot.firmware, other, "firmware");
    InputPathAlike(host, base, c.boot.disk, other, "disk");
  }

  lemma PlanCdromAlike(host: Host, base: string, cdrom: Option<string>, other: string, files: seq<string>)
    requires IsAbsolute(host.platform, base)
    ensures cdrom != Some("") ==>
      PlanOptionalCdrom(host, other, ResolveOptional(host.platform, base, cdrom), files)
        == PlanOptionalCdrom(host, base, cdrom, files)
    ensures cdrom == Some("") ==> PlanOptionalCdrom(host, base, cdrom, files) == None
  {
    if cdrom.Some? {
      InputPathAlike(host, base, cdrom.value, other, "cdrom");
    }
  }

  lemma PlanSocketAlike(host: Host, base: string, socket: Option<string>, other: string)
    requires IsAbsolute(host.platform, base)
    ensures PlanOptionalSocket(host, other, ResolveOptional(host.platform, base, socket))
         == PlanOptionalSocket(host, base, socket)
  {
    if socket.Some? {
      ResolveTwice(host.platform, base, socket.value, other);
    }
  }

  lemma PlanFilesAlike(host: Host, boot: Boot, base: string, other: string)
    requires IsAbsolute(host.platform, base) && boot.QemuUefi?
    ensures boot.firmware != "" && boot.variables != "" && boot.disk != "" ==>
      PlanQemuFiles(host, ResolveBoot(host.platform, base, boot), other) == PlanQemuFiles(host, boot, base)
    ensures boot.firmware == "" || boot.variables == "" || boot.disk == "" ==>
      PlanQemuFiles(host, boot, base) == None
  {
    InputPathAlike(host, base, boot.firmware, other, "firmware");
    InputPathAlike(host, base, boot.variables, other, "variables");
    InputPathAlike(host, base, boot.disk, other, "disk");
  }

  lemma PlanQemuAlike(host: Host, c: VmConfig, base: string, other: string)
    requires IsAbsolute(host.platform, base) && c.boot.QemuUefi?
    ensures NamesBoot(c.boot) ==>
      PlanQemuBoot(host, WithResolvedPaths(host.platform, c, base), other)
      == PlanQemuBoot(host, c, base)
    ensures !NamesBoot(c.boot) ==> PlanQemuBoot(host, c, base) == None
  {
    PlanFilesAlike(host, c.boot, base, other);
    PlanSocketAlike(host, base, c.boot.qmpSocket, other);
    assert MachineOf(WithResolvedPaths(host.platform, c, base)) == MachineOf(c);
    var files := PlanQemuFiles(host, c.boot, base);
    if files.Some? {
      var others := [host.canonical(files.value.firmware.path), host.canonical(files.value.variables.path),
                     host.canonical(files.value.disk.path)];
      PlanCdromAlike(host, base, c.boot.cdrom, other, others);
    }
  }

  lemma PlanBootAlike(host: Host, c: VmConfig, base: string, other: string)
    requires IsAbsolute(host.platform, base)
    ensures NamesBoot(c.boot) ==>
      PlanBoot(host, WithResolvedPaths(host.platform, c, base), other)
      == PlanBoot(host, c, base)
    ensures !NamesBoot(c.boot) ==> PlanBoot(host, c, base) == None
  {
    match c.boot
    case LinuxDirect(_, _, _) => PlanLinuxAlike(host, c, base, other);
    case Uefi(_, _, _) => PlanUefiAlike(host, c, base, other);
    case QemuUefi(_, _, _, _, _, _, _, _, _, _, _) => PlanQemuAlike(host, c, base, other);
  }

  lemma IdentityAlike(host: Host, c: VmConfig, base: string)
    ensures var r := WithResolvedPaths(host.platform, c, base);
      PlanOptionalIdentity(r.identity, r.boot) == PlanOptionalIdentity(c.identity, c.boot)
    ensures ValidConfig(WithResolvedPaths(host.platform, c, base)) == ValidConfig(c)
  {
    var r := WithResolvedPaths(host.platform, c, base);
    assert r.boot.QemuUefi? == c.boot.QemuUefi? && r.boot.LinuxDirect? == c.boot.LinuxDirect?;
  }

  lemma PlanAlike(host: Host, c: VmConfig, base: string, other: string)
    requires IsAbsolute(host.platform, base)
    ensures NamesInputs(c) ==> Plan(host, WithResolvedPaths(host.platform, c, base), other) == Plan(host, c, base)
    ensures !NamesInputs(c) ==> Plan(host, c, base) == None
  {
    InputPathAlike(host, base, c.executable, other, "runtime");
    PlanBootAlike(host, c, base, other);
    IdentityAlike(host, c, base);
  }

  /** A stored snapshot no longer depends on where it is read: it can be planned from any
      directory, with one and the same plan, and resolving it again changes nothing. All its paths
      are absolute, as the registry demands of what it reads, if and only if the profile named no
      drive without a root. */
  lemma SnapshotIsFixed(host: Host, c: VmConfig, base: string, other: string)
    requires Resolved(host, c, base).Some?
    ensures var r := Resolved(host, c, base).value;
      && ValidConfig(r)
      && (AbsolutePaths(host.platform, r) <==> !NamesDriveRelative(host.platform, c))
      && Plan(host, r, other).Some? && Plan(host, r, other) == Plan(host, r, base)
      && (IsAbsolute(host.platform, other) ==> Resolved(host, r, other) == Some(r))
  {
    var r := Resolved(host, c, base).value;
    IdentityAlike(host, c, base);
    ResolvedPathsAreAbsolute(host.platform, c, base);
    ResolvedNamesInputs(host.platform, c, base);
    ResolvedTwice(host.platform, c, base, base);
    ResolvedTwice(host.platform, c, base, other);
    PlanAlike(host, r, base, other);
  }

  /** Resolution preserves the meaning of a profile exactly when the profile names every input
      file: then the snapshot has the plan the profile had in its own directory. An empty path
      is refused by the planner but resolves to the base directory, so such a profile has no
      plan while its snapshot has one. */
  lemma ResolutionPreservesPlan(host: Host, c: VmConfig, base: string, other: string)
    requires Resolved(host, c, base).Some?
    ensures Plan(host, Resolved(host, c, base).value, other) == Plan(host, c, base) <==> NamesInputs(c)
    ensures !NamesInputs(c) ==> Plan(host, c, base) == None
  {
    PlanAlike(host, c, base, other);
    SnapshotIsFixed(host, c, base, other);
  }

  /** An absolute path on either platform. */
  function RootPath(platform: Platform, name: string): (path: string)
    ensures IsAbsolute(platform, path)
  {
    if platform.Windows? then "C:/" + name else "/" + name
  }

  function LinuxProfile(platform: Platform, kernel: string): VmConfig {
    VmConfig(1, "g", 2, 512, RootPath(platform, "vm"), LinuxDirect(kernel, RootPath(platform, "i"), ""), None, None)
  }

  lemma LinuxProfileIsValid(platform: Platform, kernel: string)
    ensures ValidConfig(LinuxProfile(platform, kernel))
  {
    IndexOfAbsent("g", '.');
    assert |Upper("g")| == 1;
    assert ValidName("g");
  }

  lemma PlainInput(host: Host, base: string, name: string, role: string)
    requires !HasControl(name)
    ensures InputPath(host, base, RootPath(host.platform, name), role).Some?
  {
  }

  lemma LinuxProfileIsPlanned(host: Host, kernel: string, base: string)
    requires kernel != "" && !HasControl(Resolve(host.platform, base, kernel))
    ensures Plan(host, LinuxProfile(host.platform, kernel), base).Some?
  {
    LinuxProfileIsValid(host.platform, kernel);
    PlainInput(host, base, "vm", "runtime");
    PlainInput(host, base, "i", "initrd");
  }

  /** Such a profile is resolved whatever its kernel path, as long as that is one line of text. */
  lemma LinuxProfileResolves(host: Host, kernel: string, base: string)
    requires IsAbsolute(host.platform, base) && !HasControl(Resolve(host.platform, base, kernel))
    ensures Resolved(host, LinuxProfile(host.platform, kernel), base)
         == Some(LinuxProfile(host.platform, Resolve(host.platform, base, kernel)))
  {
    LinuxProfileIsValid(host.platform, kernel);
    ResolvedIsFixed(host.platform, base, kernel, base);
    LinuxProfileIsPlanned(host, Resolve(host.platform, base, kernel), base);
  }

  /** A profile with an empty kernel path: no plan, yet it can be resolved and registered. */
  lemma EmptyPathIsResolved(host: Host, base: string)
    requires IsAbsolute(host.platform, base) && !HasControl(Resolve(host.platform, base, ""))
    ensures Plan(host, LinuxProfile(host.platform, ""), base) == None
    ensures Resolved(host, LinuxProfile(host.platform, ""), base).Some?
  {
    LinuxProfileResolves(host, "", base);
  }

  /** A kernel on another drive, named without a root: the profile is resolved, so it can be
      registered, and its kernel path stays relative. */
  lemma DriveRelativeIsResolved(host: Host, base: string)
    requires host.platform.Windows? && IsAbsolute(host.platform, base)
    ensures var c := LinuxProfile(host.platform, "D:vmlinux");
      && Resolved(host, c, base) == Some(c)
      && NamesDriveRelative(host.platform, c) && !AbsolutePaths(host.platform, c)
  {
    DriveRelativeInput(host.platform, base);
    LinuxProfileResolves(host, "D:vmlinux", base);
    assert AllPaths(LinuxProfile(host.platform, "D:vmlinux"))[1] == "D:vmlinux";
  }
}
