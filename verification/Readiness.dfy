/** When a launch plan calls itself ready: exactly when everything it names is there and its identity
    has been settled by a registration. */
module Readiness {
  import opened Wrappers
  import opened Paths
  import opened Config
  import opened Identities
  import Smbios

  predicate AllPresent(inputs: seq<Input>) {
    forall k | 0 <= k < |inputs| :: inputs[k].present
  }

  lemma PresentConcat(a: seq<Input>, b: seq<Input>)
    ensures AllPresent(a + b) <==> AllPresent(a) && AllPresent(b)
  {
    forall k | AllPresent(a + b) && 0 <= k < |a| ensures a[k].present {
      assert (a + b)[k] == a[k];
    }
    forall k | AllPresent(a + b) && 0 <= k < |b| ensures b[k].present {
      assert (a + b)[|a| + k] == b[k];
    }
  }

  predicate FileThere(host: Host, base: string, path: string) {
    host.isFile(Resolve(host.platform, base, path))
  }

  /** The directory that a control socket is to be made in. */
  predicate SocketCanBeMade(host: Host, base: string, socket: string) {
    match host.parent(Resolve(host.platform, base, socket))
    case Some(directory) => host.isDir(directory)
    case None => false
  }

  predicate BootThere(host: Host, base: string, boot: Boot) {
    match boot
    case LinuxDirect(kernel, initrd, _) => FileThere(host, base, kernel) && FileThere(host, base, initrd)
    case Uefi(firmware, disk, _) => FileThere(host, base, firmware) && FileThere(host, base, disk)
    case QemuUefi(firmware, variables, disk, _, _, _, _, cdrom, _, _, socket) =>
      && FileThere(host, base, firmware) && FileThere(host, base, variables) && FileThere(host, base, disk)
      && (cdrom.Some? ==> FileThere(host, base, cdrom.value))
      && (socket.Some? ==> SocketCanBeMade(host, base, socket.value))
  }

  /** A profile without identity, or one whose identifiers are both set. */
  predicate NeedsNoRegistration(i: Option<Identity>) {
    i.Some? ==> i.value.system.uuid.Some? && i.value.system.serial.Some?
  }

  lemma TwoPresent(a: Input, b: Input)
    ensures AllPresent([a, b]) <==> a.present && b.present
  {
    assert [a, b][0] == a && [a, b][1] == b;
  }

  lemma ThreePresent(a: Input, b: Input, c: Input)
    ensures AllPresent([a, b, c]) <==> a.present && b.present && c.present
  {
    assert [a, b, c][0] == a && [a, b, c][1] == b && [a, b, c][2] == c;
  }

  lemma OnePresent(a: Input)
    ensures AllPresent([a]) <==> a.present
  {
    assert [a][0] == a;
  }

  lemma OpenVmmInputs(host: Host, c: VmConfig, base: string)
    requires !c.boot.QemuUefi? && PlanBoot(host, c, base).Some?
    ensures AllPresent(PlanBoot(host, c, base).value.inputs) <==> BootThere(host, base, c.boot)
  {
    var inputs := PlanBoot(host, c, base).value.inputs;
    TwoPresent(inputs[0], inputs[1]);
  }

  lemma SocketInputs(host: Host, base: string, socket: Option<string>)
    requires PlanOptionalSocket(host, base, socket).Some?
    ensures AllPresent(PlanOptionalSocket(host, base, socket).value.inputs)
       <==> (socket.Some? ==> SocketCanBeMade(host, base, socket.value))
  {
    if socket.Some? {
      OnePresent(PlanOptionalSocket(host, base, socket).value.inputs[0]);
    }
  }

  lemma CdromInputs(host: Host, base: string, cdrom: Option<string>, others: seq<string>)
    requires PlanOptionalCdrom(host, base, cdrom, others).Some?
    ensures AllPresent(PlanOptionalCdrom(host, base, cdrom, others).value.inputs)
       <==> (cdrom.Some? ==> FileThere(host, base, cdrom.value))
  {
    if cdrom.Some? {
      OnePresent(PlanOptionalCdrom(host, base, cdrom, others).value.inputs[0]);
    }
  }

  lemma FilesThere(host: Host, boot: Boot, base: string)
    requires boot.QemuUefi? && PlanQemuFiles(host, boot, base).Some?
    ensures var files := PlanQemuFiles(host, boot, base).value;
      && (files.firmware.present <==> FileThere(host, base, boot.firmware))
      && (files.variables.present <==> FileThere(host, base, boot.variables))
      && (files.disk.present <==> FileThere(host, base, boot.disk))
  {
  }

  lemma QemuInputsAre(host: Host, c: VmConfig, base: string) returns (others: seq<string>)
    requires c.boot.QemuUefi? && PlanQemuBoot(host, c, base).Some?
    ensures PlanQemuFiles(host, c.boot, base).Some?
    ensures PlanOptionalSocket(host, base, c.boot.qmpSocket).Some?
    ensures PlanOptionalCdrom(host, base, c.boot.cdrom, others).Some?
    ensures var files := PlanQemuFiles(host, c.boot, base).value;
      PlanQemuBoot(host, c, base).value.inputs
      == [files.firmware, files.variables, files.disk]
         + PlanOptionalSocket(host, base, c.boot.qmpSocket).value.inputs
         + PlanOptionalCdrom(host, base, c.boot.cdrom, others).value.inputs
  {
    var files := PlanQemuFiles(host, c.boot, base).value;
    others := [host.canonical(files.firmware.path), host.canonical(files.variables.path),
               host.canonical(files.disk.path)];
  }

  lemma QemuInputs(host: Host, c: VmConfig, base: string)
    requires c.boot.QemuUefi? && PlanQemuBoot(host, c, base).Some?
    ensures AllPresent(PlanQemuBoot(host, c, base).value.inputs) <==> BootThere(host, base, c.boot)
  {
    var others := QemuInputsAre(host, c, base);
    var files := PlanQemuFiles(host, c.boot, base).value;
    var named := [files.firmware, files.variables, files.disk];
    var socket := PlanOptionalSocket(host, base, c.boot.qmpSocket).value.inputs;
    FilesThere(host, c.boot, base);
    ThreePresent(files.firmware, files.variables, files.disk);
    SocketInputs(host, base, c.boot.qmpSocket);
    CdromInputs(host, base, c.boot.cdrom, others);
    PresentConcat(named, socket);
    PresentConcat(named + socket, PlanOptionalCdrom(host, base, c.boot.cdrom, others).value.inputs);
  }

  lemma OpenVmmRegistration(i: Identity, linuxDirect: bool)
    requires Smbios.Plan(i, linuxDirect).Some?
    ensures Smbios.Plan(i, linuxDirect).value.plan.requiresRegistration <==> !NeedsNoRegistration(Some(i))
  {
    assert Identified(ApplyDefaults(i, linuxDirect)) <==> Identified(i);
  }

  lemma QemuRegistration(i: Identity)
    requires Smbios.PlanQemu(i).Some?
    ensures Smbios.PlanQemu(i).value.plan.requiresRegistration <==> !NeedsNoRegistration(Some(i))
  {
    OpenVmmRegistration(Type01(ApplyQemuDefaults(i)), true);
    assert Identified(ApplyQemuDefaults(i)) <==> Identified(i);
  }

  lemma RegistrationIsNeeded(i: Identity, boot: Boot)
    requires PlanIdentity(i, boot).Some?
    ensures PlanIdentity(i, boot).value.plan.requiresRegistration <==> !NeedsNoRegistration(Some(i))
  {
    if boot.QemuUefi? {
      QemuRegistration(i);
    } else {
      OpenVmmRegistration(i, boot.LinuxDirect?);
    }
  }

  /** A plan is ready if and only if the runtime and every input of the boot mode are there, the
      control socket can be made, and no identifier is left open. */
  lemma ReadyExactly(host: Host, c: VmConfig, base: string)
    requires Plan(host, c, base).Some?
    ensures Plan(host, c, base).value.ready
       <==> FileThere(host, base, c.executable) && BootThere(host, base, c.boot) && NeedsNoRegistration(c.identity)
  {
    var runtime := InputPath(host, base, c.executable, "runtime").value;
    var boot := PlanBoot(host, c, base).value;
    if c.boot.QemuUefi? {
      QemuInputs(host, c, base);
    } else {
      OpenVmmInputs(host, c, base);
    }
    if c.identity.Some? {
      RegistrationIsNeeded(c.identity.value, c.boot);
    }
    OnePresent(runtime);
    PresentConcat([runtime], boot.inputs);
  }
}
