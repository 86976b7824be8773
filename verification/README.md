# Limiar and PVGPU: a verified model

This project models two parts of the Limiar repository in Dafny and proves what they promise.

**The managed-VM registry** (`crates/limiar`). Any number of processes register, update, start,
stop, unregister and query VMs through files and advisory locks, and any of them can die between
two file accesses.

- `Registry.dfy` is that protocol as a step machine: one program counter per process, one step per
  shared file access, crashes everywhere. A lease is a lock on a lock *file*, so removing and
  re-creating `run.lock` makes a different, unlocked lock.
- `RegistryInvariant.dfy` proves the inductive invariant; `RegistrySafety.dfy`, `RegistryStops.dfy`,
  `RegistryProgress.dfy`, `RegistryCompletion.dfy`, `RegistryRecords.dfy` and `RegisteredProfiles.dfy`
  prove what follows from it for every schedule: what never happens, and what an operation whose own
  accesses do not fail achieves whatever the other processes do.
- `Records.dfy`, `Config.dfy`, `Paths.dfy`, `Identity.dfy`, `Smbios.dfy` and `GuestReport.dfy` model
  what is stored: profile records, launch plans, path resolution on Unix and on Windows, identity
  materialisation, the printer of SMBIOS options (DMTF DSP0134 sections 7.1 to 7.4, types 0 to 3) and
  the checker of the guest's report.
- `Origins.dfy` tells where each materialised value comes from, `TableValues.dfy` which option and which
  DMI name carries it. `CommandLine.dfy`, `OpenVmmCommand.dfy` and `QemuCommand.dfy` read the command
  lines of both machine monitors as those monitors do, apart from the planner; `OpenVmmPlans.dfy` and
  `QemuPlans.dfy` prove that a plan, read back, is its profile. `Readiness.dfy` says when a plan is ready.
- `Runner.dfy` is the supervisor's poll loop, and `Supervision.dfy` shows that the ways it can end a run
  are ends that the protocol lets a supervisor have. `Text.dfy`, `Hexadecimal.dfy`, `Wrappers.dfy` and
  `Arithmetic.dfy` are helpers.

**The PVGPU command transport and heap** (`driver`, `backend`, `qemu-device`, `protocol`).

- `Bytes.dfy` and `Framing.dfy` define command bytes, padding and how a byte stream is cut into
  commands. `Ring.dfy` and `Driver.dfy` are the shared ring with its reader and its writers, as
  classes over arrays.
- `Transport.dfy` is the interleaving of guest and host, byte by byte; `Delivery.dfy`, `Submission.dfy`,
  `Arrival.dfy` and `Fences.dfy` prove what is delivered of the commands that callers submitted, how
  soon, and what a completed fence means. `FenceEncoding.dfy` ties fences to their bytes.
- `Drain.dfy` is one batch of the backend's drain loop against a guest that keeps publishing, and
  `Backend.dfy` the loop itself over the shared memory. `Refinement.dfy` links the byte-by-byte
  machine to the driver's write and flush and to the turns of that loop.
- `Heap.dfy`, `HeapHistory.dfy`, `Layout.dfy` and `Alignment.dfy` are the heap allocator, all its
  histories, the layout of shared memory, and what becomes of alignments above a block.

Inputs that come from outside are parameters: the file system as a record of functions, logs, clocks,
exits and stop flags as a sequence of turns, command handlers as a verdict, fresh UUIDs as arguments,
the values of the consumer pointer that the driver's wait loop reads.

## Where the code does not do what it says

The model follows the code. These are the places where a comment, a header or a promise says
something else. Each has a lemma with the exact condition, and where the code fails on an input that it
accepts, a lemma with that input.

- The driver pads every command to sixteen bytes, the backend advances by the size in the header
  (`driver/umd/pvgpu_umd.c:3239-3249`, `backend/src/command_processor.rs:127`). Streams are cut into
  the written commands exactly when every command announces its padded size
  (`Framing.FramingIsExact`). The driver's own fence has 24 bytes and announces 24, so it is never
  framed: behind it the backend reads a header of size zero and the transport stands still
  (`Framing.DriverFenceStalls`, `Delivery.NothingAfterShortFramed`, `Fences.FencesStopAtFirstShort`).
  A 36-byte command breaks a stream in the same way (`Framing.Command36Breaks`). Behind commands of
  44 bytes, such as PvgpuCmdSetBlendState and PvgpuCmdOpenResource, there are four bytes of padding:
  the backend takes them and the next command's type for a header and goes on with that type as the
  size (`Framing.FourShortMisreads`).
- `backend/src/main.rs:264-270` calls shader errors non-fatal and continues, but the consumer has not
  advanced: the same command is dispatched for ever (`Drain.ShaderErrorNeverEnds`). A batch never ends
  if and only if from some turn on it is offered one and the same command in every turn, whose shader
  never compiles or which is empty and handled (`Drain.NeverEndsOnOneCommand`). Without shader errors
  batches of framed commands are bounded
  (`Drain.FramedBatchIsBounded`), and so are all batches if handlers refuse short commands
  (`Drain.BatchIsBounded`).
- The fast and the wrap path of the reader treat incomplete commands differently; they agree exactly
  on complete commands (`Ring.ReadingIsPositionIndependent`). The comments there say that a header
  has 8 bytes; it has 16. An incomplete command is only pending behind an ill-framed one.
- Resolving a profile refuses none of the paths that planning refuses for being empty, because an
  empty relative path resolves to its base directory. Resolution preserves the plan exactly when every
  input path is named (`Config.ResolutionPreservesPlan`, `Config.EmptyPathIsResolved`).
- The registry demands absolute paths of every record it reads (`crates/limiar/src/registry.rs:172-202`)
  and relies on resolution to make them so. On Windows a path with a drive and no root, such as
  `D:vmlinux`, is not absolute, yet it replaces any base it is joined to, so it is stored as it is. A
  stored record passes the check if and only if the profile it stems from names no such path
  (`RegisteredProfiles.StoredRecordsStem`); otherwise the registration succeeds and nothing reads the
  record again (`RegisteredProfiles.UnreadableOnceRegistered`,
  `RegisteredProfiles.DriveRelativeKernelRegisters`).
- The allocator's offsets count from the start of shared memory, and both sides add them to the start
  of the heap. No shared memory that the device accepts makes that harmful; in general it is harmless
  exactly from 0x3002000 bytes on (`Layout.UsableExactly`).
- For an alignment above the block size the allocator rounds the block number up from the start of the
  heap, which lies one block past such a boundary. A returned offset is aligned exactly if its block
  number counted from the start of shared memory is a multiple (`Alignment.AlignedExactly`). For powers
  of two that is never so when the rounding works as intended, and otherwise up to where the second
  search lands (`Alignment.AlignedRequests`); the first request to a new heap already shows it
  (`Alignment.FirstRequestMisaligned`).

## Model

| member | source | states |
|---|---|---|
| RegistryInvariant.EveryStepKeeps | crates/limiar/src/registry.rs:243-627 | One step of any process, crash included, keeps the protocol invariant over guard, leases, supervisors, lock files and directories |
| RegistryInvariant.Reachable | crates/limiar/src/registry.rs:243-627 | The invariant holds after every schedule of any number of processes |
| RegistryInvariant.HolderSupervises | crates/limiar/src/registry.rs:380-381 | While a process holds the guard, whoever else holds a lease is a supervisor whose run is the one on disk |
| RegistrySafety.OneLease | crates/limiar/src/registry.rs:145-152 | In no reachable state do two processes hold the lease of one VM |
| RegistrySafety.SupervisorOwnsRun | crates/limiar/src/registry.rs:534-583 | While a supervisor lives, its VM is registered at the revision it started with and the run state on disk is its own, so the errors of update_run for a missing or changed run state cannot occur |
| RegistrySafety.EveryStepMovesRun | crates/limiar/src/registry.rs:587-624 | Every step moves a persisted run state by at most one edge Starting to Running or Failed, Running to Stopped or Failed, never unverifies it, and otherwise only a new run with a fresh id appears |
| RegistrySafety.RunMovesOnward | crates/limiar/src/registry.rs:566-624 | Over any stretch of a schedule a run id stays in one directory and its state only moves onward |
| RegistrySafety.RunsAreDistinct | crates/limiar/src/registry.rs:564-570 | No two directories hold the same run id |
| RegistryStops.AskersHaveProbed | crates/limiar/src/registry.rs:473-495 | A process about to write a stop request for a run found that run's supervisor with its own probe of the lease and has held the guard ever since |
| RegistryStops.RequestWasMade | crates/limiar/src/registry.rs:484-493 | A request file names a run only through the write of such a process: each request names the run that held the lease when it was made |
| RegistryStops.StopReachesOnlyItsRun | crates/limiar/src/registry.rs:298-309 | A run sees a stop request only if a forced stop found its own supervisor and then wrote the request; files left by earlier runs never stop a later one |
| RegistrySafety.StopNamesTheHolder | crates/limiar/src/registry.rs:480-493 | When a stop request is written, any living supervisor of the VM is the one it names |
| RegistrySafety.ProbeIsExact | crates/limiar/src/registry.rs:377-381 | The probe of the lease fails if and only if some supervisor of the VM lives |
| RegistrySafety.StatusIsExact | crates/limiar/src/registry.rs:382-412 | Active means Starting, Running or Stopping of the holder's run; inactive means no supervisor; Registered means no run; Interrupted means a lost run; the still-initializing branches are unreachable |
| RegistrySafety.StateIsExact | crates/limiar/src/registry.rs:382-412 | With a supervisor the reported state is Stopping exactly if its end is saved or the request on disk names its run, and otherwise the saved one; without one an unfinished run is Interrupted and a finished one Stopped or Failed as saved |
| RegistrySafety.LostByCrash | crates/limiar/src/registry.rs:396-405 | A run is lost only if its supervisor crashed before its end was on disk or gave up saving it |
| RegistryProgress.HolderMovesCloser | crates/limiar/src/registry.rs:145-152 | Whatever the guard holder's next step is and however it turns out, the guard is freed or the remaining-step measure falls |
| RegistryProgress.OthersDoNotInterfere | crates/limiar/src/registry.rs:243-256 | No step of another process moves the guard or its holder |
| RegistryProgress.GuardIsFreed | crates/limiar/src/registry.rs:585-587 | From any reachable state, fourteen steps of the holder free the guard under every interleaving |
| RegistryProgress.NoDeadlock | crates/limiar/src/registry.rs:585-587 | While any process is inside an operation, some process inside an operation can make a step |
| RegistryCompletion.ForcedStopIsWritten | crates/limiar/src/registry.rs:473-495 | A forced stop that has the guard while a supervisor watches its run leaves the guard, given fourteen steps, with a request on disk naming that run, under every interleaving in which neither of the two fails or crashes |
| RegistryCompletion.RequestIsSeen | crates/limiar/src/registry.rs:298-309 | Such a request stays while the supervisor lives, whatever anybody does, and the next poll of a started supervisor counts it as seen and turns to save the run as stopped |
| RegistryCompletion.SeenStopEndsRun | crates/limiar/src/registry.rs:587-624 | A poll that finds the request and the save after it end with that run Stopped on disk when the guard is left, under every interleaving without a failure of the supervisor |
| RegistryCompletion.EventIsSaved | crates/limiar/src/registry.rs:534-545 | A supervisor that finds the guard free and does not fail leaves it with its event on disk: started, verified, or ended as reported |
| RegistryCompletion.RegistrationStores | crates/limiar/src/registry.rs:311-337 | A registration of a new name whose accesses do not fail leaves the guard with its record stored |
| RegistryCompletion.UpdateStores | crates/limiar/src/registry.rs:339-365 | An update of a VM whose lease is free, that accepts the stored record and does not fail, leaves the guard with what it makes of that record stored |
| RegistryCompletion.UnregistrationRemoves | crates/limiar/src/registry.rs:446-471 | Unregistering a VM whose lease is free, without failures, leaves no directory of that name |
| RegistryCompletion.StartLaunches | crates/limiar/src/registry.rs:547-586 | A start of a registered VM whose lease is free, without failures, leaves its process supervising a new run of the stored revision, saved as Starting |
| RegistryRecords.RecordsObey | crates/limiar/src/registry.rs:311-365 | A law that first records obey and updates keep is obeyed by every record ever stored, under any schedule |
| RegistryRecords.RecordChangesByUpdate | crates/limiar/src/registry.rs:346-364 | A stored record changes only by one whole update, and never while a supervisor of the VM lives |
| RegistryRecords.RecordsEvolve | crates/limiar/src/registry.rs:339-365 | A transitive relation that every update in flight at one point or begun later keeps relates the record there to every later one of the registration |
| RegisteredProfiles.StoredRecordsStem | crates/limiar/src/registry.rs:154-204 | Under any schedule every stored record stems from the profile of some registration or update, and passes validate_record under its directory name if and only if that profile names no drive without a root |
| RegisteredProfiles.StoredRecordsAreValid | crates/limiar/src/registry.rs:279-283 | If no command's profile names a drive without a root, no operation ever fails on a record the registry wrote |
| RegisteredProfiles.UnreadableOnceRegistered | crates/limiar/src/registry.rs:311-337 | Registering any profile that names such a drive succeeds, and its record fails every later check, so that no update of it can succeed |
| RegisteredProfiles.DriveRelativeKernelRegisters | crates/limiar/src/registry.rs:311-337 | The failing input: on Windows, a profile whose kernel is D:vmlinux, registered from any directory |
| RegisteredProfiles.RevisionsIdentifyRecords | crates/limiar/src/registry.rs:352-363 | While a VM stays registered its revision never falls and equal revisions mean the same record |
| RegisteredProfiles.IdentifiersSurvive | crates/limiar/src/identity.rs:403-428 | While a VM stays registered its UUID and serials stay the same under any interleaving, if the updates of it in flight at some point or begun later use the default preset and backend and leave them open, whatever was done before |
| RegisteredProfiles.RegistrationSettles | crates/limiar/src/registry.rs:311-337 | The UUID and serial of a registered record are those of its profile, else the new UUID and the serial that spells its first half |
| RegisteredProfiles.UpdateSettles | crates/limiar/src/config.rs:421-431 | Those of an updated record are the profile's, else the stored record's, else new ones |
| RegisteredProfiles.RegisteredUuidsDiffer | crates/limiar/src/identity.rs:213-222 | Registrations that leave the UUID open and were given different new UUIDs store different UUIDs |
| Records.InitialRecordValid | crates/limiar/src/registry.rs:311-337 | Registering what resolution accepts succeeds with revision 1 and a sound record, which passes the check of every later read if and only if the profile names no drive without a root |
| Records.UpdatedRecordValid | crates/limiar/src/registry.rs:339-365 | An update of a sound record with what resolution accepts succeeds if and only if the revision is not exhausted, yields the next revision and a sound record, and one that passes the check if and only if the profile names no drive without a root |
| Records.UpdateCarries | crates/limiar/src/config.rs:421-431 | One update that leaves the identifiers open inherits all of them |
| Records.IdentifiersPersist | crates/limiar/src/registry.rs:339-365 | Along any chain of such updates the identifiers stay those of registration and the revision counts the updates |
| Identities.MaterializeTotal | crates/limiar/src/identity.rs:213-263 | Materialising an accepted identity never fails, yields an accepted, identified one and keeps every explicit value |
| Identities.MaterializeStable | crates/limiar/src/identity.rs:213-263 | No later snapshot and no new UUID changes a materialised identity |
| Identities.MaterializeQemuTotal | crates/limiar/src/identity.rs:368-428 | The same totality for the extended tables of the QEMU backend |
| Identities.MaterializeQemuStable | crates/limiar/src/identity.rs:368-428 | Materialising twice from one snapshot is materialising once; a custom identity may still inherit an open board serial from another snapshot |
| Origins.MaterializeOrigins | crates/limiar/src/identity.rs:213-237 | The UUID is the profile's, else the previous snapshot's, else the new one; the serial is the profile's, else the previous snapshot's, else it spells the first 64 bits of the UUID in upper-case hexadecimal |
| Origins.MaterializeQemuOrigins | crates/limiar/src/identity.rs:403-428 | The same for QEMU, and for the board and chassis serials one by one: a serial that was never set is derived from the UUID in the default preset and stays open in a custom identity |
| Origins.DefaultSerialsDiffer | crates/limiar/src/identity.rs:223-236 | Identities that leave UUID and serial open get different serials for UUIDs that differ in their first 64 bits |
| Origins.DefaultQemuSerialsDiffer | crates/limiar/src/identity.rs:393-401 | So do the system, board and chassis serials of QEMU machines |
| Origins.MaterializeFills | crates/limiar/src/identity.rs:240-263 | A custom identity gets identifiers and nothing else; the default preset fills every open slot of the system table and, for a direct Linux boot, of the BIOS table with the documented default |
| Origins.MaterializeQemuFills | crates/limiar/src/identity.rs:368-392 | The same of all four tables for QEMU |
| Smbios.AppendQemuTable | crates/limiar/src/identity.rs:489-505 | The loop records exactly the set values and prints exactly the set options, and no table when none is set |
| Smbios.TableReadsBack | crates/limiar/src/identity.rs:489-505 | A printed table split at commas and first equals signs is its type and the options that were printed |
| Smbios.TableIsExact | crates/limiar/src/identity.rs:265-327 | A printed table names no option twice and makes the guest report exactly the expected values, the firmware release normalised |
| Smbios.PlanUnambiguous | crates/limiar/src/identity.rs:265-327 | For every accepted identity the OpenVMM options read back as the system table and the BIOS table if it sets anything, with no injected or shadowed option, and expected_dmi is what they make the guest report |
| Smbios.PlanQemuIs | crates/limiar/src/identity.rs:430-487 | Rewriting flags and claiming UEFI on the shared plan, then appending tables, gives the intended QEMU plan |
| Smbios.PlanQemuUnambiguous | crates/limiar/src/identity.rs:430-487 | The same unambiguity for QEMU's four tables, the UEFI claim included |
| Smbios.MaterializedIsPlannable | crates/limiar/src/identity.rs:265-327 | A materialised identity plans without asking for registration |
| Smbios.MaterializedQemuIsPlannable | crates/limiar/src/identity.rs:430-487 | The same for the QEMU backend |
| TableValues.TablesCarry | crates/limiar/src/identity.rs:265-327 | Each option of a printed table has the value of its own field, and is missing if the field is; the uuid option is a hyphenated text whose digits spell the UUID |
| TableValues.UuidReadsBack | crates/limiar/src/identity.rs:285-288 | The printed UUID has its hyphens in their places and spells the UUID |
| TableValues.PlanTells | crates/limiar/src/identity.rs:265-327 | expected_dmi holds each set field under its own DMI name, the release with the numbers that were set, and no other field of the tables |
| TableValues.PlanQemuTells | crates/limiar/src/identity.rs:430-487 | The same for all four tables of QEMU |
| GuestReport.ScanAll | crates/limiar/src/identity.rs:516-552 | The loop over lines, with its flags and growing map, computes the scan |
| GuestReport.Verify | crates/limiar/src/identity.rs:507-575 | The checker returns the verdict that CheckExact characterises, or the source's errors |
| GuestReport.CheckExact | crates/limiar/src/identity.rs:507-575 | There is a verdict if and only if something is expected and the bounded transcript holds one BEGIN and one later END with all DMI lines between them, well formed and with distinct keys; it is a pass if and only if every expected field is reported with its value, the UUID up to case |
| GuestReport.PrintThenVerify | crates/limiar/src/identity.rs:507-575 | Printing any bounded map in any order amid unrelated lines and checking it passes |
| GuestReport.OtherValueFails | crates/limiar/src/identity.rs:553-560 | A block that reports another value for an expected field, up to case for the UUID, or none at all, does not pass |
| Paths.ResolvedIsAbsolute | crates/limiar/src/config.rs:433-442 | A path resolved against an absolute directory, on Unix or on Windows, is absolute if and only if it was not a drive without a root; then it stays what it was |
| Paths.ResolvedIsFixed | crates/limiar/src/config.rs:433-442 | A resolved path is not empty and stays the same when it is resolved again, against any directory |
| Paths.PlainIsBelowBase | crates/limiar/src/config.rs:436-442 | A plain relative path resolves to the base, one separator, and the path |
| OpenVmmPlans.OpenVmmPlanReadsBack | crates/limiar/src/config.rs:190-249 | The OpenVMM command line, read back, says what the profile says: processors, memory, kernel, initrd and command line or firmware and disk, every path resolved, the disk behind a memory overlay if and only if the base is read-only, serial output on the error stream and one exit code for each way to end |
| QemuPlans.QemuPlanReadsBack | crates/limiar/src/config.rs:250-391 | The QEMU command line, read back, says what the profile says: processors, memory, cpu model, firmware that cannot be written before variables that can, the disk attached as hard disk and a CD only if named, snapshot mode if and only if the base is read-only, graphics, display, network, sound and control socket, every path resolved |
| Readiness.ReadyExactly | crates/limiar/src/config.rs:392-418 | A plan is ready if and only if the runtime and every input file of the boot mode are files, the control socket has a directory, and no identifier is left open |
| Config.SnapshotIsFixed | crates/limiar/src/config.rs:433-475 | A resolved profile is valid, plans alike from every base and resolves to itself; all its paths are absolute if and only if the profile named no drive without a root |
| Config.ResolutionPreservesPlan | crates/limiar/src/config.rs:190-475 | A successful resolution preserves executable, arguments, inputs and readiness if and only if every input path is named |
| Config.EmptyPathIsResolved | crates/limiar/src/config.rs:570-590 | On both platforms a profile with an empty kernel path has no plan, yet resolves |
| Config.DriveRelativeIsResolved | crates/limiar/src/config.rs:433-475 | On Windows a profile with the kernel D:vmlinux resolves to itself, its kernel path still relative |
| Runner.ReadLogs | crates/limiar/src/runner.rs:111-130 | The bounded reads give the whole transcript, or nothing exactly when both logs exceed the limit |
| Runner.Poll | crates/limiar/src/runner.rs:172-228 | The loop reports what the first ending turn demands, announces the marker at most once and only if it reports it, and a finite timeout bounds the polls |
| Runner.SuccessIsSound | crates/limiar/src/runner.rs:172-228 | Success implies a readable, panic-free last transcript and the evidence its reason needs: exit status and marker, a stop request, or in smoke mode a marker first seen two seconds before |
| Runner.FailureIsSound | crates/limiar/src/runner.rs:172-228 | Each failure reason holds of the whole run: an unverified exit failed or no text of the run showed the marker; a timeout came with no exit, stop, panic or overlong log before it and, in smoke mode, with no marker two seconds before |
| Runner.MarkerIsExact | crates/limiar/src/runner.rs:178-200 | The marker is reported exactly if some transcript that was read shows it |
| Runner.LookIsExact | crates/limiar/src/runner.rs:111-130 | Unless both logs together are over the limit, a look reports a panic or a one-line marker if and only if one of the logs contains it |
| Runner.ExitCodeIsReported | crates/limiar/src/runner.rs:201-212 | The report has the code of the exit that the loop got to see, and no code otherwise |
| Supervision.WatchedRunEnds | crates/limiar/src/registry.rs:607-624 | However the poll loop ends a run, the protocol allows that end: the report shows an announced marker, and saving it moves the run to Stopped or Failed as reported and never unverifies it |
| Supervision.StoppedRunEnds | crates/limiar/src/runner.rs:213-217 | A stop request that the loop sees ends the run as the protocol's poll of it does |
| Framing.FramingIsExact | backend/src/command_processor.rs:54-127 | The stream of padded commands is cut into exactly those commands if and only if each announces its padded size |
| Framing.ShortSizeStalls | backend/src/command_processor.rs:54-127 | Behind a command that announces its own length with eight bytes of padding or more, no number of pending bytes holds a command that consumes anything |
| Framing.DriverFenceStalls | driver/umd/pvgpu_umd.c:1897-1904 | So it is for the driver's own 24-byte fence |
| Framing.Command36Breaks | driver/umd/pvgpu_umd.c:3239-3249 | A 36-byte command cannot be framed |
| Framing.WrittenLies | driver/umd/pvgpu_umd.c:3239-3250 | Each written command lies in the stream, padded, right behind the ones before it |
| Framing.FourShortMisreads | backend/src/command_processor.rs:54-67 | Behind a command in the stream that announces its own length and has four bytes of padding the backend reads a header of type zero whose size is the next command's type |
| Ring.SharedMemory.ReadPendingCommands | backend/src/shmem.rs:197-255 | The read hands over all pending bytes as one slice if they do not cross the wrap, else exactly one complete command, else nothing |
| Ring.SharedMemory.CopyOut | backend/src/shmem.rs:231-249 | The byte loops reassemble the logical stream across the wrap |
| Ring.ReadingIsPositionIndependent | backend/src/shmem.rs:209-254 | What is dispatched does not depend on where the pending bytes lie, if and only if a complete command of at least a header leads them |
| Ring.WriteAppends | driver/umd/pvgpu_umd.c:3343-3366 | A write that leaves room for the unread bytes appends to what the reader sees and overwrites nothing unread |
| Driver.CopyIntoRing | driver/umd/pvgpu_umd.c:3343-3361 | One or two chunks put the bytes at their counters and leave every other slot alone |
| Driver.UmdDevice.FlushCommandBuffer | driver/umd/pvgpu_umd.c:3264-3379 | A flush moves exactly the staged bytes, only after reading a consumer pointer that leaves room for all of them, and publishes them; without shared memory it discards them |
| Driver.UmdDevice.WriteCommand | driver/umd/pvgpu_umd.c:3228-3255 | A command of at least a header is staged padded with zeros behind the staged ones, after a flush exactly when it does not fit; a shorter one changes nothing |
| Driver.SubmitToRing | driver/kmd/pvgpu.c:1011-1058 | The kernel driver appends its command to the unread bytes if and only if there is room |
| Transport.EveryStepSafe | backend/src/shmem.rs:197-263 | Every step of guest or host keeps ring, staging and reader consistent |
| Transport.RingIsSafe | driver/umd/pvgpu_umd.c:3264-3379 | Under every interleaving, byte by byte, the consumer is at most the producer, which is at most one ring ahead, unread slots show the published stream, published plus staged bytes are the padded written commands, and what the host has read is the stream |
| Delivery.ConsumesExactly | backend/src/main.rs:217-232 | Without any premise on commands, handled commands parse the consumed stream and the consumer advances by exactly their sizes |
| Delivery.DeliveredInOrder | backend/src/main.rs:217-289 | If the commands written, which Submission.NothingIsLost ties to the calls, are framed, those handled are the first ones written, whole, once each and in order, wherever flushes, wraps and batch ends fall; between commands the unread bytes are the other published commands, whole, and nothing unread means everything published was handled |
| Submission.NothingIsLost | driver/umd/pvgpu_umd.c:3228-3255 | In every reachable state the commands written, and the one that waits for the flush it forced, are exactly those that accepted calls submitted, in order; this is told from the calls alone |
| Submission.SubmittedAreDelivered | backend/src/main.rs:217-289 | If the submitted commands are framed, those handled are the first submitted ones, padded, once each and in order, and all of them once nothing is staged, pending or unread |
| Delivery.DeliveryIsFraming | backend/src/main.rs:217-289 | In every reachable state what was handled is what was written, whole and in order, if and only if those commands announce their padded sizes |
| Delivery.DeliveredUpTo | backend/src/main.rs:217-289 | In general the commands in front of the first ill-framed one are delivered |
| Delivery.FramedNeverGivesUp | backend/src/shmem.rs:197-254 | With framed commands no unread byte is given up: a poll finds it and every host step brings the next written command nearer to its handler, whole |
| Arrival.NextCommandIsHandled | backend/src/main.rs:217-232 | Under any interleaving with the guest, the next framed command reaches its handler within eleven host steps more than it has bytes |
| Delivery.NothingAfterShortFramed | backend/src/command_processor.rs:127 | After the first command that announces its unpadded length with eight bytes of padding or more, only empty commands are handled and the consumer stands still |
| Fences.MaxFenceIsMaximum | backend/src/main.rs:230-242 | The running maximum is an upper bound of the handled fence values and is attained |
| Fences.CompletedFenceIsMaximum | backend/src/main.rs:230-242 | For any commands whose fences have at least their 24 bytes, the completed fence is, between commands, the maximum of the handled fences, it never falls, and there was one interrupt for each rise |
| Fences.CompletedIsIssued | driver/umd/pvgpu_umd.c:2036-2061 | With framed commands and the driver's numbering the completed fence never exceeds the fences issued and between commands counts those delivered |
| Fences.CompletedMeansDone | driver/umd/pvgpu_umd.c:1896-1905 | A guest that sees a fence completed knows that every command before it was handled and consumed, if those are framed |
| Fences.FencesStopAtFirstShort | driver/umd/pvgpu_umd.c:1897-1904 | Once a command announces its unpadded length, as the driver's fences do, the completed fence never rises above the fences issued up to the first such command, whatever is written later |
| FenceEncoding.FencesReadBack | backend/src/command_processor.rs:543-545 | The backend takes a command for a fence with a value if and only if its first four bytes are the fence type and bytes 16 to 24 are the value, little-endian |
| FenceEncoding.FenceBytesEncode | protocol/pvgpu_protocol.h:517-520 | A type, a size, eight more header bytes and a value laid out as the protocol says are a fence with that value, padded or not |
| FenceEncoding.DriverFenceEncodes | driver/umd/pvgpu_umd.c:1897-1904 | The driver's own fence with any 64-bit value is read as a fence with that value, padded or not |
| FenceEncoding.CompletedIsEncoded | backend/src/main.rs:230-242 | Between commands the completed fence is at least every value that a handled command encodes, and some handled command encodes it unless it is zero |
| FenceEncoding.SubmittedFenceCompletes | driver/umd/pvgpu_umd.c:1896-1905 | Once the host has handled a submitted fence with everything in front of it framed, and rests, at least its value is completed |
| Drain.BatchIsBounded | backend/src/main.rs:217-289 | Against a guest that publishes anything before every poll: if handlers never fail to compile and accept no command shorter than a header, a batch ends within 65537 turns, consumes at most one mebibyte and one command, and advances the consumer by exactly the handled sizes |
| Drain.FramedBatchIsBounded | backend/src/main.rs:217-289 | The same bounds if the guest publishes framed commands and shaders compile, whatever handlers think of short commands |
| Drain.LongBatchesIdle | backend/src/main.rs:217-289 | For any guest and handlers: a batch that has not ended consumed a header's worth in each turn but its idle ones, at most 65536 |
| Drain.NeverEndsOnOneCommand | backend/src/main.rs:217-289 | A batch never ends if and only if from some turn on it is offered one and the same command in every turn, whose shader does not compile or which is empty and handled |
| Drain.NeverEndsExactly | backend/src/main.rs:217-289 | The same in terms of turns: a batch never ends if and only if from some turn on every turn idles |
| Drain.WhenTurnsIdle | backend/src/main.rs:249-289 | A turn idles exactly if its shader does not compile, or its command is handled, shorter than a header and does not take the batch over the limit |
| Drain.ShaderErrorNeverEnds | backend/src/main.rs:254-270 | A complete command whose shader does not compile keeps the batch from ending and the consumer from moving, whatever is published |
| Drain.ZeroSizeEndsAtTheWrap | backend/src/main.rs:217-289 | A header that announces no bytes consumes nothing, and the batch ends exactly when what is published behind it reaches the wrap |
| Refinement.TurnIsTurn | backend/src/main.rs:217-289 | Left alone from one poll to the next, the byte-by-byte host makes exactly one turn of the drain loop |
| Refinement.WriteIsWrite | driver/umd/pvgpu_umd.c:3228-3255 | An undisturbed Write of the byte-by-byte guest does what WriteCommand promises: stage the padded command behind the staged ones, or behind none after a flush of all of them exactly when it does not fit; a command shorter than a header changes nothing |
| Refinement.FlushCallIsFlush | driver/umd/pvgpu_umd.c:3264-3379 | An undisturbed Flush call publishes exactly the staged bytes and leaves none staged |
| Refinement.FlushIsFlush | driver/umd/pvgpu_umd.c:3264-3379 | A flush of the byte-by-byte guest that finds room does what FlushCommandBuffer promises |
| Backend.CommandLoop.DrainBatch | backend/src/main.rs:197-289 | The loop over the shared memory makes exactly the turns of the batch model until the batch ends |
| Backend.CommandLoop.DrainOnce | backend/src/main.rs:217-289 | One turn reads, dispatches, advances and completes a fence as the model says |
| Heap.HeapAllocator.constructor | driver/kmd/pvgpu.c:1067-1108 | All blocks start clear; the free count is taken before the number of blocks is capped |
| Heap.HeapAllocator.Alloc | driver/kmd/pvgpu.c:1125-1190 | A request takes the placed clear run, returns its offset and rounded size and lowers the free count, or fails, changing nothing, exactly if no clear run is long enough |
| Heap.HeapAllocator.Free | driver/kmd/pvgpu.c:1193-1228 | A range inside the heap is cleared and counted free, allocated or not, and any other is refused and nothing changes |
| Heap.FreeFindsRange | driver/kmd/pvgpu.c:1200-1216 | The offset that an allocation returned, freed with the requested size, is never refused and clears exactly the blocks it took |
| Heap.FindClearBits | driver/kmd/pvgpu.c:1152-1169 | The search finds a clear run whenever there is one, whatever the hint |
| Heap.TakeKeepsBalance | driver/kmd/pvgpu.c:1178-1179 | The free count never underflows and keeps its distance to the clear bits |
| HeapHistory.LiveRangesAreExact | driver/kmd/pvgpu.c:1067-1228 | Over any sequence of requests and matching frees, live ranges are disjoint, their blocks are exactly the set bits, and free blocks minus clear bits is the number of blocks beyond the cap |
| HeapHistory.AllocateThenFree | driver/kmd/pvgpu.c:1125-1228 | In every such state a request fails exactly if no clear run is long enough, and freeing it at once restores the heap |
| HeapHistory.SmallAlignmentsHold | driver/kmd/pvgpu.c:1142-1147 | Alignments that divide the block size are met |
| Alignment.AlignedStartRounds | driver/kmd/pvgpu.c:1164-1167 | For a power of two of blocks the bit mask rounds a block number up to the least multiple |
| Alignment.AlignedExactly | driver/kmd/pvgpu.c:1183 | A returned offset meets an alignment of some blocks if and only if its block number from the start of shared memory is a multiple of them |
| Alignment.RoundingMisaligns | driver/kmd/pvgpu.c:1164-1175 | In the device's layout a request for any power of two of blocks above one is misaligned whenever the run at the rounded first fit is clear |
| Alignment.AlignedRequests | driver/kmd/pvgpu.c:1152-1184 | Such a request is aligned if and only if that run is taken and the second search lands on a block whose number from the start of shared memory is a multiple |
| Alignment.FirstRequestMisaligned | driver/kmd/pvgpu.c:1125-1184 | So is the first request to every new heap, for every size and every such alignment |
| Layout.RegionsTile | qemu-device/pvgpu.c:651-674 | Control region, ring and heap tile every shared memory the device accepts |
| Layout.LiveRangesAreAccepted | backend/src/command_processor.rs:436-446 | After any history of the heap the backend's bounds check accepts every live range |
| Layout.LiveRangesAreDisjoint | driver/umd/pvgpu_umd.c:1771-1776 | No two live ranges overlap where drivers and backend put their data |
| Layout.UsableExactly | qemu-device/pvgpu.c:692-695 | Every block is usable at the start of the heap if and only if shared memory has at least 0x3002000 bytes or there is no block |

## Left out

- The registry's methods as class methods over files: the protocol is a machine whose steps are the single file accesses, because interleavings and crashes are its subject; the waiting loops of the guard and of stop are the repeated failing steps of that machine, without their clocks.
- Identity materialisation and defaulting change a structure in place; here they are functions from the old value to the new one, so aliasing is not modelled.
- list, show and preview are reads that status and plan already cover; the creation of the registry directory, timestamps, JSON and TOML decoding, schema versions, canonical paths and links are not modelled.
- RegistryInvariant.Reachable: takes run ids as globally fresh and replacing a file as atomic, and a failing unregister leaves whatever files it had not removed.
- Error texts and exit codes of the command line: an operation that fails is an operation that returns nothing.
- Runner.Poll: a notification or a log read that fails with an I/O error ends the run in the registry protocol, not in the poll loop.
- MaterializeQemuStable: relative to one previous snapshot, because a custom identity can inherit an open board serial from a later one.
- QemuPlans.QemuPlanReadsBack: the reader passes over what no profile setting decides, such as the features of the compatible processor, screen sizes, buses, USB devices, the monitor and the clock.
- Readiness.ReadyExactly: the host's answers about files and directories are those given while the plan is made.
- Submission.SubmittedAreDelivered: calls made while an earlier call is still flushing are not submissions, because the driver has one caller.
- Paths: text behind a verbatim prefix is normalised on Windows when a path is joined to it, and the model leaves the result to the host; the file system's answers about a path are fixed while a plan is made, so a drive's current directory is not modelled.
- The standard library's rules for path prefixes and joining are not part of this repository; they are modelled after its documentation.
- Weak memory: pointer loads and stores are taken in program order, as the barriers and acquire and release orderings intend.
- Wrap-around of the 64-bit ring counters and fence values: they are unbounded.
- Device reset, which zeroes the shared pointers without the driver's knowledge: ring properties hold between resets.
- The kernel driver and the user-mode driver as simultaneous producers: there is one active producer.
- Driver.UmdDevice.FlushCommandBuffer: takes the consumer values of its polls as an argument and that at last one leaves room, since otherwise its wait does not end.
- Arrival.NextCommandIsHandled: handlers that fail keep their command from being handled; the theorem is about reaching the handler, not about handlers succeeding.
- Driver.UmdDevice.WriteCommand: takes payloads no larger than the staging buffer; the source has no such check and would write past the buffer's end.
- Fences.CompletedFenceIsMaximum: a fence command that announces fewer than 24 bytes is not treated as a fence; the source's handler reads its value from whatever lies behind the command.
- Fences.FencesStopAtFirstShort: the commands in front of the first short one are framed; behind a command with four bytes of padding the backend reads headers out of other bytes, and its fences could be anything.
- WAIT_FENCE result codes of the kernel driver, presentation, resize and handler effects on graphics objects.
- Heap.HeapAllocator.Alloc: requests of zero bytes or within one block of 4 GiB, whose rounding wraps to no blocks, are excluded, because what RtlFindClearBits does with a length of zero is not in this repository.
- HeapHistory.LiveRangesAreExact: frees of ranges that are not live are excluded; the allocator does not detect them.
- RtlFindClearBits is not part of this repository: it is modelled as first fit from the hint, then from the start.
- Shaders, adapters, windows, host inventory, IPC framing and the ISO builder.
