/**
 The side effects of the persistent-disk cache, as data. Every subprocess,
 the hostname lookup and the creation of the mount directory are attempted
 by the model as an `Action`; what the outside world answers is read from a
 `World`, so each operation becomes a pure function of its inputs.
 */
module Effects {

  /** How a subprocess that did not succeed failed, as Go's exec package
      reports it. */
  datatype Failure =
    | NonZeroExit  // an *exec.ExitError: the process ran and exited unsuccessfully
    | OtherError   // any other error: the binary is missing, could not start, its pipes failed

  /** What running one subprocess to completion gave. */
  datatype CmdOutcome = Succeeded | Failed(how: Failure)

  /** What `os.Hostname` gave. */
  datatype HostLookup = Host(name: string) | HostError

  /** The answers of the outside world, one per kind of side effect. Within
      one acquisition each kind is attempted at most once, so one answer per
      kind is all the model needs. */
  datatype World = World(
    getDisk: CmdOutcome,        // gcutil getdisk
    addDisk: CmdOutcome,        // gcutil adddisk
    hostname: HostLookup,       // os.Hostname
    attachDisk: CmdOutcome,     // gcutil attachdisk
    mkdirOk: bool,              // os.MkdirAll of the mount point
    formatAndMount: CmdOutcome, // safe_format_and_mount
    mount: CmdOutcome,          // mount -t ext4
    save: CmdOutcome,           // sh -c "docker save ..."
    load: CmdOutcome)           // sh -c "cat ... | docker load"

  /** The external commands, with the operands that vary per image. The
      fixed flags (zone, disk size, file-system type) are part of each
      constructor's meaning. */
  datatype Command =
    | GetDisk(vol: string)
    | AddDisk(vol: string)
    | AttachDisk(vol: string, instance: string)
    | SafeFormatAndMount(device: string, mountpoint: string)
    | MountExt4(device: string, mountpoint: string)
    | SaveImage(imgID: string, dir: string)
    | LoadImage(imgID: string, dir: string)

  /** One side effect attempted, in the order it was attempted. */
  datatype Action =
    | Exec(cmd: Command)
    | LookupHostname
    | MkdirAll(path: string)

  /** The answer the world gives to a command. */
  function OutcomeOf(w: World, c: Command): CmdOutcome
  {
    match c
    case GetDisk(_) => w.getDisk
    case AddDisk(_) => w.addDisk
    case AttachDisk(_, _) => w.attachDisk
    case SafeFormatAndMount(_, _) => w.formatAndMount
    case MountExt4(_, _) => w.mount
    case SaveImage(_, _) => w.save
    case LoadImage(_, _) => w.load
  }

  /** Whether the world lets an action succeed. */
  predicate Succeeds(w: World, a: Action)
  {
    match a
    case Exec(c) => OutcomeOf(w, c).Succeeded?
    case LookupHostname => w.hostname.Host?
    case MkdirAll(_) => w.mkdirOk
  }

  /** The steps of an acquisition that wrap a failure with their name. */
  datatype Stage = CreateStage | AttachStage | FormatStage | LoadStage

  /** Go `error` values, as tagged values instead of message text. */
  datatype Error =
    | ExecError(how: Failure)                    // as returned by CombinedOutput
    | CommandError(cmd: Command, how: Failure)   // CallCommand's error naming the command
    | HostnameError                              // from os.Hostname
    | MkdirError(path: string)                   // from os.MkdirAll
    | StageFailed(stage: Stage, cause: Error)    // "<stage> failed: <cause>"
    | NotPrepared                                // "PD contents weren't prepared yet."

  /** The error an operation returns straight from a failed action, before
      any wrapping; `ExecError` for a raw subprocess failure. */
  function RawError(w: World, a: Action): (e: Error)
    requires !Succeeds(w, a)
    ensures e.ExecError? <==> a.Exec?
  {
    match a
    case Exec(c) => ExecError(OutcomeOf(w, c).how)
    case LookupHostname => HostnameError
    case MkdirAll(p) => MkdirError(p)
  }

  /** The result of an operation together with the actions it attempted. */
  datatype Traced<+T> = Traced(trace: seq<Action>, out: T)
}
