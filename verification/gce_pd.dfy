/**
 The persistent-disk image cache: one function per operation, each a pure
 function of the image ID and of the world's answers, returning the actions
 it attempted (in order) together with its Go results.
 */
module GcePd {
  import opened Wrappers
  import opened Naming
  import opened Effects

  /** Result of the existence check: Go's `(bool, error)`. */
  datatype Probe = Probe(found: bool, err: Option<Error>)

  /** Result of the two mounting operations: Go's `(string, error)`. */
  datatype Mounted = Mounted(path: string, err: Option<Error>)

  /** Runs a command through the one error-formatting chokepoint: a failure
      comes back as an error that names the command. */
  function CallCommand(c: Command, o: CmdOutcome): (r: Traced<Option<Error>>)
    ensures r.trace == [Exec(c)]
    ensures r.out.None? <==> o.Succeeded?
    ensures r.out.Some? ==> r.out.value == CommandError(c, o.how)
  {
    match o
    case Succeeded => Traced([Exec(c)], None)
    case Failed(how) => Traced([Exec(c)], Some(CommandError(c, how)))
  }

  /** Writes the image into its own file inside the image's mount directory.
      Despite its name it only saves: no detach or re-attach happens. */
  function SaveToPdAndReattach(id: string, w: World): (r: Traced<Option<Error>>)
    requires ValidId(id)
    ensures r.trace == [Exec(SaveImage(id, ImgDir(id)))]
    ensures r.out.None? <==> w.save.Succeeded?
    ensures r.out.Some? ==> r.out.value == CommandError(SaveImage(id, ImgDir(id)), w.save.how)
  {
    CallCommand(SaveImage(id, ImgDir(id)), w.save)
  }

  /** Imports the image from its file inside the image's mount directory. */
  function LoadFromPd(id: string, w: World): (r: Traced<Option<Error>>)
    requires ValidId(id)
    ensures r.trace == [Exec(LoadImage(id, ImgDir(id)))]
    ensures r.out.None? <==> w.load.Succeeded?
    ensures r.out.Some? ==> r.out.value == CommandError(LoadImage(id, ImgDir(id)), w.load.how)
  {
    CallCommand(LoadImage(id, ImgDir(id)), w.load)
  }

  /** Saving and loading address the same file: the same image in the same
      directory. */
  lemma SaveAndLoadShareFile(id: string, w: World)
    requires ValidId(id)
    ensures SaveToPdAndReattach(id, w).trace[0].cmd.imgID == LoadFromPd(id, w).trace[0].cmd.imgID == id
    ensures SaveToPdAndReattach(id, w).trace[0].cmd.dir == LoadFromPd(id, w).trace[0].cmd.dir
  {
  }

  /** Asks the disk service whether the image's volume exists. A process
      that ran and exited unsuccessfully means "no such disk"; any other
      failure is reported as an error. */
  function PdImageExists(id: string, w: World): (r: Traced<Probe>)
    requires ValidId(id)
    ensures r.trace == [Exec(GetDisk(VolName(id)))]
    ensures !(r.out.found && r.out.err.Some?)
    ensures r.out.found <==> w.getDisk == Succeeded
    ensures r.out.err.Some? <==> w.getDisk == Failed(OtherError)
    ensures r.out.err.Some? ==> r.out.err.value == ExecError(OtherError)
  {
    var t := [Exec(GetDisk(VolName(id)))];
    match w.getDisk
    case Succeeded => Traced(t, Probe(true, None))
    case Failed(NonZeroExit) => Traced(t, Probe(false, None))
    case Failed(OtherError) => Traced(t, Probe(false, Some(ExecError(OtherError))))
  }

  /** Creates the image's volume. */
  function CreatePdImage(id: string, w: World): (r: Traced<Option<Error>>)
    requires ValidId(id)
    ensures r.trace == [Exec(AddDisk(VolName(id)))]
    ensures r.out.None? <==> w.addDisk.Succeeded?
    ensures r.out.Some? ==> r.out.value == ExecError(w.addDisk.how)
  {
    var t := [Exec(AddDisk(VolName(id)))];
    match w.addDisk
    case Succeeded => Traced(t, None)
    case Failed(how) => Traced(t, Some(ExecError(how)))
  }

  /** Attaches the image's volume to this host, which is named by its
      hostname; without a hostname nothing is attached. */
  function AttachPdImage(id: string, w: World): (r: Traced<Option<Error>>)
    requires ValidId(id)
    ensures 1 <= |r.trace| <= 2 && r.trace[0] == LookupHostname
    ensures w.hostname.HostError? ==> r.trace == [LookupHostname] && r.out == Some(HostnameError)
    ensures w.hostname.Host? ==> r.trace[1..] == [Exec(AttachDisk(VolName(id), w.hostname.name))]
    ensures r.out.None? <==> w.hostname.Host? && w.attachDisk.Succeeded?
    ensures w.hostname.Host? && w.attachDisk.Failed? ==> r.out == Some(ExecError(w.attachDisk.how))
  {
    match w.hostname
    case HostError => Traced([LookupHostname], Some(HostnameError))
    case Host(instance) =>
      var t := [LookupHostname, Exec(AttachDisk(VolName(id), instance))];
      match w.attachDisk
      case Succeeded => Traced(t, None)
      case Failed(how) => Traced(t, Some(ExecError(how)))
  }

  /** Creates the mount directory, then runs the mounting command in it; the
      shape `formatAndMount` and `justMountPdImage` share. */
  function MkdirThenMount(dir: string, mkdirOk: bool, c: Command, o: CmdOutcome): Traced<Mounted>
  {
    if !mkdirOk then
      Traced([MkdirAll(dir)], Mounted("", Some(MkdirError(dir))))
    else
      match o
      case Succeeded => Traced([MkdirAll(dir), Exec(c)], Mounted(dir, None))
      case Failed(how) => Traced([MkdirAll(dir), Exec(c)], Mounted("", Some(ExecError(how))))
  }

  /** Formats the freshly attached disk as ext4 and mounts it on the image's
      directory. Returns that directory on success and "" on any failure. */
  function FormatAndMount(id: string, w: World): (r: Traced<Mounted>)
    requires ValidId(id)
    ensures r.out.err.None? <==> w.mkdirOk && w.formatAndMount.Succeeded?
    ensures r.out.path == (if r.out.err.None? then ImgDir(id) else "")
    ensures 1 <= |r.trace| <= 2 && r.trace[0] == MkdirAll(ImgDir(id))
    ensures !w.mkdirOk ==> |r.trace| == 1 && r.out.err == Some(MkdirError(ImgDir(id)))
    ensures w.mkdirOk ==> r.trace[1..] == [Exec(SafeFormatAndMount(DevPath(VolName(id)), ImgDir(id)))]
    ensures w.mkdirOk && w.formatAndMount.Failed? ==> r.out.err == Some(ExecError(w.formatAndMount.how))
  {
    var dir := ImgDir(id);
    MkdirThenMount(dir, w.mkdirOk, SafeFormatAndMount(DevPath(VolName(id)), dir), w.formatAndMount)
  }

  /** Mounts the already formatted disk on the image's directory. Returns
      that directory on success and "" on any failure. */
  function JustMountPdImage(id: string, w: World): (r: Traced<Mounted>)
    requires ValidId(id)
    ensures r.out.err.None? <==> w.mkdirOk && w.mount.Succeeded?
    ensures r.out.path == (if r.out.err.None? then ImgDir(id) else "")
    ensures 1 <= |r.trace| <= 2 && r.trace[0] == MkdirAll(ImgDir(id))
    ensures !w.mkdirOk ==> |r.trace| == 1 && r.out.err == Some(MkdirError(ImgDir(id)))
    ensures w.mkdirOk ==> r.trace[1..] == [Exec(MountExt4(DevPath(VolName(id)), ImgDir(id)))]
    ensures w.mkdirOk && w.mount.Failed? ==> r.out.err == Some(ExecError(w.mount.how))
  {
    var dir := ImgDir(id);
    MkdirThenMount(dir, w.mkdirOk, MountExt4(DevPath(VolName(id)), dir), w.mount)
  }

  /** The hostname the world reports, "" when the lookup fails (no attach
      command is issued then). */
  function HostOf(w: World): string
  {
    if w.hostname.Host? then w.hostname.name else ""
  }

  /** The full sequence of actions of a first-time population, in order. */
  function PopulatePlan(id: string, host: string): (p: seq<Action>)
    requires ValidId(id)
  {
    var vol := VolName(id);
    var dir := ImgDir(id);
    [Exec(GetDisk(vol)), Exec(AddDisk(vol)), LookupHostname, Exec(AttachDisk(vol, host)),
     MkdirAll(dir), Exec(SafeFormatAndMount(DevPath(vol), dir))]
  }

  /** The stage that reports a failure of the `i`-th action of the population
      plan (the existence check, action 0, reports its own error). */
  function PopulateStage(i: nat): Stage
  {
    if i <= 1 then CreateStage else if i <= 3 then AttachStage else FormatStage
  }

  /** What a first-time population promises: it follows the plan and stops at
      the first failing action, whose error it returns wrapped in that
      action's stage; when every action succeeds it still reports the cache
      as not prepared. */
  predicate PopulateSpec(id: string, w: World, r: Traced<Option<Error>>)
    requires ValidId(id)
  {
    var plan := PopulatePlan(id, HostOf(w));
    var n := |r.trace|;
    && 2 <= n
    && r.trace <= plan
    && (forall i | 1 <= i < n - 1 :: Succeeds(w, r.trace[i]))
    && (if Succeeds(w, r.trace[n - 1])
        then n == |plan| && r.out == Some(NotPrepared)
        else r.out == Some(StageFailed(PopulateStage(n - 1), RawError(w, r.trace[n - 1]))))
  }

  /** Every action a reuse of the cache may attempt. */
  function ReusePlan(id: string, host: string): (p: seq<Action>)
    requires ValidId(id)
  {
    var vol := VolName(id);
    var dir := ImgDir(id);
    [Exec(GetDisk(vol)), LookupHostname, Exec(AttachDisk(vol, host)),
     MkdirAll(dir), Exec(MountExt4(DevPath(vol), dir)), Exec(LoadImage(id, dir))]
  }

  /** The position an action takes in a reuse of the cache. */
  function ReuseOrder(a: Action): nat
  {
    match a
    case Exec(GetDisk(_)) => 0
    case LookupHostname => 1
    case Exec(AttachDisk(_, _)) => 2
    case MkdirAll(_) => 3
    case Exec(MountExt4(_, _)) => 4
    case Exec(LoadImage(_, _)) => 5
    case _ => 6
  }

  /** What a reuse of the cache promises: only actions of the reuse plan, each
      at most once and in plan order; attaching is tried whenever the host is
      known and mounting whenever the directory exists, and neither can stop
      the sequence; loading is always tried, last, and alone
      decides the result. */
  predicate ReuseSpec(id: string, w: World, r: Traced<Option<Error>>)
    requires ValidId(id)
  {
    var load := LoadImage(id, ImgDir(id));
    var n := |r.trace|;
    && 4 <= n
    && r.trace[0] == Exec(GetDisk(VolName(id)))
    && LookupHostname in r.trace
    && MkdirAll(ImgDir(id)) in r.trace
    && (w.hostname.Host? <==> Exec(AttachDisk(VolName(id), HostOf(w))) in r.trace)
    && (w.mkdirOk <==> Exec(MountExt4(DevPath(VolName(id)), ImgDir(id))) in r.trace)
    && r.trace[n - 1] == Exec(load)
    && (forall i | 0 <= i < n :: r.trace[i] in ReusePlan(id, HostOf(w)))
    && (forall i | 0 <= i < n - 1 :: ReuseOrder(r.trace[i]) < ReuseOrder(r.trace[i + 1]))
    && (r.out.None? <==> w.load.Succeeded?)
    && (r.out.Some? ==> r.out.value == StageFailed(LoadStage, CommandError(load, w.load.how)))
  }

  /** Gets the image from its persistent-disk cache. If the disk does not
      exist it is created, attached, formatted and mounted, and the caller is
      told the cache is not yet populated; if it exists it is attached and
      mounted (failures there are only logged) and the image is loaded. */
  function FastGet(id: string, w: World): (r: Traced<Option<Error>>)
    requires ValidId(id)
    ensures 1 <= |r.trace| && r.trace[0] == Exec(GetDisk(VolName(id)))
    ensures PdImageExists(id, w).out.err.Some? ==>
              r.trace == [Exec(GetDisk(VolName(id)))] && r.out == PdImageExists(id, w).out.err
    ensures r.out.None? <==> w.getDisk.Succeeded? && w.load.Succeeded?
  {
    var probe := PdImageExists(id, w);
    if probe.out.err.Some? then
      Traced(probe.trace, probe.out.err)
    else if !probe.out.found then
      var created := CreatePdImage(id, w);
      if created.out.Some? then
        Traced(probe.trace + created.trace, Some(StageFailed(CreateStage, created.out.value)))
      else
        var attached := AttachPdImage(id, w);
        var sofar := probe.trace + created.trace + attached.trace;
        if attached.out.Some? then
          Traced(sofar, Some(StageFailed(AttachStage, attached.out.value)))
        else
          var formatted := FormatAndMount(id, w);
          if formatted.out.err.Some? then
            Traced(sofar + formatted.trace, Some(StageFailed(FormatStage, formatted.out.err.value)))
          else
            Traced(sofar + formatted.trace, Some(NotPrepared))
    else
      var attached := AttachPdImage(id, w);   // a failure is only logged
      var mounted := JustMountPdImage(id, w); // a failure is only logged
      var loaded := LoadFromPd(id, w);
      var t := probe.trace + attached.trace + mounted.trace + loaded.trace;
      if loaded.out.Some? then
        Traced(t, Some(StageFailed(LoadStage, loaded.out.value)))
      else
        Traced(t, None)
  }
}
