/**
 The acquisition as an explicit state machine: one phase per action, a
 transition table that applies one failure policy per branch (fatal while
 populating, ignored while reusing, except for the final load), and a
 driver that runs it to completion. It is an independent definition of
 `fastGet`, and is proved to agree with it.
 */
module Acquisition {
  import opened Wrappers
  import opened Naming
  import opened Effects
  import opened GcePd

  /** The workflow chosen by the existence check. */
  datatype Branch = Populate | Reuse

  /** The action about to be attempted, or the final result. */
  datatype Phase =
    | CheckExistence
    | Create
    | Hostname(branch: Branch)
    | Attach(branch: Branch, host: string)
    | MakeMountDir(branch: Branch)
    | Format
    | Mount
    | Load
    | Done(err: Option<Error>)

  /** The most actions still to come from a phase. */
  function Remaining(p: Phase): nat
  {
    match p
    case CheckExistence => 6
    case Create => 5
    case Hostname(b) => if b == Reuse then 5 else 4
    case Attach(b, _) => if b == Reuse then 4 else 3
    case MakeMountDir(b) => if b == Reuse then 3 else 2
    case Format => 1
    case Mount => 2
    case Load => 1
    case Done(_) => 0
  }

  /** Where a failure leads: while populating it ends the run with the error
      wrapped in its stage; while reusing the machine moves on to `next`. */
  function OnFailure(b: Branch, stage: Stage, cause: Error, next: Phase): Phase
  {
    if b == Populate then Done(Some(StageFailed(stage, cause))) else next
  }

  /** The action a phase attempts and the phase it leads to. */
  datatype Transition = Transition(action: Action, next: Phase)

  /** The transition table. */
  function Step(id: string, w: World, p: Phase): (t: Transition)
    requires ValidId(id)
    requires !p.Done?
    ensures Remaining(t.next) < Remaining(p)
  {
    var vol := VolName(id);
    var dir := ImgDir(id);
    match p
    case CheckExistence =>
      Transition(Exec(GetDisk(vol)),
        match w.getDisk
        case Succeeded => Hostname(Reuse)
        case Failed(NonZeroExit) => Create
        case Failed(OtherError) => Done(Some(ExecError(OtherError))))
    case Create =>
      Transition(Exec(AddDisk(vol)),
        match w.addDisk
        case Succeeded => Hostname(Populate)
        case Failed(how) => Done(Some(StageFailed(CreateStage, ExecError(how)))))
    case Hostname(b) =>
      Transition(LookupHostname,
        match w.hostname
        case Host(name) => Attach(b, name)
        case HostError => OnFailure(b, AttachStage, HostnameError, MakeMountDir(b)))
    case Attach(b, host) =>
      Transition(Exec(AttachDisk(vol, host)),
        match w.attachDisk
        case Succeeded => MakeMountDir(b)
        case Failed(how) => OnFailure(b, AttachStage, ExecError(how), MakeMountDir(b)))
    case MakeMountDir(b) =>
      Transition(MkdirAll(dir),
        if !w.mkdirOk then OnFailure(b, FormatStage, MkdirError(dir), Load)
        else if b == Populate then Format
        else Mount)
    case Format =>
      Transition(Exec(SafeFormatAndMount(DevPath(vol), dir)),
        match w.formatAndMount
        case Succeeded => Done(Some(NotPrepared))
        case Failed(how) => Done(Some(StageFailed(FormatStage, ExecError(how)))))
    case Mount =>
      // reached only while reusing, where a failure to mount is ignored
      Transition(Exec(MountExt4(DevPath(vol), dir)), Load)
    case Load =>
      var c := LoadImage(id, dir);
      Transition(Exec(c),
        match w.load
        case Succeeded => Done(None)
        case Failed(how) => Done(Some(StageFailed(LoadStage, CommandError(c, how)))))
  }

  /** Runs the machine from a phase to its end. */
  function Run(id: string, w: World, p: Phase): (r: Traced<Option<Error>>)
    requires ValidId(id)
    ensures |r.trace| <= Remaining(p)
    ensures r.trace == [] <==> p.Done?
    decreases Remaining(p)
  {
    if p.Done? then
      Traced([], p.err)
    else
      var t := Step(id, w, p);
      var rest := Run(id, w, t.next);
      Traced([t.action] + rest.trace, rest.out)
  }

  /** The machine, started at the existence check, attempts exactly the
      actions `fastGet` attempts and ends with its result. */
  lemma MachineMatchesFastGet(id: string, w: World)
    requires ValidId(id)
    ensures Run(id, w, CheckExistence) == FastGet(id, w)
  {
    var first := [Exec(GetDisk(VolName(id)))];
    match w.getDisk
    case Failed(OtherError) =>
      assert Run(id, w, CheckExistence) == Traced(first, Some(ExecError(OtherError)));
    case Failed(NonZeroExit) =>
      PopulateMatches(id, w);
      assert Run(id, w, CheckExistence) == Traced(first + Run(id, w, Create).trace, Run(id, w, Create).out);
    case Succeeded =>
      ReuseMatches(id, w);
      assert Run(id, w, CheckExistence) == Traced(first + Run(id, w, Hostname(Reuse)).trace, Run(id, w, Hostname(Reuse)).out);
  }

  /** From creation on, the machine does what the not-exists branch of
      `fastGet` does after the existence check. */
  lemma PopulateMatches(id: string, w: World)
    requires ValidId(id)
    requires w.getDisk == Failed(NonZeroExit)
    ensures FastGet(id, w) == Traced([Exec(GetDisk(VolName(id)))] + Run(id, w, Create).trace, Run(id, w, Create).out)
  {
  }

  /** From the hostname lookup of a population on, the machine attaches,
      then formats and mounts, stopping at the first failure. */
  lemma AttachTailPopulate(id: string, w: World)
    requires ValidId(id)
    ensures var attached := AttachPdImage(id, w);
      var rest := Run(id, w, MakeMountDir(Populate));
      Run(id, w, Hostname(Populate)) ==
        if attached.out.Some? then Traced(attached.trace, Some(StageFailed(AttachStage, attached.out.value)))
        else Traced(attached.trace + rest.trace, rest.out)
  {
  }

  /** From the creation of the mount directory of a population on, the
      machine does what `formatAndMount` does and then reports the cache as
      not prepared. */
  lemma FormatTail(id: string, w: World)
    requires ValidId(id)
    ensures var formatted := FormatAndMount(id, w);
      Run(id, w, MakeMountDir(Populate)) ==
        Traced(formatted.trace,
               if formatted.out.err.Some? then Some(StageFailed(FormatStage, formatted.out.err.value))
               else Some(NotPrepared))
  {
  }

  /** From the hostname lookup on, the machine does what the exists branch
      of `fastGet` does after the existence check. */
  lemma ReuseMatches(id: string, w: World)
    requires ValidId(id)
    requires w.getDisk == Succeeded
    ensures FastGet(id, w) == Traced([Exec(GetDisk(VolName(id)))] + Run(id, w, Hostname(Reuse)).trace, Run(id, w, Hostname(Reuse)).out)
  {
    ReuseTail(id, w);
  }

  /** From the hostname lookup of a reuse on, the machine attaches, mounts
      and loads whatever attaching and mounting answer, and the load alone
      decides the result. */
  lemma ReuseTail(id: string, w: World)
    requires ValidId(id)
    ensures var attached := AttachPdImage(id, w);
      var mounted := JustMountPdImage(id, w);
      var loaded := LoadFromPd(id, w);
      Run(id, w, Hostname(Reuse)) ==
        Traced(attached.trace + mounted.trace + loaded.trace,
               if loaded.out.Some? then Some(StageFailed(LoadStage, loaded.out.value)) else None)
  {
    var attached := AttachPdImage(id, w);
    var mounted := JustMountPdImage(id, w);
    var loaded := LoadFromPd(id, w);
    var fromLoad := Run(id, w, Load);
    assert fromLoad.trace == loaded.trace;
    assert fromLoad.out == if loaded.out.Some? then Some(StageFailed(LoadStage, loaded.out.value)) else None;
    var fromMkdir := Run(id, w, MakeMountDir(Reuse));
    if w.mkdirOk {
      assert Run(id, w, Mount) == Traced(mounted.trace[1..] + fromLoad.trace, fromLoad.out);
    }
    assert fromMkdir == Traced(mounted.trace + fromLoad.trace, fromLoad.out);
    if w.hostname.Host? {
      assert Run(id, w, Attach(Reuse, w.hostname.name)) == Traced(attached.trace[1..] + fromMkdir.trace, fromMkdir.out);
    }
    assert Run(id, w, Hostname(Reuse)) == Traced(attached.trace + fromMkdir.trace, fromMkdir.out);
  }

  /** Taking one transition and recording its action keeps the run on course
      towards the same actions and result. */
  lemma StepKeepsGoal(id: string, w: World, p: Phase, done: seq<Action>, goal: Traced<Option<Error>>)
    requires ValidId(id)
    requires !p.Done?
    requires done + Run(id, w, p).trace == goal.trace
    requires Run(id, w, p).out == goal.out
    ensures var t := Step(id, w, p);
      && (done + [t.action]) + Run(id, w, t.next).trace == goal.trace
      && Run(id, w, t.next).out == goal.out
  {
    var t := Step(id, w, p);
    assert Run(id, w, p).trace == [t.action] + Run(id, w, t.next).trace;
  }

  /** Drives the machine one transition at a time from the existence check
      until it is done. */
  method Drive(id: string, w: World) returns (trace: seq<Action>, err: Option<Error>)
    requires ValidId(id)
    ensures Traced(trace, err) == Run(id, w, CheckExistence)
  {
    ghost var goal := Run(id, w, CheckExistence);
    var p := CheckExistence;
    trace := [];
    while !p.Done?
      invariant trace + Run(id, w, p).trace == goal.trace
      invariant Run(id, w, p).out == goal.out
      decreases Remaining(p)
    {
      var t := Step(id, w, p);
      StepKeepsGoal(id, w, p, trace, goal);
      trace := trace + [t.action];
      p := t.next;
    }
    err := p.err;
  }

  /** Acquires the image by driving the machine: the actions attempted and
      the result are exactly those of `fastGet`. */
  method Acquire(id: string, w: World) returns (trace: seq<Action>, err: Option<Error>)
    requires ValidId(id)
    ensures Traced(trace, err) == FastGet(id, w)
    ensures |trace| <= 6
  {
    trace, err := Drive(id, w);
    MachineMatchesFastGet(id, w);
  }
}
