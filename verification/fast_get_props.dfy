/**
 What `fastGet` promises about the two branches it can take, and how its
 result depends on the world's answers.
 */
module FastGetProps {
  import opened Wrappers
  import opened Naming
  import opened Effects
  import opened GcePd

  /** Disk absent: create, attach, format+mount strictly in that order; the
      first failure aborts with the error wrapped in its stage; load is never
      attempted and success is never reported. */
  lemma PopulateBranch(id: string, w: World)
    requires ValidId(id)
    requires w.getDisk == Failed(NonZeroExit)
    ensures PopulateSpec(id, w, FastGet(id, w))
    ensures FastGet(id, w).out.Some?
    ensures Exec(LoadImage(id, ImgDir(id))) !in FastGet(id, w).trace
  {
  }

  /** Disk present: never create or format; the attach command is issued
      whenever the host is known and the mount command whenever the directory
      exists, and their failures are ignored; load is always tried last and
      decides the result. */
  lemma ReuseBranch(id: string, w: World)
    requires ValidId(id)
    requires w.getDisk == Succeeded
    ensures ReuseSpec(id, w, FastGet(id, w))
  {
    var r := FastGet(id, w);
    var plan := ReusePlan(id, HostOf(w));
    var attached := AttachPdImage(id, w).trace;
    var mounted := JustMountPdImage(id, w).trace;
    assert r.trace == [plan[0]] + attached + mounted + [plan[5]];
    ReuseSpecFromShape(id, w, r, attached, mounted);
  }

  /** A result that runs the check, the hostname lookup with the attach
      command when the host is known, the directory creation with the mount
      command when it succeeds, and the load, satisfies the reuse promise
      as soon as its error is the load's. */
  lemma ReuseSpecFromShape(id: string, w: World, r: Traced<Option<Error>>, attached: seq<Action>, mounted: seq<Action>)
    requires ValidId(id)
    requires attached == if w.hostname.Host? then ReusePlan(id, HostOf(w))[1..3] else [LookupHostname]
    requires mounted == if w.mkdirOk then ReusePlan(id, HostOf(w))[3..5] else [MkdirAll(ImgDir(id))]
    requires r.trace == [Exec(GetDisk(VolName(id)))] + attached + mounted + [Exec(LoadImage(id, ImgDir(id)))]
    requires r.out == if w.load.Succeeded? then None else Some(StageFailed(LoadStage, CommandError(LoadImage(id, ImgDir(id)), w.load.how)))
    ensures ReuseSpec(id, w, r)
  {
    var plan := ReusePlan(id, HostOf(w));
    ReuseTraceShape(plan, attached, mounted);
    assert plan[2] == Exec(AttachDisk(VolName(id), HostOf(w)));
    assert plan[4] == Exec(MountExt4(DevPath(VolName(id)), ImgDir(id)));
  }

  /** Every way of dropping the attach command and the mount command from
      the reuse plan keeps the order of the plan, and a command is in the
      result exactly when it was not dropped. */
  lemma ReuseTraceShape(plan: seq<Action>, attached: seq<Action>, mounted: seq<Action>)
    requires |plan| == 6
    requires forall k | 0 <= k < 6 :: ReuseOrder(plan[k]) == k
    requires attached == plan[1..3] || attached == [plan[1]]
    requires mounted == plan[3..5] || mounted == [plan[3]]
    ensures var t := [plan[0]] + attached + mounted + [plan[5]];
      && (forall i | 0 <= i < |t| :: t[i] in plan)
      && (forall i | 0 <= i < |t| - 1 :: ReuseOrder(t[i]) < ReuseOrder(t[i + 1]))
      && plan[1] in t && plan[3] in t
      && (plan[2] in t <==> attached == plan[1..3])
      && (plan[4] in t <==> mounted == plan[3..5])
  {
    var p0, p1, p2, p3, p4, p5 := plan[0], plan[1], plan[2], plan[3], plan[4], plan[5];
    assert ReuseOrder(p0) == 0 && ReuseOrder(p1) == 1 && ReuseOrder(p2) == 2;
    assert ReuseOrder(p3) == 3 && ReuseOrder(p4) == 4 && ReuseOrder(p5) == 5;
    assert plan == [p0, p1, p2, p3, p4, p5];
    var a := if attached == plan[1..3] then [p1, p2] else [p1];
    var m := if mounted == plan[3..5] then [p3, p4] else [p3];
    assert attached == a && mounted == m;
  }

  /** On reuse, the outcome of attaching and mounting never reaches the
      caller: two worlds that agree on the existence check and on loading
      give the same result. */
  lemma ReuseIgnoresAttachAndMount(id: string, w1: World, w2: World)
    requires ValidId(id)
    requires w1.getDisk == w2.getDisk == Succeeded
    requires w1.load == w2.load
    ensures FastGet(id, w1).out == FastGet(id, w2).out
  {
    ReuseBranch(id, w1);
    ReuseBranch(id, w2);
  }

  /** On population, neither mounting an existing disk nor saving nor
      loading is consulted: changing their answers changes nothing. */
  lemma PopulateIgnoresReuseSteps(id: string, w: World, mount: CmdOutcome, save: CmdOutcome, load: CmdOutcome)
    requires ValidId(id)
    requires w.getDisk == Failed(NonZeroExit)
    ensures FastGet(id, w.(mount := mount, save := save, load := load)) == FastGet(id, w)
  {
  }

  /** The actions of one acquisition all address the image asked for: every
      volume name, device path and directory decodes back to its ID. */
  predicate Concerns(a: Action, id: string)
    requires ValidId(id)
  {
    var prefix := Some(id[..IdWindow]);
    match a
    case LookupHostname => true
    case MkdirAll(dir) => DirOfImage(dir, id)
    case Exec(GetDisk(vol)) => IdPrefixOf(vol) == prefix
    case Exec(AddDisk(vol)) => IdPrefixOf(vol) == prefix
    case Exec(AttachDisk(vol, _)) => IdPrefixOf(vol) == prefix
    case Exec(SafeFormatAndMount(dev, dir)) => VolNameOfDevice(dev) == VolNameOfDir(dir) && DirOfImage(dir, id)
    case Exec(MountExt4(dev, dir)) => VolNameOfDevice(dev) == VolNameOfDir(dir) && DirOfImage(dir, id)
    case Exec(SaveImage(img, dir)) => img == id && DirOfImage(dir, id)
    case Exec(LoadImage(img, dir)) => img == id && DirOfImage(dir, id)
  }

  /** A directory under the mount base whose volume name decodes to the
      image's ID prefix. */
  predicate DirOfImage(dir: string, id: string)
    requires ValidId(id)
  {
    && VolNameOfDir(dir).Some?
    && IdPrefixOf(VolNameOfDir(dir).value) == Some(id[..IdWindow])
  }

  /** Every action `fastGet` attempts concerns the requested image and no
      other: the derived names it passes to the tools all decode back. */
  lemma FastGetConcernsImage(id: string, w: World)
    requires ValidId(id)
    ensures forall i | 0 <= i < |FastGet(id, w).trace| :: Concerns(FastGet(id, w).trace[i], id)
  {
    var vol := VolName(id);
    var dir := ImgDir(id);
    VolNameRoundTrip(id);
    ImgDirRoundTrip(id);
    DevPathRoundTrip(vol, DevPath(vol));
    assert DirOfImage(dir, id);
    var t := FastGet(id, w).trace;
    var candidates := PopulatePlan(id, HostOf(w)) + ReusePlan(id, HostOf(w));
    assert forall a | a in candidates :: Concerns(a, id);
    if w.getDisk == Failed(NonZeroExit) {
      PopulateBranch(id, w);
      assert forall i | 0 <= i < |t| :: t[i] in candidates;
    } else if w.getDisk == Succeeded {
      ReuseBranch(id, w);
      assert forall i | 0 <= i < |t| :: t[i] in candidates;
    }
  }
}
