# Persistent-disk image cache: volume acquisition

A model of `server/gce_pd.go`, the piece of a Docker daemon fork for Google
Compute Engine that keeps container images on a Google persistent
disk (PD), one disk per image. It derives a volume name, a mount directory
and a device path from the image ID. It also decides, in `fastGet`, whether
to populate a fresh disk or to reuse an existing one.

Every side effect of the original is a subprocess (`gcutil`, `mount`,
`safe_format_and_mount`, `sh -c "docker save|load"`), `os.Hostname` or
`os.MkdirAll`. Here each becomes an `Action` recorded in a trace. What the
outside world answers comes from a `World` value: succeeded, exited
non-zero, or failed in another way. Every operation is therefore a pure
function returning the ordered actions it attempted together with its Go
results.

Files:

- `wrappers.dfy`: `Option`, standing for Go's `nil`-or-error.
- `naming.dfy`: `idToVolName`, `idToImgDir` and the device path, each with
  a decoder that recovers what it was built from.
- `effects.dfy`: the world's answers, the commands, the actions and the
  errors. Errors are tagged values; a step failure in `fastGet` is
  `StageFailed(stage, cause)`.
- `gce_pd.dfy`: one function per Go function. It also states, as
  predicates, what the populate branch (`PopulateSpec`) and the reuse
  branch (`ReuseSpec`) promise.
- `fast_get_props.dfy`: the branch properties of `fastGet`, and how its
  result depends on the world.
- `acquisition.dfy`: the acquisition as an explicit state machine. It has
  one phase per action and a transition table with one failure policy per
  branch: fatal while populating, ignored while reusing, except for the
  final load. A loop drives it to completion, and it is proved to agree
  with `FastGet` on every input.

## Notes on the code

- The code has no read-only or read-write attach mode. Both branches issue
  the same `attachdisk` command.
- It has no unmount, no detach and no save-and-release workflow.
  `SaveToPdAndReattach` only runs the save command.
- An image ID shorter than 60 characters gets no defined error: the slice
  `imgID[0:60]` panics. The model makes `ValidId` a precondition.

## Model

| member | source | states |
|---|---|---|
| Naming.VolName | server/gce_pd.go:14-16 | a volume name is always 62 characters long; defined only for IDs of at least 60 characters |
| Naming.VolNameRoundTrip | server/gce_pd.go:14-16 | decoding a volume name gives back exactly the first 60 characters of the image ID |
| Naming.VolNameIffDecodes | server/gce_pd.go:14-16 | a string decodes to an ID's prefix if and only if it is that ID's volume name |
| Naming.VolNameSharedIff | server/gce_pd.go:14-16 | two IDs get the same volume if and only if their first 60 characters agree |
| Naming.ImgDir | server/gce_pd.go:12-20 | the mount directory has the length of the base directory, a slash and a volume name |
| Naming.ImgDirRoundTrip | server/gce_pd.go:12-20 | the mount directory lies directly under /docker-pds and its entry name decodes to the image's volume name |
| Naming.ImgDirSharedIff | server/gce_pd.go:18-20 | two IDs share a mount directory if and only if they share a volume |
| Naming.DevPath | server/gce_pd.go:82 | a device path is the by-id device prefix followed by the whole volume name, and nothing else |
| Naming.DevPathRoundTrip | server/gce_pd.go:82 | a device path decodes back to its volume, and a path decodes to a volume only if it is that volume's device path |
| GcePd.CallCommand | server/gce_pd.go:22-27 | runs exactly the one command; nil if and only if it succeeded, otherwise an error naming that command |
| GcePd.SaveToPdAndReattach | server/gce_pd.go:29-33 | runs only the save command for this image into its mount directory; nil if and only if that succeeded, otherwise the error naming that command and how it failed |
| GcePd.LoadFromPd | server/gce_pd.go:35-39 | runs only the load command for this image from its mount directory; nil if and only if that succeeded, otherwise the error naming that command and how it failed |
| GcePd.SaveAndLoadShareFile | server/gce_pd.go:29-39 | saving and loading address the same image file in the same directory |
| GcePd.PdImageExists | server/gce_pd.go:41-54 | only checks the image's volume; never reports existence together with an error; a non-zero exit means (false, nil), another failure (false, err), success (true, nil) |
| GcePd.CreatePdImage | server/gce_pd.go:56-64 | only creates the image's volume; nil if and only if that succeeded, otherwise the raw exec error |
| GcePd.AttachPdImage | server/gce_pd.go:66-78 | looks up the hostname first; without one it attaches nothing and fails; otherwise it attaches the image's volume to that host; nil if and only if both succeeded; a failed attach returns the raw exec error |
| GcePd.FormatAndMount | server/gce_pd.go:80-92 | returns the image directory on success and "" on any failure; no format is attempted when the directory cannot be made; formats the image's device onto the image's directory; a failed format returns the raw exec error |
| GcePd.JustMountPdImage | server/gce_pd.go:94-106 | returns the image directory on success and "" on any failure; no mount is attempted when the directory cannot be made; mounts the image's device on the image's directory; a failed mount returns the raw exec error |
| GcePd.FastGet | server/gce_pd.go:108-136 | the existence check always comes first; its error is returned unchanged with nothing else attempted; the result is nil if and only if the disk exists and the load succeeds |
| FastGetProps.PopulateBranch | server/gce_pd.go:113-123 | disk absent: the actions are a prefix of create, attach, format+mount in that order; every action before the last succeeded; the first failure ends the run with its error wrapped in its stage; success is never reported, a complete run reports "not prepared"; load is never attempted |
| FastGetProps.ReuseBranch | server/gce_pd.go:124-135 | disk present: only reuse-plan actions, each at most once and in order, so never create or format; attach and mount are always tried; load is always tried and last; nil if and only if load succeeds, otherwise the wrapped load error |
| FastGetProps.ReuseIgnoresAttachAndMount | server/gce_pd.go:124-135 | with the disk present, the result is the same whatever attaching and mounting answer |
| FastGetProps.PopulateIgnoresReuseSteps | server/gce_pd.go:113-123 | with the disk absent, the answers of mount, save and load change neither the actions nor the result |
| FastGetProps.FastGetConcernsImage | server/gce_pd.go:108-136 | every volume name, device path and directory passed to a tool decodes back to the requested image |
| Acquisition.Step | server/gce_pd.go:108-136 | every transition strictly lowers the number of actions still to come, so an acquisition always ends |
| Acquisition.Run | server/gce_pd.go:108-136 | the machine attempts at most as many actions as its phase allows (six from the start), and at least one unless it has finished |
| Acquisition.FormatTail | server/gce_pd.go:120-123 | once the directory step is reached while populating, the machine does what formatAndMount does and then reports "not prepared", or the wrapped format error |
| Acquisition.AttachTailPopulate | server/gce_pd.go:117-123 | while populating, a failed hostname lookup or attach ends the machine with the wrapped attach error; otherwise formatting follows |
| Acquisition.ReuseTail | server/gce_pd.go:125-135 | while reusing, the machine attaches, mounts and loads whatever attaching and mounting answer, and the load alone decides the result |
| Acquisition.PopulateMatches | server/gce_pd.go:113-123 | from the create phase, the machine does what the not-exists branch does after the check |
| Acquisition.ReuseMatches | server/gce_pd.go:124-135 | from the hostname phase, the machine does what the exists branch does after the check |
| Acquisition.MachineMatchesFastGet | server/gce_pd.go:108-136 | the state machine, with its per-branch failure policy, attempts exactly fastGet's actions and ends with fastGet's result |
| Acquisition.Drive | server/gce_pd.go:108-136 | driving the machine one transition at a time from the existence check gives exactly the machine's run |
| Acquisition.Acquire | server/gce_pd.go:108-136 | acquiring through the machine gives fastGet's actions and result, in at most six actions |

## Left out

- Subprocess execution, captured output, logging and printing are not modelled. A command is an `Action` whose answer comes from the `World`.
- The fixed operands of the commands are not modelled: the zone, the disk size, `mkfs.ext4 -F`, the `ext4` type, and the shell text of save and load. They are contracts of foreign tools; each `Command` constructor stands for its fixed flags.
- Error message text is not modelled: errors are tagged values, and `CallCommand`'s captured output is dropped.
- The permission argument of `os.MkdirAll` is not modelled. It is written as decimal `777`; Go keeps only its permission bits, so the directory is requested with mode 0o411 (`r----x--x`) before the umask. Only whether the call succeeds is modelled.
- Naming.ImgDir: joins with a plain `/` and does not model `path.Join`'s cleaning. This equals the Go value whenever the first 60 characters of the ID contain no `/`, as with hex image IDs.
- Short IDs are a precondition (`ValidId`), not a modelled panic.
- The `World` gives one answer per kind of side effect. Within one `fastGet` call each kind is attempted at most once, so nothing is lost.
- Concurrency and races between hosts are not modelled. The code handles neither.
