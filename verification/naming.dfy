/**
 Names derived from an image ID: the persistent-disk volume name, the local
 mount directory and the device path the disk appears under once attached.
 All of them are pure and are re-derived from the image ID on every use.

 Go strings are byte strings; an image ID is modelled as a `string` whose
 characters stand for its bytes (Docker image IDs are lower-case hex).
 */
module Naming {
  import opened Wrappers

  /** Tag put in front of every volume name. */
  const VolPrefix: string := "d-"

  /** Number of leading characters of the image ID kept in the volume name. */
  const IdWindow: nat := 60

  /** Length of every volume name. */
  const VolNameLength: nat := |VolPrefix| + IdWindow

  /** Base directory under which every image's disk is mounted. */
  const MountBase: string := "/docker-pds"

  /** Prefix of the device node an attached persistent disk appears as. */
  const DevicePrefix: string := "/dev/disk/by-id/google-"

  /** The slice `imgID[0:60]` is in bounds. For a shorter ID the Go runtime
      panics, so callers must supply at least this many characters. */
  predicate ValidId(id: string)
  {
    |id| >= IdWindow
  }

  /** The volume name of an image: the prefix followed by the first sixty
      characters of the ID. */
  function VolName(id: string): (v: string)
    requires ValidId(id)
    ensures |v| == VolNameLength
  {
    VolPrefix + id[..IdWindow]
  }

  /** Recovers, from a volume name, the ID prefix it was derived from;
      `None` when the name does not have the shape of a derived name. */
  function IdPrefixOf(v: string): (p: Option<string>)
    ensures p.Some? ==> |p.value| == IdWindow
  {
    if |v| == VolNameLength && v[..|VolPrefix|] == VolPrefix then Some(v[|VolPrefix|..]) else None
  }

  /** Decoding a derived volume name gives back exactly the first sixty
      characters of the image ID. */
  lemma VolNameRoundTrip(id: string)
    requires ValidId(id)
    ensures IdPrefixOf(VolName(id)) == Some(id[..IdWindow])
  {
  }

  /** A string decodes to an ID's prefix exactly when it is that ID's volume
      name: the decoder accepts nothing but derived names. */
  lemma VolNameIffDecodes(v: string, id: string)
    requires ValidId(id)
    ensures IdPrefixOf(v) == Some(id[..IdWindow]) <==> v == VolName(id)
  {
  }

  /** Two image IDs share a volume (and so a cache disk) exactly when their
      first sixty characters agree; characters beyond the window are ignored. */
  lemma VolNameSharedIff(a: string, b: string)
    requires ValidId(a) && ValidId(b)
    ensures VolName(a) == VolName(b) <==> a[..IdWindow] == b[..IdWindow]
  {
    if VolName(a) == VolName(b) {
      VolNameRoundTrip(a);
      VolNameRoundTrip(b);
    }
  }

  /** The mount directory of an image: the volume name as an entry of the
      base directory. */
  function ImgDir(id: string): (d: string)
    requires ValidId(id)
    ensures |d| == |MountBase| + 1 + VolNameLength
  {
    MountBase + "/" + VolName(id)
  }

  /** Recovers the volume name from a directory directly below the base
      directory; `None` for any other path. */
  function VolNameOfDir(d: string): (v: Option<string>)
    ensures v.Some? ==> |v.value| == |d| - |MountBase| - 1
  {
    if |d| > |MountBase| + 1 && d[..|MountBase| + 1] == MountBase + "/" then
      Some(d[|MountBase| + 1..])
    else
      None
  }

  /** The mount directory names the image's volume and nothing else. */
  lemma ImgDirRoundTrip(id: string)
    requires ValidId(id)
    ensures VolNameOfDir(ImgDir(id)) == Some(VolName(id))
  {
  }

  /** Two images share a mount directory exactly when they share a volume. */
  lemma ImgDirSharedIff(a: string, b: string)
    requires ValidId(a) && ValidId(b)
    ensures ImgDir(a) == ImgDir(b) <==> VolName(a) == VolName(b)
  {
    if ImgDir(a) == ImgDir(b) {
      ImgDirRoundTrip(a);
      ImgDirRoundTrip(b);
    }
  }

  /** The device node under which an attached volume appears. */
  function DevPath(vol: string): (p: string)
    ensures |p| == |DevicePrefix| + |vol|
  {
    DevicePrefix + vol
  }

  /** Recovers the volume name from a device path; `None` for a path outside
      the persistent-disk device directory. */
  function VolNameOfDevice(p: string): (v: Option<string>)
    ensures v.Some? ==> |v.value| == |p| - |DevicePrefix|
  {
    if |p| >= |DevicePrefix| && p[..|DevicePrefix|] == DevicePrefix then Some(p[|DevicePrefix|..]) else None
  }

  /** Decoding a device path gives back the volume it was built from, and a
      path decodes to a volume only if it is that volume's device path. */
  lemma DevPathRoundTrip(vol: string, p: string)
    ensures VolNameOfDevice(DevPath(vol)) == Some(vol)
    ensures VolNameOfDevice(p) == Some(vol) ==> p == DevPath(vol)
  {
  }
}
