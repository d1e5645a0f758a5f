/** The parts of Rust's `std::path::Path` that the playlist and the file
    picker rely on: the final component of a path, its stem and its
    extension, split at the last dot the way the standard library does. */
module Paths {
  import opened Common

  /** A path, as the list of its components below the root. */
  type PathBuf = seq<Bytes>

  const DOT: byte := 46
  const DOT_DOT: Bytes := [46, 46]

  /** `Path::file_name`: the last component, unless there is none or it is `..`. */
  function FileName(p: PathBuf): (r: Option<Bytes>)
    ensures r.Some? ==> |p| > 0 && r.value == p[|p| - 1] && r.value != DOT_DOT
    ensures r.None? ==> |p| == 0 || p[|p| - 1] == DOT_DOT
  {
    if |p| == 0 || p[|p| - 1] == DOT_DOT then None else Some(p[|p| - 1])
  }

  /** The position of the last `.` in a name, if there is one. */
  function LastDot(name: Bytes): (r: Option<nat>)
    ensures r.Some? ==> r.value < |name| && name[r.value] == DOT
    ensures r.Some? ==> forall i | r.value < i < |name| :: name[i] != DOT
    ensures r.None? ==> forall i | 0 <= i < |name| :: name[i] != DOT
    decreases |name|
  {
    if |name| == 0 then None
    else if name[|name| - 1] == DOT then Some(|name| - 1)
    else LastDot(name[..|name| - 1])
  }

  /** The name has a dot somewhere after its first byte. */
  predicate HasDotAfterStart(name: Bytes) {
    exists k | 0 < k < |name| :: name[k] == DOT
  }

  /** A dot with no dot after it is the last dot. */
  lemma LastDotIsUnique(name: Bytes, k: nat)
    requires k < |name| && name[k] == DOT
    requires forall i | k < i < |name| :: name[i] != DOT
    ensures LastDot(name) == Some(k)
  {
  }

  /** `rsplit_file_at_dot`: the part before the last dot and the part after
      it; a name whose only dot leads it (a hidden file) and `..` have no
      extension. */
  function SplitAtDot(name: Bytes): (Option<Bytes>, Option<Bytes>) {
    if name == DOT_DOT then (Some(name), None)
    else match LastDot(name)
      case None => (None, Some(name))
      case Some(k) => if k == 0 then (Some(name), None) else (Some(name[..k]), Some(name[k + 1..]))
  }

  /** `Path::file_stem`: the file name without its extension. */
  function FileStem(p: PathBuf): (r: Option<Bytes>)
    ensures r.Some? <==> FileName(p).Some?
    ensures r.Some? && |FileName(p).value| > 0 ==> |r.value| > 0
  {
    match FileName(p)
    case None => None
    case Some(name) =>
      var (before, after) := SplitAtDot(name);
      if before.Some? then before else after
  }

  /** `Path::extension`: what follows the last dot of the file name. Stem,
      dot and extension put back together give the file name again, and a
      name without an extension is its own stem. */
  function Extension(p: PathBuf): (r: Option<Bytes>)
    ensures r.Some? <==> FileName(p).Some? && HasDotAfterStart(FileName(p).value)
    ensures r.Some? ==> FileName(p).Some? && FileStem(p).Some? && |FileStem(p).value| > 0
    ensures r.Some? ==> FileName(p).value == FileStem(p).value + [DOT] + r.value
    ensures r.Some? ==> forall i | 0 <= i < |r.value| :: r.value[i] != DOT
    ensures r.None? ==> FileStem(p) == FileName(p)
  {
    match FileName(p)
    case None => None
    case Some(name) =>
      var (before, after) := SplitAtDot(name);
      if before.Some? then after else None
  }
}
