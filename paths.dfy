/**
 * Filesystem paths as the sequence of their components below the root
 * (`[]` is the root `/`). Only the `std::path` operations the core uses
 * are modelled: `parent`, `file_name`, `join` and `strip_prefix`.
 */
module Paths {
  import opened Common

  type Path = seq<string>

  /** `Path::parent`: `None` for the root. */
  function Parent(p: Path): Option<Path>
  {
    if p == [] then None else Some(p[..|p| - 1])
  }

  /** `Path::file_name`: the last component, `None` for the root. */
  function FileName(p: Path): Option<string>
  {
    if p == [] then None else Some(p[|p| - 1])
  }

  /**
   * `parent` and `file_name` are `None` exactly at the root; elsewhere the
   * parent is one component shorter, and joining the file name to it gives
   * back the path.
   */
  lemma ParentFileName(p: Path)
    ensures Parent(p).None? <==> p == []
    ensures FileName(p).None? <==> p == []
    ensures p != [] ==> |Parent(p).value| == |p| - 1 && Parent(p).value < p && Child(Parent(p).value, FileName(p).value) == p
  {
  }

  /** `dir.join(name)` for a single component. */
  function Child(dir: Path, name: string): (p: Path)
    ensures Parent(p) == Some(dir)
    ensures FileName(p) == Some(name)
  {
    dir + [name]
  }

  /** Components joined with `/`, as `to_string_lossy` prints a relative path. */
  function Join(cs: seq<string>): (s: string)
    ensures s == [] <==> (cs == [] || (|cs| == 1 && cs[0] == []))
    ensures |cs| >= 2 ==> '/' in s
  {
    if cs == [] then []
    else if |cs| == 1 then cs[0]
    else cs[0] + "/" + Join(cs[1..])
  }

  /**
   * `path.strip_prefix(base).unwrap_or(path).to_string_lossy()`: the path
   * relative to `base` when `base` is a prefix of it, the absolute path
   * otherwise.
   */
  function DisplayPath(base: Path, p: Path): (s: string)
    ensures s == [] <==> (base <= p && (|p| == |base| || (|p| == |base| + 1 && p[|base|] == [])))
  {
    if base <= p then Join(p[|base|..]) else "/" + Join(p)
  }
}
