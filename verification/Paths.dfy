/** Paths and file names. */
module Paths {

  /** A path by its components; the last one is the file name. */
  type Path = seq<string>

  const DEFAULT_BLOCKER_FILE_NAME := "BurntSushiBlocker_x64.dll"

  /** The last component, the empty name if there is none. */
  function FileName(p: Path): string {
    if p == [] then "" else p[|p| - 1]
  }

  /** The two paths name the same file, for a system that compares names by `fold`. */
  predicate SamePath(fold: string -> string, p: Path, q: Path) {
    |p| == |q| && forall i :: 0 <= i < |p| ==> fold(p[i]) == fold(q[i])
  }

  /** The file name is the default blocker's, as the system compares names. */
  predicate HasDefaultName(fold: string -> string, p: Path) {
    fold(FileName(p)) == fold(DEFAULT_BLOCKER_FILE_NAME)
  }
}
