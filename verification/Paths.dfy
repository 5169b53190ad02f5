/** A device's paths as the changed-file lists compare them (crates/agent-store/src/changes.rs). */
module Paths {
  /** A path by the bytes of its characters. */
  type Path = string

  /** Whether a character of the path starts at `index`, or the path ends there. */
  predicate IsBoundary(path: Path, index: nat) {
    index == |path| || (index < |path| && !('\U{80}' <= path[index] < '\U{C0}'))
  }

  predicate IsSeparator(c: char) {
    c == '/' || c == '\\'
  }

  /** The path without the separators at its end. */
  function Trimmed(path: Path): (r: Path)
    ensures r <= path
    ensures r != [] ==> !IsSeparator(r[|r| - 1])
    ensures forall k :: |r| <= k < |path| ==> IsSeparator(path[k])
  {
    if path != [] && IsSeparator(path[|path| - 1]) then Trimmed(path[..|path| - 1]) else path
  }

  /** The path without one slash at its end. */
  function Stripped(path: Path): Path {
    if path != [] && path[|path| - 1] == '/' then path[..|path| - 1] else path
  }

  /** Whether `path` is `parent` or within it. */
  predicate IsWithin(path: Path, parent: Path) {
    var parent := Trimmed(parent);
    path == parent || (parent < path && IsSeparator(path[|parent|]))
  }

  /** Whether a path ends with no separator but one slash, as a change names it. */
  predicate IsPlain(path: Path) {
    Stripped(path) == Trimmed(path)
  }
}
