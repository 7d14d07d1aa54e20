/**
 * File-system paths as sequences of components, and the file system itself
 * as a map from paths to file contents.
 */
module Paths {
  import opened Text

  datatype Path = Path(parts: seq<string>)

  /** The contents of every file, by path; directories are not represented. */
  type FileSystem = map<Path, seq<byte>>

  /**
   * `p / name` for a name that is one path component; joining the empty
   * name gives `p` itself.
   */
  function Child(p: Path, name: string): Path
  {
    if name == "" then p else Path(p.parts + [name])
  }

  /** `str(p)`. */
  function Show(p: Path): string
  {
    Join(p.parts, "/")
  }

  /** `p` is `dir` itself or lies somewhere beneath it. */
  predicate Within(p: Path, dir: Path)
  {
    |dir.parts| <= |p.parts| && p.parts[..|dir.parts|] == dir.parts
  }

  /** Joining a name onto a directory stays within that directory. */
  lemma ChildWithin(p: Path, name: string)
    ensures Within(Child(p, name), p)
  {
    if name != "" {
      assert Child(p, name).parts[..|p.parts|] == p.parts;
    }
  }

  /** `shutil.rmtree(dir)`: every file beneath `dir` disappears and no other file changes. */
  function RemoveTree(fs: FileSystem, dir: Path): (r: FileSystem)
    ensures forall p :: p in r ==> p in fs && !Within(p, dir) && r[p] == fs[p]
    ensures forall p :: p in fs && !Within(p, dir) ==> p in r
  {
    map p | p in fs && !Within(p, dir) :: fs[p]
  }

  /** When nothing lies beneath `dir`, removing it changes nothing. */
  lemma RemoveTreeAbsent(fs: FileSystem, dir: Path)
    requires forall p :: p in fs ==> !Within(p, dir)
    ensures RemoveTree(fs, dir) == fs
  {
  }
}
