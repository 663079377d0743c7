/** The part of the filesystem that `config --reset` looks at and changes: which paths exist, and which are directories. */
module FileSystem {
  import opened Paths

  datatype Kind = Directory | RegularFile

  /** The existing entries, by resolved path. */
  type Fs = map<Path, Kind>

  /** `os.path.isdir(p)`: `p` exists and is a directory. */
  predicate IsDir(fs: Fs, p: Path) {
    p in fs && fs[p] == Directory
  }

  /** A tree: the parent of every existing entry exists and is a directory. */
  predicate WellFormed(fs: Fs) {
    forall q :: q in fs && q != [] ==> IsDir(fs, q[..|q| - 1])
  }

  /** `shutil.rmtree(root)`: every entry at or beneath `root` disappears; every other entry stays as it was. */
  function RemoveTree(fs: Fs, root: Path): (r: Fs)
    ensures r.Keys <= fs.Keys
    ensures forall q :: q in fs ==> (q in r <==> !IsUnder(q, root))
    ensures forall q :: q in r ==> r[q] == fs[q]
  {
    map q | q in fs && !IsUnder(q, root) :: fs[q]
  }

  /** Removing a subtree leaves a tree. */
  lemma RemoveTreeKeepsWellFormed(fs: Fs, root: Path)
    requires WellFormed(fs)
    ensures WellFormed(RemoveTree(fs, root))
  {
    var r := RemoveTree(fs, root);
    forall q | q in r && q != []
      ensures IsDir(r, q[..|q| - 1])
    {
      var parent := q[..|q| - 1];
      assert IsUnder(q, parent);
      if IsUnder(parent, root) {
        UnderTransitive(q, parent, root);
      }
    }
  }
}
