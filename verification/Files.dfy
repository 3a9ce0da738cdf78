/** What the sync tool knows of a file. */
module Files {
  import opened Options

  type Path = string
  type Hash = string

  /** What `metadata` reports; a modification time of 0 means it is unknown. */
  datatype Stat = Stat(size: nat, mtime: real)

  /** The hash is missing when the file could not be read. */
  datatype FileEntry = FileEntry(path: Path, stat: Stat, hash: Option<Hash>)

  function At<V>(m: map<Path, V>, p: Path): Option<V> { if p in m then Some(m[p]) else None }

  lemma SameMap<V>(a: map<Path, V>, b: map<Path, V>)
    requires forall p :: At(a, p) == At(b, p)
    ensures a == b
  {
    forall p ensures p in a <==> p in b {
      assert At(a, p) == At(b, p);
    }
    forall p | p in a ensures a[p] == b[p] {
      assert At(a, p) == At(b, p);
    }
  }
}
