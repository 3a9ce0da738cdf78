/**
 Carrying a plan out: the filters and the four loops of a sync pass, in the program's
 order, turn the two trees into those the decisions call for.
 */
module SyncPass {
  import opened Files
  import opened Options
  import opened Tombstones
  import opened SyncDiff

  function PathSet(files: seq<FileEntry>): set<Path> { set f | f in files :: f.path }

  /** The platform filter, on downloads and on uploads. */
  method KeepHoldable(files: seq<FileEntry>, blocked: set<Path>) returns (r: seq<FileEntry>)
    ensures forall f :: f in r <==> f in files && f.path !in blocked
  {
    r := [];
    for k := 0 to |files|
      invariant forall f :: f in r <==> f in files[..k] && f.path !in blocked
    {
      assert files[..k + 1] == files[..k] + [files[k]];
      if files[k].path !in blocked {
        r := r + [files[k]];
      }
    }
    assert files[..|files|] == files;
  }

  /** The race guard. */
  method DropDeleted(files: seq<FileEntry>, st: Setting, reloaded: Stamps) returns (r: seq<FileEntry>)
    ensures forall f :: f in r <==> f in files && !DeletedAfter(st, f, At(reloaded, f.path))
  {
    r := [];
    for k := 0 to |files|
      invariant forall f :: f in r <==> f in files[..k] && !DeletedAfter(st, f, At(reloaded, f.path))
    {
      assert files[..k + 1] == files[..k] + [files[k]];
      var f := files[k];
      if !(f.path in reloaded && reloaded[f.path] as real > f.stat.mtime - st.offset as real) {
        r := r + [f];
      }
    }
    assert files[..|files|] == files;
  }

  /** Installing copies of files the other tree has: downloads into the client's tree,
      uploads into the server's. A transfer that fails leaves the file as it was. */
  method Install(tree: Tree, files: seq<FileEntry>, failed: set<Path>, ghost from: Tree) returns (r: Tree)
    requires forall f :: f in files ==> At(from, f.path) == Some(f)
    ensures forall p :: At(r, p) == if p in PathSet(files) - failed then At(from, p) else At(tree, p)
  {
    r := tree;
    for k := 0 to |files|
      invariant forall p :: At(r, p) == if p in PathSet(files[..k]) - failed then At(from, p) else At(tree, p)
    {
      assert files[..k + 1] == files[..k] + [files[k]];
      assert PathSet(files[..k + 1]) == PathSet(files[..k]) + {files[k].path};
      if files[k].path !in failed {
        r := r[files[k].path := files[k]];
      }
    }
    assert files[..|files|] == files;
  }

  /** The stamp a removed file is recorded with. */
  function Removal(st: Setting, remote: Stamps, now: nat, p: Path): nat {
    if p in remote then BackStamp(st, remote[p]) else now
  }

  /** What removing these files puts on record. */
  function LocalEntries(st: Setting, remote: Stamps, now: nat, failed: set<Path>, paths: seq<Path>): Stamps {
    map p | p in paths && p !in failed :: Removal(st, remote, now, p)
  }

  lemma LocalEntry(st: Setting, remote: Stamps, now: nat, failed: set<Path>, paths: seq<Path>, p: Path)
    ensures var entries := LocalEntries(st, remote, now, failed, paths);
            LocalEntries(st, remote, now, failed, paths + [p])
            == if p in failed then entries else entries[p := Removal(st, remote, now, p)]
  {
    assert forall q :: q in paths + [p] <==> q in paths || q == p;
  }

  /** The client's deletions, each put on record. */
  method RemoveLocal(tree: Tree, paths: seq<Path>, failed: set<Path>, st: Setting, remote: Stamps,
                     store: Stamps, now: nat)
    returns (r: Tree, store': Stamps)
    ensures forall p :: At(r, p) == if p in paths && p !in failed then None else At(tree, p)
    ensures store' == Recording(store, LocalEntries(st, remote, now, failed, paths), now)
  {
    r, store' := tree, store;
    assert LocalEntries(st, remote, now, failed, paths[..0]) == map[];
    for k := 0 to |paths|
      invariant forall p :: At(r, p) == if p in paths[..k] && p !in failed then None else At(tree, p)
      invariant store' == Recording(store, LocalEntries(st, remote, now, failed, paths[..k]), now)
    {
      var p := paths[k];
      assert paths[..k + 1] == paths[..k] + [p];
      LocalEntry(st, remote, now, failed, paths[..k], p);
      if p !in failed {
        r := r - {p};
        var ts := if p in remote then BackStamp(st, remote[p]) else now;
        RecordOneMore(store, LocalEntries(st, remote, now, failed, paths[..k]), p, ts, now);
        store' := Recorded(store', map[p := ts], now);
      }
    }
    assert paths[..|paths|] == paths;
  }

  /** The server carries out a deletion: nothing fails and its copy, if any, is not newer. */
  predicate Accepted(tree: Tree, failed: set<Path>, st: Setting, d: (Path, nat)) {
    d.0 !in failed && (d.0 in tree ==> ServerAccepts(tree[d.0], SentStamp(st, d.1)))
  }

  function AcceptedPaths(tree: Tree, failed: set<Path>, st: Setting, deletes: seq<(Path, nat)>): set<Path> {
    set d | d in deletes && Accepted(tree, failed, st, d) :: d.0
  }

  lemma OneMoreDelete(tree: Tree, failed: set<Path>, st: Setting, deletes: seq<(Path, nat)>, d: (Path, nat))
    ensures AcceptedPaths(tree, failed, st, deletes + [d])
         == AcceptedPaths(tree, failed, st, deletes) + if Accepted(tree, failed, st, d) then {d.0} else {}
  {
    assert forall e :: e in deletes + [d] <==> e in deletes || e == d;
  }

  /** The stamps of the client for these paths. */
  function KeptEntries(local: Stamps, now: nat, paths: set<Path>): Stamps {
    map p | p in paths :: if p in local then local[p] else now
  }

  /** A stamp of the server's for each of these paths. */
  function StampedNow(serverNow: nat, paths: set<Path>): Stamps { map p | p in paths :: serverNow }

  /** The server's deletions, each under its last-writer guard, and which of them it
      acknowledged. */
  method RemoveRemote(tree: Tree, failed: set<Path>, st: Setting, deletes: seq<(Path, nat)>)
    returns (r: Tree, acked: set<Path>)
    ensures acked == AcceptedPaths(tree, failed, st, deletes)
    ensures forall p :: At(r, p) == if p in acked then None else At(tree, p)
  {
    r, acked := tree, {};
    for k := 0 to |deletes|
      invariant acked == AcceptedPaths(tree, failed, st, deletes[..k])
      invariant forall p :: At(r, p) == if p in acked then None else At(tree, p)
    {
      var (p, ts) := deletes[k];
      assert deletes[..k + 1] == deletes[..k] + [(p, ts)];
      OneMoreDelete(tree, failed, st, deletes[..k], (p, ts));
      assert At(r, p) == if p in acked then None else At(tree, p);
      if p !in failed && (p in r ==> r[p].stat.mtime <= SentStamp(st, ts) as real) {
        r := r - {p};
        acked := acked + {p};
      }
    }
    assert deletes[..|deletes|] == deletes;
  }

  function Part(entries: Stamps, done: set<Path>): Stamps { map p | p in entries && p in done :: entries[p] }

  lemma PartOneMore(entries: Stamps, done: set<Path>, p: Path)
    requires p in entries
    ensures Part(entries, done + {p}) == Part(entries, done)[p := entries[p]]
  {
  }

  lemma RecordPart(store: Stamps, entries: Stamps, done: set<Path>, p: Path, now: nat)
    requires p in entries
    ensures Recorded(Recording(store, Part(entries, done), now), map[p := entries[p]], now)
         == Recording(store, Part(entries, done + {p}), now)
  {
    PartOneMore(entries, done, p);
    RecordOneMore(store, Part(entries, done), p, entries[p], now);
  }

  /** Deletions recorded one at a time. */
  method RecordEach(store: Stamps, entries: Stamps, now: nat) returns (r: Stamps)
    ensures r == Recording(store, entries, now)
  {
    r := store;
    var left := entries.Keys;
    ghost var done: set<Path> := {};
    assert Part(entries, done) == map[];
    while left != {}
      invariant left + done == entries.Keys
      invariant r == Recording(store, Part(entries, done), now)
      decreases |left|
    {
      var p :| p in left;
      RecordPart(store, entries, done, p, now);
      r := Recorded(r, map[p := entries[p]], now);
      left := left - {p};
      done := done + {p};
    }
    assert Part(entries, done) == entries;
  }

  lemma DownloadsOf(x: Pass, plan: Plan, files: seq<FileEntry>)
    requires Named(x.server) && Holds(x, plan, Paths(x))
    requires forall f :: f in files <==>
                         f in plan.downloads && f.path !in x.blocked && !DeletedAfter(x.st, f, At(x.reloaded, f.path))
    ensures forall p :: p in PathSet(files) - x.failed <==> Executed(x, p).Download?
    ensures forall f :: f in files ==> At(x.server, f.path) == Some(f)
  {
    forall p ensures p in PathSet(files) - x.failed <==> Executed(x, p).Download? {
      if Executed(x, p).Download? {
        assert x.server[p] in plan.downloads;
        assert x.server[p] in files;
      }
    }
  }

  lemma UploadsOf(x: Pass, plan: Plan, files: seq<FileEntry>)
    requires Named(x.client) && Holds(x, plan, Paths(x))
    requires forall f :: f in files <==> f in plan.uploads && f.path !in x.blocked
    ensures forall p :: p in PathSet(files) - x.failed <==> Executed(x, p).Upload?
    ensures forall f :: f in files ==> At(x.client, f.path) == Some(f)
  {
    forall p ensures p in PathSet(files) - x.failed <==> Executed(x, p).Upload? {
      if Executed(x, p).Upload? {
        assert x.client[p] in plan.uploads;
        assert x.client[p] in files;
      }
    }
  }

  lemma ServerDeletesOf(x: Pass, plan: Plan)
    requires Holds(x, plan, Paths(x))
    ensures var acked := AcceptedPaths(x.server, x.failed, x.st, plan.serverDeletes);
            forall p :: p in acked <==> Executed(x, p).DeleteServer?
  {
    var acked := AcceptedPaths(x.server, x.failed, x.st, plan.serverDeletes);
    forall p ensures p in acked <==> Executed(x, p).DeleteServer? {
      if Executed(x, p).DeleteServer? {
        DeleteAgreement(x, p);
        var ts := Planned(x, p).ts;
        assert (p, ts) in plan.serverDeletes && Accepted(x.server, x.failed, x.st, (p, ts));
      }
    }
  }

  /** All the client puts on record: its own removals first, then the confirmed ones. */
  lemma RecordsOf(x: Pass, plan: Plan, now: nat, acked: set<Path>)
    requires Holds(x, plan, Paths(x)) && forall p :: p in acked <==> Executed(x, p).DeleteServer?
    ensures LocalEntries(x.st, x.remote, now, x.failed, plan.localDeletes) + KeptEntries(x.local, now, acked)
         == LocalRecords(x)
    ensures forall serverNow :: StampedNow(serverNow, acked) == RemoteRecords(x, serverNow)
  {
    var a := LocalEntries(x.st, x.remote, now, x.failed, plan.localDeletes) + KeptEntries(x.local, now, acked);
    forall p ensures At(a, p) == At(LocalRecords(x), p) {
      DeletesAreKnown(x, p);
    }
    SameMap(a, LocalRecords(x));
    forall serverNow ensures StampedNow(serverNow, acked) == RemoteRecords(x, serverNow) {
      forall p ensures At(StampedNow(serverNow, acked), p) == At(RemoteRecords(x, serverNow), p) {
        DeletesAreKnown(x, p);
      }
      SameMap(StampedNow(serverNow, acked), RemoteRecords(x, serverNow));
    }
  }

  /** Both trees and both stores of deletions. */
  datatype Outcome = Outcome(server: Tree, client: Tree, store: Stamps, serverStore: Stamps, conflicts: nat)

  /** One whole pass: diff, filters, local deletions, downloads, server deletions and
      uploads, any of which may fail. Whatever the lists' order, both trees end as the
      per-path decisions say, and both stores hold the deletions carried out. The
      client's store is the one the guard reloaded. */
  method Run(ghost x: Pass, serverFiles: seq<FileEntry>, clientFiles: seq<FileEntry>, server: Tree, client: Tree,
             st: Setting, local: Stamps, remote: Stamps, store: Stamps, blocked: set<Path>, failed: set<Path>,
             now: nat, serverStore: Stamps, serverNow: nat)
    returns (o: Outcome)
    requires x == Pass(st, server, client, local, remote, store, blocked, failed)
    requires Lists(serverFiles, server) && Lists(clientFiles, client)
    ensures o.server == ServerAfter(x) && o.client == ClientAfter(x)
    ensures o.store == Recording(store, LocalRecords(x), now)
    ensures o.serverStore == Recording(serverStore, RemoteRecords(x, serverNow), serverNow)
    ensures o.conflicts == |Conflicts(x)|
  {
    var plan := MakePlan(x, serverFiles, clientFiles, st, local, remote);
    var downloads := KeepHoldable(plan.downloads, blocked);
    var uploads := KeepHoldable(plan.uploads, blocked);
    downloads := DropDeleted(downloads, st, store);
    DownloadsOf(x, plan, downloads);
    UploadsOf(x, plan, uploads);
    var client', store' := Carried(x, plan, downloads, client, st, remote, store, failed, now);
    var server', acked := CarriedRemotely(x, plan, uploads, server, st, failed);
    RecordsOf(x, plan, now, acked);
    store' := RecordEach(store', KeptEntries(local, now, acked), now);
    var serverStore' := RecordEach(serverStore, StampedNow(serverNow, acked), serverNow);
    RecordBoth(store, LocalEntries(st, remote, now, failed, plan.localDeletes), KeptEntries(local, now, acked), now);
    return Outcome(server', client', store', serverStore', plan.conflicts);
  }

  lemma RecordBoth(store: Stamps, a: Stamps, b: Stamps, now: nat)
    ensures Recording(Recording(store, a, now), b, now) == Recording(store, a + b, now)
  {
    var left, right := Recording(Recording(store, a, now), b, now), Recording(store, a + b, now);
    if a == map[] {
      assert a + b == b;
    } else if b == map[] {
      assert a + b == a;
    } else {
      assert a.Keys <= (a + b).Keys;
      forall p ensures At(left, p) == At(right, p) {
        RecordedAt(store, a, now, p);
        RecordedAt(Recorded(store, a, now), b, now, p);
        RecordedAt(store, a + b, now, p);
      }
      SameMap(left, right);
    }
  }

  method Carried(ghost x: Pass, plan: Plan, downloads: seq<FileEntry>, client: Tree, st: Setting, remote: Stamps,
                 store: Stamps, failed: set<Path>, now: nat)
    returns (client': Tree, store': Stamps)
    requires client == x.client && st == x.st && remote == x.remote && failed == x.failed
    requires Holds(x, plan, Paths(x))
    requires forall p :: p in PathSet(downloads) - failed <==> Executed(x, p).Download?
    requires forall f :: f in downloads ==> At(x.server, f.path) == Some(f)
    ensures client' == ClientAfter(x)
    ensures store' == Recording(store, LocalEntries(st, remote, now, failed, plan.localDeletes), now)
  {
    client', store' := RemoveLocal(client, plan.localDeletes, failed, st, remote, store, now);
    client' := Install(client', downloads, failed, x.server);
    forall p ensures At(client', p) == At(ClientAfter(x), p) {
      AfterAt(x, p);
    }
    SameMap(client', ClientAfter(x));
  }

  method CarriedRemotely(ghost x: Pass, plan: Plan, uploads: seq<FileEntry>, server: Tree, st: Setting,
                         failed: set<Path>)
    returns (server': Tree, acked: set<Path>)
    requires server == x.server && st == x.st && failed == x.failed && Holds(x, plan, Paths(x))
    requires forall p :: p in PathSet(uploads) - failed <==> Executed(x, p).Upload?
    requires forall f :: f in uploads ==> At(x.client, f.path) == Some(f)
    ensures server' == ServerAfter(x)
    ensures forall p :: p in acked <==> Executed(x, p).DeleteServer?
  {
    server', acked := RemoveRemote(server, failed, st, plan.serverDeletes);
    ServerDeletesOf(x, plan);
    server' := Install(server', uploads, failed, x.client);
    forall p ensures At(server', p) == At(ServerAfter(x), p) {
      AfterAt(x, p);
    }
    SameMap(server', ServerAfter(x));
  }
}
