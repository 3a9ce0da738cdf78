/**
 The server half of a pass, carried out message by message: sending a plan's deletions
 and uploads to a server session leaves its files as the pass says.
 */
module SyncRefinement {
  import opened Bytes
  import opened Files
  import opened Options
  import opened SyncDiff
  import opened SyncPass
  import Server = SyncServer

  type Hashing = Bytes -> Hash

  /** What a scan shows of a stored file. */
  function Entry(h: Hashing, p: Path, f: Server.Stored): FileEntry {
    FileEntry(p, Stat(|f.content|, f.mtime), Some(h(f.content)))
  }

  /** The tree a scan of these files shows. */
  ghost predicate Shows(h: Hashing, files: map<Path, Server.Stored>, tree: Tree) {
    forall p :: At(tree, p) == if p in files then Some(Entry(h, p, files[p])) else None
  }

  // Deletions

  /** Every deletion as sent: its stamp on the server's clock. */
  function Deleting(h: Hashing, s: Server.Session, st: Setting, deletes: seq<(Path, nat)>, io: Path -> Server.Io)
    : Server.Session
    decreases |deletes|
  {
    if deletes == [] then s
    else
      var (p, ts) := deletes[|deletes| - 1];
      Server.Step(h, Deleting(h, s, st, deletes[..|deletes| - 1], io),
                  Server.DeleteFile(p, SentStamp(st, ts)), io(p))
  }

  /** The file system answers: stats succeed, and a file is no directory. */
  ghost predicate IoOk(s: Server.Session, io: Path -> Server.Io) {
    forall p :: io(p).statOk && (p in s.files ==> !io(p).directory)
  }

  /** The server refuses whatever the deletion's time. */
  predicate Refuses(s: Server.Session, io: Path -> Server.Io, p: Path) {
    || s.mode == "readonly" || !Server.SafePath(p)
    || (if p in s.files then !io(p).removeOk else io(p).directory)
  }

  /** The paths whose deletion was acknowledged. */
  function Confirmed(out: seq<Server.Reply>): set<Path> {
    set r | r in out && r.DeleteAck? && r.ok :: r.path
  }

  /** The replies given since. */
  function Since(out: seq<Server.Reply>, before: seq<Server.Reply>): seq<Server.Reply> {
    if |before| <= |out| then out[|before|..] else []
  }

  lemma OneMoreReply(out: seq<Server.Reply>, p: Path, ok: bool)
    ensures Confirmed(out + [Server.DeleteAck(p, ok)]) == Confirmed(out) + if ok then {p} else {}
  {
    var r := Server.DeleteAck(p, ok);
    assert forall q :: q in out + [r] <==> q in out || q == r;
  }

  /** So far: only files have gone, exactly those accepted, and each deletion was answered. */
  ghost predicate SoFar(s: Server.Session, s0: Server.Session, gone: set<Path>, n: nat) {
    && s.open && s.mode == s0.mode && s.incoming == s0.incoming
    && s.files == s0.files - gone
    && |s.out| == |s0.out| + n && s0.out <= s.out
    && Confirmed(Since(s.out, s0.out)) == gone
  }

  lemma DeleteOne(h: Hashing, s: Server.Session, s0: Server.Session, tree: Tree, failed: set<Path>, st: Setting,
                  done: seq<(Path, nat)>, d: (Path, nat), io: Path -> Server.Io)
    requires Shows(h, s0.files, tree) && IoOk(s0, io)
    requires d.0 in failed <==> Refuses(s0, io, d.0)
    requires SoFar(s, s0, AcceptedPaths(tree, failed, st, done), |done|)
    ensures var s' := Server.Step(h, s, Server.DeleteFile(d.0, SentStamp(st, d.1)), io(d.0));
            SoFar(s', s0, AcceptedPaths(tree, failed, st, done + [d]), |done| + 1)
  {
    var (p, ts) := d;
    var gone := AcceptedPaths(tree, failed, st, done);
    Server.OneDeleteAck(h, s, p, SentStamp(st, ts), io(p));
    OneMoreDelete(tree, failed, st, done, d);
    assert At(tree, p) == if p in s0.files then Some(Entry(h, p, s0.files[p])) else None;
    AcceptedIsNotFailed(tree, failed, st, done, p);
    var s' := Server.Step(h, s, Server.DeleteFile(p, SentStamp(st, ts)), io(p));
    var ok := s'.out[|s.out|].ok;
    assert ok <==> p in gone || Accepted(tree, failed, st, d);
    OneMoreReply(Since(s.out, s0.out), p, ok);
    assert Since(s'.out, s0.out) == Since(s.out, s0.out) + [Server.DeleteAck(p, ok)];
    assert s'.files == s0.files - AcceptedPaths(tree, failed, st, done + [d]);
  }

  lemma AcceptedIsNotFailed(tree: Tree, failed: set<Path>, st: Setting, deletes: seq<(Path, nat)>, p: Path)
    ensures p in AcceptedPaths(tree, failed, st, deletes) ==> p !in failed
  {
  }

  /** Sending deletions to the session removes exactly the files, and confirms exactly the
      paths, that the pass says the server accepts; each is answered once, in order. */
  lemma {:induction false} DeletionsCarriedOut(h: Hashing, s0: Server.Session, tree: Tree, failed: set<Path>,
                                               st: Setting, deletes: seq<(Path, nat)>, io: Path -> Server.Io)
    requires s0.open && Shows(h, s0.files, tree) && IoOk(s0, io)
    requires forall d :: d in deletes ==> (d.0 in failed <==> Refuses(s0, io, d.0))
    ensures SoFar(Deleting(h, s0, st, deletes, io), s0, AcceptedPaths(tree, failed, st, deletes), |deletes|)
    decreases |deletes|
  {
    if deletes == [] {
      assert Since(s0.out, s0.out) == [];
      assert AcceptedPaths(tree, failed, st, deletes) == {};
      assert s0.files - {} == s0.files;
    } else {
      var n := |deletes| - 1;
      var done, d := deletes[..n], deletes[n];
      assert deletes == done + [d];
      assert d in deletes;
      DeletionsCarriedOut(h, s0, tree, failed, st, done, io);
      DeleteOne(h, Deleting(h, s0, st, done, io), s0, tree, failed, st, done, d, io);
    }
  }

  // Uploads

  /** An upload that announces this entry. */
  predicate Announces(u: Server.Upload, f: FileEntry) {
    u.path == f.path && u.size == f.stat.size && u.mtime == f.stat.mtime && Some(u.hash) == f.hash && u.hash != ""
  }

  function Putting(h: Hashing, s: Server.Session, us: seq<Server.Upload>): Server.Session
    decreases |us|
  {
    if us == [] then s else Server.Uploading(h, Putting(h, s, us[..|us| - 1]), us[|us| - 1])
  }

  /** An upload that lands shows as the entry it announced; any other changes nothing. */
  lemma PutOne(h: Hashing, s: Server.Session, u: Server.Upload, f: FileEntry, tree: Tree)
    requires s.open && s.incoming.None? && Announces(u, f) && Shows(h, s.files, tree)
    ensures var s' := Server.Uploading(h, s, u);
            && s'.open && s'.incoming.None?
            && Shows(h, s'.files, if Server.Lands(h, s, u) then tree[f.path := f] else tree)
  {
    Server.OneAck(h, s, u);
    var s', after := Server.Uploading(h, s, u), if Server.Lands(h, s, u) then tree[f.path := f] else tree;
    forall p ensures At(after, p) == if p in s'.files then Some(Entry(h, p, s'.files[p])) else None {
      assert At(tree, p) == if p in s.files then Some(Entry(h, p, s.files[p])) else None;
    }
  }

  /** Whether an upload lands does not depend on the files or on what was said. */
  lemma LandsAnyway(h: Hashing, s: Server.Session, s': Server.Session, u: Server.Upload)
    requires s.mode == s'.mode
    ensures Server.Lands(h, s, u) == Server.Lands(h, s', u)
  {
  }

  lemma UploadingKeepsMode(h: Hashing, s: Server.Session, u: Server.Upload)
    ensures Server.Uploading(h, s, u).mode == s.mode
  {
    var started := Server.Step(h, s, Server.PutStart(u.path, u.size, u.hash, u.mtime), u.start);
    ChunksKeepMode(h, started, u.chunks);
  }

  lemma {:induction false} ChunksKeepMode(h: Hashing, s: Server.Session, chunks: seq<(Bytes, Server.Io)>)
    ensures Server.Chunks(h, s, chunks).mode == s.mode
    decreases |chunks|
  {
    if chunks != [] {
      ChunksKeepMode(h, Server.Step(h, s, Server.Bin(chunks[0].0), chunks[0].1), chunks[1..]);
    }
  }

  /** Each upload announces its file and lands unless the path is among the failed ones. */
  ghost predicate Uploads(h: Hashing, s: Server.Session, us: seq<Server.Upload>, files: seq<FileEntry>,
                          failed: set<Path>) {
    && |us| == |files|
    && forall i :: 0 <= i < |us| ==>
         Announces(us[i], files[i]) && (Server.Lands(h, s, us[i]) <==> files[i].path !in failed)
  }

  /** The tree with copies of files installed. */
  function Installed(tree: Tree, files: seq<FileEntry>, failed: set<Path>): Tree
    decreases |files|
  {
    if files == [] then tree
    else
      var f, before := files[|files| - 1], Installed(tree, files[..|files| - 1], failed);
      if f.path in failed then before else before[f.path := f]
  }

  /** Sending uploads to the session installs exactly those that do not fail. */
  lemma {:induction false} UploadsCarriedOut(h: Hashing, s0: Server.Session, tree: Tree, failed: set<Path>,
                                             files: seq<FileEntry>, us: seq<Server.Upload>)
    requires s0.open && s0.incoming.None? && Shows(h, s0.files, tree) && Uploads(h, s0, us, files, failed)
    ensures var s := Putting(h, s0, us);
            && s.open && s.incoming.None? && s.mode == s0.mode
            && Shows(h, s.files, Installed(tree, files, failed))
    decreases |us|
  {
    if us != [] {
      var n := |us| - 1;
      UploadsCarriedOut(h, s0, tree, failed, files[..n], us[..n]);
      var s := Putting(h, s0, us[..n]);
      PutOne(h, s, us[n], files[n], Installed(tree, files[..n], failed));
      LandsAnyway(h, s, s0, us[n]);
      UploadingKeepsMode(h, s, us[n]);
    }
  }

  lemma {:induction false} InstalledAt(tree: Tree, files: seq<FileEntry>, failed: set<Path>, from: Tree, p: Path)
    requires forall f :: f in files ==> At(from, f.path) == Some(f)
    ensures At(Installed(tree, files, failed), p) ==
            if p in PathSet(files) - failed then At(from, p) else At(tree, p)
    decreases |files|
  {
    if files != [] {
      var n := |files| - 1;
      InstalledAt(tree, files[..n], failed, from, p);
      assert files == files[..n] + [files[n]];
      assert PathSet(files) == PathSet(files[..n]) + {files[n].path};
      assert files[n] in files;
    }
  }

  // The server half of a pass

  /** The files a pass deletes on the server. */
  function GoneThere(x: Pass): set<Path> { set p | p in x.server && Executed(x, p).DeleteServer? }

  lemma DeletedAre(x: Pass, plan: Plan)
    requires Holds(x, plan, Paths(x))
    ensures AcceptedPaths(x.server, x.failed, x.st, plan.serverDeletes) == GoneThere(x)
  {
    ServerDeletesOf(x, plan);
    forall p ensures p in AcceptedPaths(x.server, x.failed, x.st, plan.serverDeletes) <==> p in GoneThere(x) {
      if Executed(x, p).DeleteServer? {
        DeleteAgreement(x, p);
      }
    }
  }

  lemma ShowsLess(h: Hashing, files: map<Path, Server.Stored>, tree: Tree, gone: set<Path>)
    requires Shows(h, files, tree)
    ensures Shows(h, files - gone, tree - gone)
  {
    forall p ensures At(tree - gone, p) == if p in files - gone then Some(Entry(h, p, (files - gone)[p])) else None {
      assert At(tree, p) == if p in files then Some(Entry(h, p, files[p])) else None;
    }
  }

  lemma UploadsStill(h: Hashing, s: Server.Session, s': Server.Session, us: seq<Server.Upload>, files: seq<FileEntry>,
                     failed: set<Path>)
    requires Uploads(h, s, us, files, failed) && s'.mode == s.mode
    ensures Uploads(h, s', us, files, failed)
  {
    forall i | 0 <= i < |us|
      ensures Announces(us[i], files[i]) && (Server.Lands(h, s', us[i]) <==> files[i].path !in failed)
    {
      LandsAnyway(h, s', s, us[i]);
    }
  }

  lemma InstalledIsAfter(x: Pass, plan: Plan, uploads: seq<FileEntry>)
    requires Named(x.client) && Holds(x, plan, Paths(x))
    requires forall f :: f in uploads <==> f in plan.uploads && f.path !in x.blocked
    ensures Installed(x.server - GoneThere(x), uploads, x.failed) == ServerAfter(x)
  {
    UploadsOf(x, plan, uploads);
    var left := x.server - GoneThere(x);
    forall p ensures At(Installed(left, uploads, x.failed), p) == At(ServerAfter(x), p) {
      InstalledAt(left, uploads, x.failed, x.client, p);
      AfterAt(x, p);
    }
    SameMap(Installed(left, uploads, x.failed), ServerAfter(x));
  }

  /** A plan's deletions and uploads sent to a session, one message after the other, leave
      its files as the pass leaves the server's tree, and the deletions confirmed are those
      the pass carries out. */
  lemma SessionCarriesOutPass(h: Hashing, x: Pass, plan: Plan, uploads: seq<FileEntry>, s0: Server.Session,
                              io: Path -> Server.Io, us: seq<Server.Upload>)
    requires s0.open && s0.incoming.None? && Shows(h, s0.files, x.server) && IoOk(s0, io)
    requires Named(x.client) && Holds(x, plan, Paths(x))
    requires forall f :: f in uploads <==> f in plan.uploads && f.path !in x.blocked
    requires forall d :: d in plan.serverDeletes ==> (d.0 in x.failed <==> Refuses(s0, io, d.0))
    requires Uploads(h, s0, us, uploads, x.failed)
    ensures var mid := Deleting(h, s0, x.st, plan.serverDeletes, io);
            && Shows(h, Putting(h, mid, us).files, ServerAfter(x))
            && Confirmed(Since(mid.out, s0.out)) == GoneThere(x)
  {
    var mid := Deleting(h, s0, x.st, plan.serverDeletes, io);
    DeletionsCarriedOut(h, s0, x.server, x.failed, x.st, plan.serverDeletes, io);
    DeletedAre(x, plan);
    ShowsLess(h, s0.files, x.server, GoneThere(x));
    UploadsStill(h, s0, mid, us, uploads, x.failed);
    UploadsCarriedOut(h, mid, x.server - GoneThere(x), x.failed, uploads, us);
    InstalledIsAfter(x, plan, uploads);
  }
}
