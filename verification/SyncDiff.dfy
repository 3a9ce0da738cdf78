/**
 The sync client's diff: a last-writer-wins merge of two trees with a clock offset,
 remembered deletions, a conflict band of one millisecond and a guard that drops
 downloads whose path was deleted in the meantime.
 */
module SyncDiff {
  import opened Files
  import opened Options
  import opened Tombstones

  type Tree = map<Path, FileEntry>

  /** `offset` is server time minus client time. */
  datatype Setting = Setting(readonly: bool, aware: bool, offset: int)

  datatype Decision = Nothing | Download | Upload | DeleteServer(ts: nat) | DeleteLocal | Conflict

  /** A server modification time on the client's clock. */
  function Adjusted(st: Setting, f: FileEntry): real { f.stat.mtime - st.offset as real }

  predicate DeletedAfter(st: Setting, sf: FileEntry, tomb: Option<nat>) {
    tomb.Some? && tomb.value as real > Adjusted(st, sf)
  }

  /** What the first loop decides about a file on the server. */
  function DecideServer(st: Setting, sf: FileEntry, cf: Option<FileEntry>, tomb: Option<nat>): Decision {
    if sf.hash.None? then Nothing
    else if cf.None? then
      if st.aware && !st.readonly && DeletedAfter(st, sf, tomb) then DeleteServer(tomb.value) else Download
    else if cf.value.hash.None? || sf.hash == cf.value.hash then Nothing
    else if st.readonly || Adjusted(st, sf) > cf.value.stat.mtime + 1.0 then Download
    else if cf.value.stat.mtime > Adjusted(st, sf) + 1.0 then Upload
    else Conflict
  }

  /** What the second loop decides about a file the server does not have. */
  function DecideClient(st: Setting, cf: FileEntry, tomb: Option<nat>): Decision {
    if st.readonly then Nothing
    else if tomb.Some? && tomb.value as real - st.offset as real > cf.stat.mtime then DeleteLocal
    else if cf.hash.Some? then Upload
    else Nothing
  }

  /** Everything one pass looks at: both trees, the client's and the server's
      deletions, the client's deletions as reloaded by the guard, the paths this
      platform cannot hold, and those on which the planned action will fail because a
      file is locked, an operation fails or the other side refuses. */
  datatype Pass = Pass(st: Setting, server: Tree, client: Tree, local: Stamps, remote: Stamps,
                       reloaded: Stamps, blocked: set<Path>, failed: set<Path>)

  function Planned(x: Pass, p: Path): Decision {
    if p in x.server then DecideServer(x.st, x.server[p], At(x.client, p), At(x.local, p))
    else if p in x.client then DecideClient(x.st, x.client[p], At(x.remote, p))
    else Nothing
  }

  /** The guard's rule. */
  predicate Dropped(x: Pass, p: Path) {
    Planned(x, p).Download? && p in x.server && DeletedAfter(x.st, x.server[p], At(x.reloaded, p))
  }

  /** The transfers left after both filters, and the deletions, as far as they succeed. */
  function Executed(x: Pass, p: Path): Decision {
    var d := Planned(x, p);
    if (d.Download? || d.Upload?) && p in x.blocked then Nothing
    else if Dropped(x, p) then Nothing
    else if !d.Conflict? && p in x.failed then Nothing
    else d
  }

  function ServerAt(x: Pass, p: Path): Option<FileEntry> {
    match Executed(x, p)
    case Upload => At(x.client, p)
    case DeleteServer(_) => None
    case _ => At(x.server, p)
  }

  function ClientAt(x: Pass, p: Path): Option<FileEntry> {
    match Executed(x, p)
    case Download => At(x.server, p)
    case DeleteLocal => None
    case _ => At(x.client, p)
  }

  function Paths(x: Pass): set<Path> { x.server.Keys + x.client.Keys }

  function ServerAfter(x: Pass): Tree {
    map p | p in Paths(x) && ServerAt(x, p).Some? :: ServerAt(x, p).value
  }

  function ClientAfter(x: Pass): Tree {
    map p | p in Paths(x) && ClientAt(x, p).Some? :: ClientAt(x, p).value
  }

  lemma AfterAt(x: Pass, p: Path)
    ensures At(ServerAfter(x), p) == ServerAt(x, p)
    ensures At(ClientAfter(x), p) == ClientAt(x, p)
  {
  }

  predicate Readable(t: Tree) { forall p :: p in t ==> t[p].hash.Some? }

  predicate Agree(s: Tree, c: Tree, p: Path) {
    (p in s <==> p in c) && (p in s ==> s[p].hash == c[p].hash)
  }

  /** Convergence: after a bidirectional pass over readable files the trees agree on a
      path exactly when it is not in conflict and what was planned for it was done. */
  lemma Convergence(x: Pass)
    requires !x.st.readonly && Readable(x.server) && Readable(x.client)
    ensures forall p :: Agree(ServerAfter(x), ClientAfter(x), p)
                   <==> !Planned(x, p).Conflict? && Executed(x, p) == Planned(x, p)
  {
    forall p
      ensures Agree(ServerAfter(x), ClientAfter(x), p) <==> !Planned(x, p).Conflict? && Executed(x, p) == Planned(x, p)
    {
      AfterAt(x, p);
    }
  }

  /** Last writer wins: a copy replaced or removed in a bidirectional pass was strictly
      older than the copy or the deletion that won, as the pass compares them, with the
      server's times moved by the offset; replaced copies by more than the conflict band. */
  lemma LosersAreOlder(x: Pass, p: Path)
    requires !x.st.readonly
    ensures p in x.client && At(ClientAfter(x), p) != At(x.client, p) ==>
              if p in x.server then
                At(ClientAfter(x), p) == At(x.server, p) && Adjusted(x.st, x.server[p]) > x.client[p].stat.mtime + 1.0
              else
                p !in ClientAfter(x) && p in x.remote && (x.remote[p] - x.st.offset) as real > x.client[p].stat.mtime
    ensures p in x.server && At(ServerAfter(x), p) != At(x.server, p) ==>
              if p in x.client then
                At(ServerAfter(x), p) == At(x.client, p) && x.client[p].stat.mtime > Adjusted(x.st, x.server[p]) + 1.0
              else
                p !in ServerAfter(x) && p in x.local && x.local[p] as real > Adjusted(x.st, x.server[p])
  {
    AfterAt(x, p);
  }

  /** Nothing is invented: whatever a tree holds afterwards, one of them held before. */
  lemma NothingInvented(x: Pass, p: Path)
    ensures p in ServerAfter(x) ==> Some(ServerAfter(x)[p]) in {At(x.server, p), At(x.client, p)}
    ensures p in ClientAfter(x) ==> Some(ClientAfter(x)[p]) in {At(x.server, p), At(x.client, p)}
  {
    AfterAt(x, p);
  }

  /** A second pass over what the first one left. */
  predicate Follows(y: Pass, x: Pass) { y.server == ServerAfter(x) && y.client == ClientAfter(x) }

  lemma IdempotentAt(x: Pass, y: Pass, p: Path)
    requires !x.st.readonly && Readable(x.server) && Readable(x.client) && Follows(y, x)
    requires Executed(x, p) == Planned(x, p) && !Planned(x, p).Conflict?
    ensures Planned(y, p).Nothing?
  {
    Convergence(x);
    assert Agree(y.server, y.client, p);
  }

  lemma ConflictStays(x: Pass, y: Pass, p: Path)
    requires Planned(x, p).Conflict? && Follows(y, x) && y.st.offset == x.st.offset && !y.st.readonly
    ensures Planned(y, p).Conflict?
  {
    AfterAt(x, p);
  }

  /** Idempotence: where the first pass could act, a second one, whatever tombstones it
      finds and whatever offset it measures, plans nothing; with the same offset it
      reports the same conflicts. */
  lemma Idempotence(x: Pass, y: Pass)
    requires !x.st.readonly && Readable(x.server) && Readable(x.client) && Follows(y, x)
    ensures forall p :: Executed(x, p) == Planned(x, p) && !Planned(x, p).Conflict? ==> Planned(y, p).Nothing?
    ensures y.st.offset == x.st.offset && !y.st.readonly ==>
              forall p :: Planned(x, p).Conflict? ==> Planned(y, p).Conflict?
  {
    forall p | Executed(x, p) == Planned(x, p) && !Planned(x, p).Conflict? ensures Planned(y, p).Nothing? {
      IdempotentAt(x, y, p);
    }
    if y.st.offset == x.st.offset && !y.st.readonly {
      forall p | Planned(x, p).Conflict? ensures Planned(y, p).Conflict? {
        ConflictStays(x, y, p);
      }
    }
  }

  /** When nothing is dropped the two passes report exactly the same conflicts. */
  lemma SameConflicts(x: Pass, y: Pass)
    requires !x.st.readonly && Readable(x.server) && Readable(x.client) && Follows(y, x)
    requires y.st.offset == x.st.offset && !y.st.readonly
    requires forall p :: p in Paths(x) ==> Executed(x, p) == Planned(x, p)
    ensures Conflicts(y) == Conflicts(x)
    ensures forall p :: Planned(y, p).Nothing? || Planned(y, p).Conflict?
  {
    Idempotence(x, y);
    forall p
      ensures p in Conflicts(y) <==> p in Conflicts(x)
      ensures Planned(y, p).Nothing? || Planned(y, p).Conflict?
    {
      AfterAt(x, p);
      if p !in Paths(x) {
        assert Planned(x, p).Nothing? && Executed(x, p).Nothing?;
      }
    }
  }

  function Conflicts(x: Pass): set<Path> { set p | p in x.server && Planned(x, p).Conflict? }

  lemma StaysReadable(x: Pass)
    requires Readable(x.server) && Readable(x.client)
    ensures Readable(ServerAfter(x)) && Readable(ClientAfter(x))
  {
    forall p | p in ServerAfter(x) ensures ServerAfter(x)[p].hash.Some? {
      NothingInvented(x, p);
    }
    forall p | p in ClientAfter(x) ensures ClientAfter(x)[p].hash.Some? {
      NothingInvented(x, p);
    }
  }

  /** A bidirectional pass over readable files in which every planned action runs. */
  ghost predicate Thorough(x: Pass) {
    && !x.st.readonly && Readable(x.server) && Readable(x.client)
    && forall p :: p in Paths(x) ==> Executed(x, p) == Planned(x, p)
  }

  /** After a thorough pass the next one is thorough too and changes nothing. */
  lemma SettledOnce(x: Pass, y: Pass)
    requires Thorough(x) && Follows(y, x) && y.st.offset == x.st.offset && !y.st.readonly
    ensures Thorough(y) && ServerAfter(y) == y.server && ClientAfter(y) == y.client && Conflicts(y) == Conflicts(x)
  {
    SameConflicts(x, y);
    StaysReadable(x);
    NothingToDo(y);
  }

  lemma NothingToDo(y: Pass)
    requires forall p :: Planned(y, p).Nothing? || Planned(y, p).Conflict?
    ensures ServerAfter(y) == y.server && ClientAfter(y) == y.client
    ensures forall p :: Executed(y, p) == Planned(y, p)
  {
    forall p
      ensures At(ServerAfter(y), p) == At(y.server, p) && At(ClientAfter(y), p) == At(y.client, p)
      ensures Executed(y, p) == Planned(y, p)
    {
      AfterAt(y, p);
      assert Planned(y, p).Nothing? || Planned(y, p).Conflict?;
    }
    SameMap(ServerAfter(y), y.server);
    SameMap(ClientAfter(y), y.client);
  }

  /** Passes that follow one another with the same clock offset, each with whatever
      tombstones it finds and whatever the server knows. */
  predicate Chain(x: Pass, ys: seq<Pass>)
    decreases |ys|
  {
    ys == [] || (Follows(ys[0], x) && ys[0].st.offset == x.st.offset && !ys[0].st.readonly && Chain(ys[0], ys[1..]))
  }

  /** The trees settle: after one thorough pass no number of further passes changes
      either tree or the conflicts, whatever tombstones they find. */
  lemma {:induction false} Settled(x: Pass, ys: seq<Pass>)
    requires Thorough(x) && Chain(x, ys)
    ensures forall i :: 0 <= i < |ys| ==>
              && ServerAfter(ys[i]) == ServerAfter(x) && ClientAfter(ys[i]) == ClientAfter(x)
              && Conflicts(ys[i]) == Conflicts(x)
    decreases |ys|
  {
    if ys != [] {
      SettledOnce(x, ys[0]);
      Settled(ys[0], ys[1..]);
      forall i | 0 <= i < |ys|
        ensures ServerAfter(ys[i]) == ServerAfter(x) && ClientAfter(ys[i]) == ClientAfter(x)
        ensures Conflicts(ys[i]) == Conflicts(x)
      {
        assert i > 0 ==> ys[i] == ys[1..][i - 1];
      }
    }
  }

  /** Whichever copies of `p` there are could be read. */
  predicate Comparable(x: Pass, p: Path) {
    (p in x.server ==> x.server[p].hash.Some?) && (p in x.client ==> x.client[p].hash.Some?)
  }

  /** A read-only pass never changes the server; the client ends with every readable
      server file that no filter dropped, and keeps what only it has. */
  lemma ReadonlyMirrors(x: Pass)
    requires x.st.readonly
    ensures ServerAfter(x) == x.server
    ensures forall p :: p in x.server && Comparable(x, p) && Executed(x, p) == Planned(x, p) ==>
                          Agree(ServerAfter(x), ClientAfter(x), p)
    ensures forall p :: p !in x.server ==> At(ClientAfter(x), p) == At(x.client, p)
  {
    forall p ensures At(ServerAfter(x), p) == At(x.server, p) {
      AfterAt(x, p);
    }
    SameMap(ServerAfter(x), x.server);
    forall p | p in x.server && Comparable(x, p) && Executed(x, p) == Planned(x, p)
      ensures Agree(ServerAfter(x), ClientAfter(x), p)
    {
      AfterAt(x, p);
    }
    forall p | p !in x.server ensures At(ClientAfter(x), p) == At(x.client, p) {
      AfterAt(x, p);
    }
  }

  /** What the guard drops when nothing was deleted during the pass, so that the
      reloaded deletions are the loaded ones before pruning: with a server that knows
      tombstones, only downloads over a copy the client still has, or of a path whose
      deletion is past the maximal age. */
  lemma GuardDropsOnly(x: Pass, p: Path, now: nat)
    requires !x.st.readonly && x.st.aware && x.local == Pruned(x.reloaded, now) && Dropped(x, p)
    ensures p in x.reloaded && (p in x.client || x.reloaded[p] == 0 || x.reloaded[p] + 2592000000 <= now)
  {
  }

  /** The next pass, with the same setting and the same deletions of `p`. */
  predicate Repeats(y: Pass, x: Pass, p: Path) {
    Follows(y, x) && y.st == x.st && At(y.reloaded, p) == At(x.reloaded, p) && At(y.local, p) == At(x.local, p)
  }

  lemma DroppedAgain(x: Pass, y: Pass, p: Path)
    requires Dropped(x, p) && Repeats(y, x, p)
    ensures Dropped(y, p) && Executed(y, p).Nothing?
    ensures At(y.server, p) == At(x.server, p) && At(y.client, p) == At(x.client, p)
  {
    AfterAt(x, p);
  }

  predicate RepeatedBy(x: Pass, ys: seq<Pass>, p: Path)
    decreases |ys|
  {
    ys == [] || (Repeats(ys[0], x, p) && RepeatedBy(ys[0], ys[1..], p))
  }

  /** A dropped download is dropped by all later passes as long as the path stays deleted
      at the same time, so the trees never come to agree on it. */
  lemma {:induction false} DroppedForever(x: Pass, ys: seq<Pass>, p: Path)
    requires Dropped(x, p) && RepeatedBy(x, ys, p)
    requires p in x.client ==> x.client[p].hash.Some?
    ensures forall i :: 0 <= i < |ys| ==>
              && Dropped(ys[i], p) && Executed(ys[i], p).Nothing?
              && At(ys[i].server, p) == At(x.server, p) && At(ys[i].client, p) == At(x.client, p)
              && !Agree(ServerAfter(ys[i]), ClientAfter(ys[i]), p)
    decreases |ys|
  {
    if ys != [] {
      var y := ys[0];
      DroppedAgain(x, y, p);
      AfterAt(y, p);
      DroppedForever(y, ys[1..], p);
      forall i | 0 <= i < |ys|
        ensures Dropped(ys[i], p) && Executed(ys[i], p).Nothing?
        ensures At(ys[i].server, p) == At(x.server, p) && At(ys[i].client, p) == At(x.client, p)
        ensures !Agree(ServerAfter(ys[i]), ClientAfter(ys[i]), p)
      {
        assert i > 0 ==> ys[i] == ys[1..][i - 1];
      }
    }
  }

  /** Such a path: deleted at 100, put back with the time 50, and newer on the server. */
  function PutBack(): Pass {
    var s, c := FileEntry("a", Stat(1, 80.0), Some("s")), FileEntry("a", Stat(1, 50.0), Some("c"));
    var deleted := map["a" := 100];
    Pass(Setting(false, true, 0), map["a" := s], map["a" := c], deleted, map[], deleted, {}, {})
  }

  lemma PutBackIsDropped()
    ensures Planned(PutBack(), "a").Download? && Dropped(PutBack(), "a")
    ensures !Agree(ServerAfter(PutBack()), ClientAfter(PutBack()), "a")
  {
    AfterAt(PutBack(), "a");
  }

  function Later(f: FileEntry, ms: int): FileEntry { f.(stat := f.stat.(mtime := f.stat.mtime + ms as real)) }

  /** The same pass against a server whose clock, files and tombstones are all `ms`
      later. */
  function Shifted(x: Pass, ms: int): Pass
    requires forall p :: p in x.remote ==> x.remote[p] + ms >= 0
  {
    x.(st := x.st.(offset := x.st.offset + ms),
       server := map p | p in x.server :: Later(x.server[p], ms),
       remote := map p | p in x.remote :: x.remote[p] + ms)
  }

  /** Skew invariance: no decision of one pass depends on the server's clock. */
  lemma SkewInvariance(x: Pass, ms: int, p: Path)
    requires forall q :: q in x.remote ==> x.remote[q] + ms >= 0
    ensures Planned(Shifted(x, ms), p) == Planned(x, p)
    ensures Executed(Shifted(x, ms), p) == Executed(x, p)
  {
    var y := Shifted(x, ms);
    if p in x.server {
      assert Adjusted(y.st, y.server[p]) == Adjusted(x.st, x.server[p]);
    } else if p in x.remote {
      assert y.remote[p] as real - y.st.offset as real == x.remote[p] as real - x.st.offset as real;
    }
  }

  /** The pass after `x`, with a file edited on the client or on the server in between. */
  function EditedHere(x: Pass, e: FileEntry): Pass {
    x.(server := ServerAfter(x), client := ClientAfter(x)[e.path := e])
  }

  function EditedThere(x: Pass, e: FileEntry): Pass {
    x.(server := ServerAfter(x)[e.path := e], client := ClientAfter(x))
  }

  /** A transfer keeps the modification time as it is, on the sender's clock. So after an
      upload an edit on the client is compared with the time of its own older copy moved
      by the offset: it is uploaded, or overwritten by the old copy, exactly as that says. */
  lemma EditAfterUpload(x: Pass, e: FileEntry)
    requires !x.st.readonly && Executed(x, e.path).Upload? && e.hash.Some? && e.hash != x.client[e.path].hash
    ensures var y, was := EditedHere(x, e), x.client[e.path].stat.mtime;
            && (Planned(y, e.path).Upload? <==> e.stat.mtime + x.st.offset as real > was + 1.0)
            && (Planned(y, e.path).Download? <==> was > e.stat.mtime + x.st.offset as real + 1.0)
            && At(y.server, e.path) == At(x.client, e.path)
  {
    AfterAt(x, e.path);
  }

  lemma EditAfterDownload(x: Pass, e: FileEntry)
    requires !x.st.readonly && Executed(x, e.path).Download? && e.hash.Some? && e.hash != x.server[e.path].hash
    ensures var y, was := EditedThere(x, e), x.server[e.path].stat.mtime;
            && (Planned(y, e.path).Download? <==> e.stat.mtime - x.st.offset as real > was + 1.0)
            && (Planned(y, e.path).Upload? <==> was > e.stat.mtime - x.st.offset as real + 1.0)
            && At(y.client, e.path) == At(x.server, e.path)
  {
    AfterAt(x, e.path);
  }

  /** A later edit of `was`, beyond the conflict band. */
  predicate LaterEdit(e: FileEntry, was: FileEntry) {
    e.path == was.path && e.hash.Some? && e.hash != was.hash && e.stat.mtime > was.stat.mtime + 1.0
  }

  /** The earliest edit of `was` that a clock difference can swallow. */
  function SlightEdit(was: FileEntry): (e: FileEntry)
    requires was.hash.Some?
    ensures LaterEdit(e, was)
  {
    FileEntry(was.path, Stat(was.stat.size, was.stat.mtime + 1.5), Some(was.hash.value + "+"))
  }

  /** Every later edit of an uploaded file is uploaded too, if and only if the server's
      clock is not behind. */
  lemma UploadedEditsCarriedIff(x: Pass, p: Path)
    requires !x.st.readonly && Executed(x, p).Upload? && x.client[p].path == p
    ensures (forall e :: LaterEdit(e, x.client[p]) ==> Planned(EditedHere(x, e), p).Upload?) <==> x.st.offset >= 0
  {
    forall e | LaterEdit(e, x.client[p])
      ensures Planned(EditedHere(x, e), p).Upload? <==>
                e.stat.mtime + x.st.offset as real > x.client[p].stat.mtime + 1.0
    {
      EditAfterUpload(x, e);
    }
    if x.st.offset < 0 {
      assert LaterEdit(SlightEdit(x.client[p]), x.client[p]);
    }
  }

  /** Every later edit of a downloaded file is downloaded too, if and only if the server's
      clock is not ahead. */
  lemma DownloadedEditsCarriedIff(x: Pass, p: Path)
    requires !x.st.readonly && Executed(x, p).Download? && x.server[p].path == p
    ensures (forall e :: LaterEdit(e, x.server[p]) ==> Planned(EditedThere(x, e), p).Download?) <==> x.st.offset <= 0
  {
    forall e | LaterEdit(e, x.server[p])
      ensures Planned(EditedThere(x, e), p).Download? <==>
                e.stat.mtime - x.st.offset as real > x.server[p].stat.mtime + 1.0
    {
      EditAfterDownload(x, e);
    }
    if x.st.offset > 0 {
      assert LaterEdit(SlightEdit(x.server[p]), x.server[p]);
    }
  }

  /** The client's deletion time on the server's clock, as sent. */
  function SentStamp(st: Setting, ts: nat): nat { if ts + st.offset < 0 then 0 else ts + st.offset }

  /** The server's last-writer guard. */
  predicate ServerAccepts(f: FileEntry, ts: nat) { f.stat.mtime <= ts as real }

  /** Delete agreement: the server accepts every deletion the client plans, as long as
      its file is the one the client saw. */
  lemma DeleteAgreement(x: Pass, p: Path)
    requires Planned(x, p).DeleteServer?
    ensures p in x.server && p !in x.client && ServerAccepts(x.server[p], SentStamp(x.st, Planned(x, p).ts))
  {
  }

  /** What the stamp sent means to the server: its copy is not newer than the deletion on
      the client's clock (or has no positive time at all). */
  lemma SentStampMeans(st: Setting, f: FileEntry, ts: nat)
    ensures ServerAccepts(f, SentStamp(st, ts)) <==>
              f.stat.mtime - st.offset as real <= ts as real || f.stat.mtime <= 0.0
  {
  }

  // What becomes of a path, read off both trees before and after. Server times are moved
  // to the client's clock by subtracting the offset.

  predicate Unchanged(x: Pass, p: Path) {
    At(ServerAfter(x), p) == At(x.server, p) && At(ClientAfter(x), p) == At(x.client, p)
  }

  predicate BothHave(x: Pass, p: Path, f: Option<FileEntry>) {
    At(ServerAfter(x), p) == f && At(ClientAfter(x), p) == f
  }

  predicate StampedAfter(stamps: Stamps, p: Path, time: real) { p in stamps && stamps[p] as real > time }

  /** A file that could not be read is left alone on both sides, in every mode: on the
      server, on the client while the server has one too, or on the client alone as long
      as the server has not deleted it since. */
  lemma UnreadableIsLeftAlone(x: Pass, p: Path)
    requires || (p in x.server && x.server[p].hash.None?)
             || (p in x.server && p in x.client && x.client[p].hash.None?)
             || (p !in x.server && p in x.client && x.client[p].hash.None?
                 && !StampedAfter(x.remote, p, x.client[p].stat.mtime + x.st.offset as real))
    ensures Unchanged(x, p)
  {
    AfterAt(x, p);
  }

  /** Where an action fails, or a platform cannot hold the file, nothing changes. */
  lemma FailedIsLeftAlone(x: Pass, p: Path)
    requires p in x.failed || (p in x.blocked && p in x.server && p in x.client)
    ensures Unchanged(x, p)
  {
    AfterAt(x, p);
  }

  /** A readable file only the server has: the client's deletion goes to the server if it
      is newer and the server understands deletions; otherwise the client gets the file,
      unless it cannot hold it or has meanwhile deleted it. */
  lemma ServerOnlyFate(x: Pass, p: Path)
    requires p in x.server && p !in x.client && x.server[p].hash.Some? && p !in x.failed
    ensures var time := x.server[p].stat.mtime - x.st.offset as real;
            if x.st.aware && !x.st.readonly && StampedAfter(x.local, p, time) then BothHave(x, p, None)
            else if p in x.blocked || StampedAfter(x.reloaded, p, time) then Unchanged(x, p)
            else BothHave(x, p, Some(x.server[p]))
  {
    AfterAt(x, p);
  }

  /** A file only the client has: it goes if the server has deleted it since, and otherwise
      goes to the server if it could be read and the platform filter lets it. */
  lemma ClientOnlyFate(x: Pass, p: Path)
    requires p !in x.server && p in x.client && p !in x.failed
    ensures if x.st.readonly then Unchanged(x, p)
            else if StampedAfter(x.remote, p, x.client[p].stat.mtime + x.st.offset as real) then BothHave(x, p, None)
            else if x.client[p].hash.None? || p in x.blocked then Unchanged(x, p)
            else BothHave(x, p, Some(x.client[p]))
  {
    AfterAt(x, p);
  }

  /** A readable file both have, with different content: the copy newer by more than a
      millisecond wins; read-only, the server's. */
  lemma BothFate(x: Pass, p: Path)
    requires p in x.server && p in x.client && p !in x.failed && p !in x.blocked
    requires x.server[p].hash.Some? && x.client[p].hash.Some? && x.server[p].hash != x.client[p].hash
    ensures var time, mine := x.server[p].stat.mtime - x.st.offset as real, x.client[p].stat.mtime;
            if x.st.readonly || time > mine + 1.0 then
              if StampedAfter(x.reloaded, p, time) then Unchanged(x, p) else BothHave(x, p, Some(x.server[p]))
            else if mine > time + 1.0 then BothHave(x, p, Some(x.client[p]))
            else Unchanged(x, p)
  {
    AfterAt(x, p);
  }

  /** The conflicts: readable copies that differ and whose times are within a millisecond
      of each other, in a bidirectional pass. */
  lemma ConflictsIff(x: Pass, p: Path)
    ensures p in Conflicts(x) <==>
              && !x.st.readonly && p in x.server && p in x.client
              && x.server[p].hash.Some? && x.client[p].hash.Some? && x.server[p].hash != x.client[p].hash
              && -1.0 <= x.server[p].stat.mtime - x.st.offset as real - x.client[p].stat.mtime <= 1.0
    ensures p in Conflicts(x) || (p in x.server && p in x.client && x.server[p].hash == x.client[p].hash) ==>
              Unchanged(x, p)
  {
    AfterAt(x, p);
  }

  // What a pass puts on record.

  /** A server stamp on the client's clock, as recorded. */
  function BackStamp(st: Setting, ts: nat): nat { if ts - st.offset < 0 then 0 else ts - st.offset }

  /** The deletions the client records: its own copies removed, with the server's stamps,
      and those the server confirmed, with its own. */
  function LocalRecords(x: Pass): Stamps {
    map p | p in x.server.Keys + x.client.Keys && (DeletedHere(x, p) || DeletedThere(x, p)) ::
      if DeletedHere(x, p) then BackStamp(x.st, x.remote[p]) else x.local[p]
  }

  predicate DeletedHere(x: Pass, p: Path) { Executed(x, p).DeleteLocal? && p in x.remote }

  predicate DeletedThere(x: Pass, p: Path) { Executed(x, p).DeleteServer? && p in x.local }

  /** The deletions the server records, at its own time. */
  function RemoteRecords(x: Pass, serverNow: nat): Stamps {
    map p | p in x.server.Keys && DeletedThere(x, p) :: serverNow
  }

  lemma DeletesAreKnown(x: Pass, p: Path)
    ensures Executed(x, p).DeleteLocal? <==> DeletedHere(x, p)
    ensures Executed(x, p).DeleteServer? <==> DeletedThere(x, p)
  {
  }

  /** No resurrection: a deletion carried out on the client is recorded there with a stamp
      newer than the copy removed, so a later pass that meets this copy on a server, and
      finds the record, deletes it there instead of bringing it back. */
  lemma NoResurrection(x: Pass, y: Pass, p: Path)
    requires Executed(x, p).DeleteLocal?
    requires At(y.local, p) == At(LocalRecords(x), p) && p in y.server && p !in y.client
    requires y.st.aware && !y.st.readonly && y.server[p].hash.Some?
    ensures y.server[p].stat.mtime - y.st.offset as real <= x.client[p].stat.mtime ==> Planned(y, p).DeleteServer?
    ensures Planned(y, p).DeleteServer? <==>
              var copy := y.server[p].stat.mtime - y.st.offset as real;
              copy < (x.remote[p] - x.st.offset) as real || copy < 0.0
    ensures !Planned(y, p).DeleteServer? ==> Planned(y, p).Download?
  {
    DeletesAreKnown(x, p);
    assert p in LocalRecords(x);
  }

  /** A deletion the server has confirmed stays on the client's record as it was. */
  lemma KeepsOwnStamp(x: Pass, p: Path)
    requires Executed(x, p).DeleteServer?
    ensures p in x.local && At(LocalRecords(x), p) == Some(x.local[p])
  {
    DeletesAreKnown(x, p);
  }

  /** Deletions spread: once the server has deleted a file for one client, any other client
      whose copy is older than that deletion removes it too. */
  lemma DeletionSpreads(x: Pass, serverNow: nat, z: Pass, p: Path)
    requires Executed(x, p).DeleteServer?
    requires At(z.remote, p) == At(RemoteRecords(x, serverNow), p) && p !in z.server && p in z.client
    requires !z.st.readonly
    ensures Planned(z, p).DeleteLocal? <==> z.client[p].stat.mtime < (serverNow - z.st.offset) as real
  {
    DeletesAreKnown(x, p);
    assert p in RemoteRecords(x, serverNow);
  }

  // The loops. A file list is what a scan of a tree returns.

  ghost predicate Lists(files: seq<FileEntry>, t: Tree) {
    && (forall i :: 0 <= i < |files| ==> files[i].path in t && t[files[i].path] == files[i])
    && (forall p :: p in t ==> t[p] in files && t[p].path == p)
    && (forall i, j :: 0 <= i < j < |files| ==> files[i].path != files[j].path)
  }

  /** A tree's lookup table, built entry by entry. */
  method Index(files: seq<FileEntry>, ghost t: Tree) returns (m: Tree)
    requires Lists(files, t)
    ensures m == t
  {
    m := map[];
    for k := 0 to |files|
      invariant forall p :: p in m ==> p in t && m[p] == t[p]
      invariant forall i :: 0 <= i < k ==> files[i].path in m
    {
      m := m[files[k].path := files[k]];
    }
    forall p | p in t ensures p in m {
      var i :| 0 <= i < |files| && files[i] == t[p];
      assert files[i].path == p;
    }
  }

  datatype Plan = Plan(downloads: seq<FileEntry>, uploads: seq<FileEntry>,
                       serverDeletes: seq<(Path, nat)>, localDeletes: seq<Path>, conflicts: nat)

  /** The plan with the decision about one more path. */
  function Adding(x: Pass, plan: Plan, p: Path): Plan {
    match Planned(x, p)
    case Download => if p in x.server then plan.(downloads := plan.downloads + [x.server[p]]) else plan
    case Upload => if p in x.client then plan.(uploads := plan.uploads + [x.client[p]]) else plan
    case DeleteServer(ts) => plan.(serverDeletes := plan.serverDeletes + [(p, ts)])
    case DeleteLocal => plan.(localDeletes := plan.localDeletes + [p])
    case Conflict => plan.(conflicts := plan.conflicts + 1)
    case Nothing => plan
  }

  function ConflictsAmong(x: Pass, paths: set<Path>): set<Path> { set p | p in paths && Planned(x, p).Conflict? }

  ghost predicate DownloadsHold(x: Pass, downloads: seq<FileEntry>, done: set<Path>) {
    forall f :: f in downloads <==> f.path in done && Planned(x, f.path).Download? && At(x.server, f.path) == Some(f)
  }

  ghost predicate UploadsHold(x: Pass, uploads: seq<FileEntry>, done: set<Path>) {
    forall f :: f in uploads <==> f.path in done && Planned(x, f.path).Upload? && At(x.client, f.path) == Some(f)
  }

  ghost predicate DeletesHold(x: Pass, plan: Plan, done: set<Path>) {
    && (forall d :: d in plan.serverDeletes <==> d.0 in done && Planned(x, d.0) == DeleteServer(d.1))
    && (forall p :: p in plan.localDeletes <==> p in done && Planned(x, p).DeleteLocal?)
  }

  /** `plan` holds exactly the decisions about the paths in `done`. */
  ghost predicate Holds(x: Pass, plan: Plan, done: set<Path>) {
    && DownloadsHold(x, plan.downloads, done) && UploadsHold(x, plan.uploads, done) && DeletesHold(x, plan, done)
    && plan.conflicts == |ConflictsAmong(x, done)|
  }

  ghost predicate Named(t: Tree) { forall p :: p in t ==> t[p].path == p }

  lemma AddingDownloads(x: Pass, plan: Plan, done: set<Path>, p: Path)
    requires Named(x.server) && DownloadsHold(x, plan.downloads, done)
    ensures DownloadsHold(x, Adding(x, plan, p).downloads, done + {p})
  {
    forall f ensures f in Adding(x, plan, p).downloads <==>
                       f.path in done + {p} && Planned(x, f.path).Download? && At(x.server, f.path) == Some(f) {
    }
  }

  lemma AddingUploads(x: Pass, plan: Plan, done: set<Path>, p: Path)
    requires Named(x.client) && UploadsHold(x, plan.uploads, done)
    ensures UploadsHold(x, Adding(x, plan, p).uploads, done + {p})
  {
    forall f ensures f in Adding(x, plan, p).uploads <==>
                       f.path in done + {p} && Planned(x, f.path).Upload? && At(x.client, f.path) == Some(f) {
    }
  }

  lemma AddingDeletes(x: Pass, plan: Plan, done: set<Path>, p: Path)
    requires DeletesHold(x, plan, done)
    ensures DeletesHold(x, Adding(x, plan, p), done + {p})
  {
  }

  lemma MoreConflicts(x: Pass, done: set<Path>, p: Path)
    ensures ConflictsAmong(x, done + {p}) == ConflictsAmong(x, done) + if Planned(x, p).Conflict? then {p} else {}
  {
  }

  lemma AddingConflicts(x: Pass, plan: Plan, done: set<Path>, p: Path)
    requires plan.conflicts == |ConflictsAmong(x, done)| && p !in done
    ensures Adding(x, plan, p).conflicts == |ConflictsAmong(x, done + {p})|
  {
    var here := ConflictsAmong(x, done);
    MoreConflicts(x, done, p);
    OneMore(here, p);
    AddingCount(x, plan, p);
  }

  lemma AddingCount(x: Pass, plan: Plan, p: Path)
    ensures Adding(x, plan, p).conflicts == plan.conflicts + if Planned(x, p).Conflict? then 1 else 0
  {
  }

  lemma OneMore(a: set<Path>, p: Path)
    requires p !in a
    ensures |a + {p}| == |a| + 1 && a + {} == a
  {
  }

  lemma AddingHolds(x: Pass, plan: Plan, done: set<Path>, p: Path)
    requires Named(x.server) && Named(x.client) && Holds(x, plan, done) && p !in done
    ensures Holds(x, Adding(x, plan, p), done + {p})
  {
    AddingDownloads(x, plan, done, p);
    AddingUploads(x, plan, done, p);
    AddingDeletes(x, plan, done, p);
    AddingConflicts(x, plan, done, p);
  }

  function PathsOf(files: seq<FileEntry>): set<Path> { set i | 0 <= i < |files| :: files[i].path }

  /** The body of the first loop. */
  method PlanServerFile(ghost x: Pass, plan: Plan, sf: FileEntry, client: Tree, st: Setting, local: Stamps)
    returns (next: Plan)
    requires At(x.server, sf.path) == Some(sf) && client == x.client && st == x.st && local == x.local
    ensures next == Adding(x, plan, sf.path)
  {
    if sf.hash.None? {
      return plan;
    }
    if sf.path !in client {
      if st.aware && !st.readonly && sf.path in local && local[sf.path] as real > sf.stat.mtime - st.offset as real {
        return plan.(serverDeletes := plan.serverDeletes + [(sf.path, local[sf.path])]);
      }
      return plan.(downloads := plan.downloads + [sf]);
    }
    var cf := client[sf.path];
    if cf.hash.None? || sf.hash == cf.hash {
      return plan;
    }
    var adjusted := sf.stat.mtime - st.offset as real;
    if st.readonly || adjusted > cf.stat.mtime + 1.0 {
      return plan.(downloads := plan.downloads + [sf]);
    } else if cf.stat.mtime > adjusted + 1.0 {
      return plan.(uploads := plan.uploads + [cf]);
    } else {
      return plan.(conflicts := plan.conflicts + 1);
    }
  }

  /** The body of the second loop. */
  method PlanClientFile(ghost x: Pass, plan: Plan, cf: FileEntry, st: Setting, remote: Stamps) returns (next: Plan)
    requires At(x.client, cf.path) == Some(cf) && cf.path !in x.server
    requires st == x.st && remote == x.remote && !st.readonly
    ensures next == Adding(x, plan, cf.path)
  {
    if cf.path in remote && remote[cf.path] as real - st.offset as real > cf.stat.mtime {
      return plan.(localDeletes := plan.localDeletes + [cf.path]);
    }
    if cf.hash.Some? {
      return plan.(uploads := plan.uploads + [cf]);
    }
    return plan;
  }

  method PlanServerFiles(ghost x: Pass, files: seq<FileEntry>, client: Tree, st: Setting, local: Stamps)
    returns (plan: Plan)
    requires Lists(files, x.server) && Named(x.server) && Named(x.client)
    requires client == x.client && st == x.st && local == x.local
    ensures Holds(x, plan, x.server.Keys)
  {
    plan := Plan([], [], [], [], 0);
    for k := 0 to |files|
      invariant Holds(x, plan, PathsOf(files[..k]))
    {
      NextPath(files, k);
      AddingHolds(x, plan, PathsOf(files[..k]), files[k].path);
      plan := PlanServerFile(x, plan, files[k], client, st, local);
    }
    WholeList(files, x.server);
  }

  method PlanUnlessKnown(ghost x: Pass, plan: Plan, cf: FileEntry, server: Tree, st: Setting, remote: Stamps,
                         ghost done: set<Path>)
    returns (next: Plan)
    requires Named(x.server) && Named(x.client) && Holds(x, plan, done) && x.server.Keys <= done
    requires At(x.client, cf.path) == Some(cf) && (cf.path in done ==> cf.path in x.server)
    requires server == x.server && st == x.st && remote == x.remote && !st.readonly
    ensures Holds(x, next, done + {cf.path})
  {
    if cf.path in server {
      assert done + {cf.path} == done;
      return plan;
    }
    AddingHolds(x, plan, done, cf.path);
    next := PlanClientFile(x, plan, cf, st, remote);
  }

  method PlanClientFiles(ghost x: Pass, first: Plan, files: seq<FileEntry>, server: Tree, st: Setting, remote: Stamps)
    returns (plan: Plan)
    requires Lists(files, x.client) && Named(x.server) && Named(x.client) && Holds(x, first, x.server.Keys)
    requires server == x.server && st == x.st && remote == x.remote && !st.readonly
    ensures Holds(x, plan, Paths(x))
  {
    plan := first;
    ghost var done := x.server.Keys;
    for k := 0 to |files|
      invariant done == x.server.Keys + PathsOf(files[..k])
      invariant Holds(x, plan, done)
    {
      NextPath(files, k);
      plan := PlanUnlessKnown(x, plan, files[k], server, st, remote, done);
      done := done + {files[k].path};
    }
    WholeList(files, x.client);
  }

  /** The diff: two loops over the file lists leave exactly the planned decisions, and
      count the conflicts. */
  method MakePlan(ghost x: Pass, serverFiles: seq<FileEntry>, clientFiles: seq<FileEntry>,
                  st: Setting, local: Stamps, remote: Stamps)
    returns (plan: Plan)
    requires Lists(serverFiles, x.server) && Lists(clientFiles, x.client)
    requires st == x.st && local == x.local && remote == x.remote
    ensures Holds(x, plan, Paths(x)) && plan.conflicts == |Conflicts(x)|
  {
    var server := Index(serverFiles, x.server);
    var client := Index(clientFiles, x.client);
    plan := PlanServerFiles(x, serverFiles, client, st, local);
    if st.readonly {
      NothingElse(x, plan);
    } else {
      plan := PlanClientFiles(x, plan, clientFiles, server, st, remote);
    }
    assert ConflictsAmong(x, Paths(x)) == Conflicts(x);
  }

  lemma WholeList(files: seq<FileEntry>, t: Tree)
    requires Lists(files, t)
    ensures files[..|files|] == files && PathsOf(files) == t.Keys
  {
    forall p | p in t ensures p in PathsOf(files) {
      var i :| 0 <= i < |files| && files[i] == t[p];
      assert files[i].path == p;
    }
  }

  /** Read-only, a file only the client has is left alone. */
  lemma NothingElse(x: Pass, plan: Plan)
    requires x.st.readonly && Holds(x, plan, x.server.Keys)
    ensures Holds(x, plan, Paths(x))
  {
    assert forall p :: p !in x.server ==> Planned(x, p).Nothing?;
    assert ConflictsAmong(x, Paths(x)) == ConflictsAmong(x, x.server.Keys);
  }

  lemma NextPath(files: seq<FileEntry>, k: nat)
    requires k < |files| && forall i, j :: 0 <= i < j < |files| ==> files[i].path != files[j].path
    ensures PathsOf(files[..k + 1]) == PathsOf(files[..k]) + {files[k].path}
    ensures files[k].path !in PathsOf(files[..k])
  {
    assert files[..k + 1] == files[..k] + [files[k]];
    forall p ensures p in PathsOf(files[..k + 1]) <==> p in PathsOf(files[..k]) + {files[k].path} {
      if p in PathsOf(files[..k]) {
        var i :| 0 <= i < k && files[..k][i].path == p;
        assert files[..k + 1][i].path == p;
      }
      assert files[..k + 1][k].path == files[k].path;
    }
  }
}
