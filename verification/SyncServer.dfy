/**
 The server side of a sync session: one message at a time, with whatever the file
 system answers, over every sequence of messages.
 */
module SyncServer {
  import opened Bytes
  import opened Files
  import opened Options

  const VERSION: nat := 1
  const MAX_FILE_BYTES: nat := 8 * 1024 * 1024 * 1024

  // Paths

  /** The pieces of a path between slashes of either kind. */
  function Components(rel: string): (r: seq<string>)
    ensures |r| >= 1
  {
    if rel == "" then [""]
    else if rel[0] == '/' || rel[0] == '\\' then [""] + Components(rel[1..])
    else
      var rest := Components(rel[1..]);
      [[rel[0]] + rest[0]] + rest[1..]
  }

  predicate Separator(c: char) { c == '/' || c == '\\' }

  /** `rel[i..j]` stands between slashes of either kind or the ends, and has none itself. */
  predicate Delimited(rel: string, i: nat, j: nat) {
    && i <= j <= |rel|
    && (i == 0 || Separator(rel[i - 1])) && (j == |rel| || Separator(rel[j]))
    && forall k :: i <= k < j ==> !Separator(rel[k])
  }

  ghost predicate Piece(rel: string, c: string) {
    exists i: nat, j: nat :: Delimited(rel, i, j) && rel[i..j] == c
  }

  /** The components of a path are exactly its delimited pieces. */
  lemma ComponentsAre(rel: string, c: string)
    ensures c in Components(rel) <==> Piece(rel, c)
  {
    if c in Components(rel) {
      var k :| 0 <= k < |Components(rel)| && Components(rel)[k] == c;
      ComponentIsPiece(rel, k);
    }
    if Piece(rel, c) {
      var i: nat, j: nat :| Delimited(rel, i, j) && rel[i..j] == c;
      PieceIsComponent(rel, i, j);
    }
  }

  /** The first component starts the path. */
  lemma {:induction false} FirstComponent(rel: string) returns (j: nat)
    ensures Delimited(rel, 0, j) && rel[0..j] == Components(rel)[0]
    ensures j < |rel| ==> Components(rel)[1..] == Components(rel[j + 1..])
    ensures j == |rel| ==> |Components(rel)| == 1
    decreases |rel|
  {
    if rel == "" || Separator(rel[0]) {
      j := 0;
    } else {
      var j' := FirstComponent(rel[1..]);
      j := j' + 1;
      assert rel[0..j] == [rel[0]] + rel[1..][0..j'];
      if j < |rel| {
        assert rel[1..][j' + 1..] == rel[j + 1..];
      }
      forall k | 0 <= k < j ensures !Separator(rel[k]) {
        assert k > 0 ==> rel[k] == rel[1..][k - 1];
      }
      assert j < |rel| ==> rel[j] == rel[1..][j'];
    }
  }

  lemma {:induction false} ComponentIsPiece(rel: string, k: nat)
    requires k < |Components(rel)|
    ensures Piece(rel, Components(rel)[k])
    decreases |rel|, k
  {
    var j := FirstComponent(rel);
    if k > 0 {
      ComponentIsPiece(rel[j + 1..], k - 1);
      var c := Components(rel[j + 1..])[k - 1];
      var a: nat, b: nat :| Delimited(rel[j + 1..], a, b) && rel[j + 1..][a..b] == c;
      PieceOfRest(rel, j + 1, a, b);
    }
  }

  lemma PieceOfRest(rel: string, n: nat, a: nat, b: nat)
    requires 0 < n <= |rel| && Separator(rel[n - 1]) && Delimited(rel[n..], a, b)
    ensures Delimited(rel, n + a, n + b) && rel[n + a..n + b] == rel[n..][a..b]
  {
    forall k | n + a <= k < n + b ensures !Separator(rel[k]) {
      assert rel[k] == rel[n..][k - n];
    }
    assert a > 0 ==> rel[n + a - 1] == rel[n..][a - 1];
    assert b < |rel[n..]| ==> rel[n + b] == rel[n..][b];
  }

  lemma {:induction false} PieceIsComponent(rel: string, i: nat, j: nat)
    requires Delimited(rel, i, j)
    ensures rel[i..j] in Components(rel)
    decreases |rel|
  {
    var e := FirstComponent(rel);
    if i == 0 {
      SamePiece(rel, j, e);
    } else {
      assert e < i by {
        PieceStartsLater(rel, i, e);
      }
      RestOfPiece(rel, e + 1, i, j);
      PieceIsComponent(rel[e + 1..], i - e - 1, j - e - 1);
      assert rel[i..j] in Components(rel)[1..];
    }
  }

  lemma SamePiece(rel: string, j: nat, e: nat)
    requires Delimited(rel, 0, j) && Delimited(rel, 0, e)
    ensures j == e
  {
  }

  lemma PieceStartsLater(rel: string, i: nat, e: nat)
    requires 0 < i <= |rel| && Separator(rel[i - 1]) && Delimited(rel, 0, e)
    ensures e < i
  {
  }

  lemma RestOfPiece(rel: string, n: nat, i: nat, j: nat)
    requires 0 < n <= i && Delimited(rel, i, j)
    ensures Delimited(rel[n..], i - n, j - n) && rel[n..][i - n..j - n] == rel[i..j]
  {
    forall k | i - n <= k < j - n ensures !Separator(rel[n..][k]) {
      assert rel[n..][k] == rel[k + n];
    }
  }

  /** A path is let through if and only if it has no NUL and every piece of it between
      slashes of either kind is non-empty, is not a dot or two, and has no colon. */
  lemma SafeIff(rel: string)
    ensures SafePath(rel) <==>
              && (forall i :: 0 <= i < |rel| ==> rel[i] as int != 0)
              && forall c :: Piece(rel, c) ==> c != "" && c != "." && c != ".." && ':' !in c
  {
    forall c ensures c in Components(rel) <==> Piece(rel, c) {
      ComponentsAre(rel, c);
    }
  }

  predicate SafeComponent(c: string) { c != "" && c != "." && c != ".." && ':' !in c }

  /** `safe_join` succeeds. */
  predicate SafePath(rel: string) {
    (forall i :: 0 <= i < |rel| ==> rel[i] as int != 0) && forall c :: c in Components(rel) ==> SafeComponent(c)
  }

  /** Where a walk through the components ends up, dots included. */
  function Resolve(dir: seq<string>, comps: seq<string>): seq<string>
    decreases |comps|
  {
    if comps == [] then dir
    else
      var c := comps[0];
      var next := if c == "" || c == "." then dir
                  else if c == ".." then (if dir == [] then [] else dir[..|dir| - 1])
                  else dir + [c];
      Resolve(next, comps[1..])
  }

  lemma {:induction false} ResolveSafe(dir: seq<string>, comps: seq<string>)
    requires forall c :: c in comps ==> SafeComponent(c)
    ensures Resolve(dir, comps) == dir + comps
    decreases |comps|
  {
    if comps != [] {
      assert SafeComponent(comps[0]);
      ResolveSafe(dir + [comps[0]], comps[1..]);
      assert dir + [comps[0]] + comps[1..] == dir + comps;
    }
  }

  /** A path that is let through leads strictly below the root, whatever the root. */
  lemma SafeStaysBelow(root: seq<string>, rel: string)
    requires SafePath(rel)
    ensures var full := Resolve(root, Components(rel)); root < full
  {
    ResolveSafe(root, Components(rel));
  }

  // Messages and replies

  datatype Message =
    | Hello(version: nat, mode: Option<string>)
    | RequestScan
    | GetFile(path: Path)
    | DeleteFile(path: Path, ts: nat)
    | PutStart(path: Path, size: nat, hash: Hash, mtime: real)
    | PutDone
    | SyncComplete
    | Other
    | Bin(data: Bytes)

  datatype Reply =
    | HelloAck(mode: string)
    | ScanReply
    | FileReply(path: Path)
    | DeleteAck(path: Path, ok: bool)
    | PutAck(path: Path, ok: bool)
    | ErrorReply

  /** What the file system answers while one message is handled. */
  datatype Io = Io(statOk: bool, directory: bool, locked: bool, dirOk: bool, createOk: bool,
                   writeOk: bool, flushOk: bool, renameOk: bool, removeOk: bool)

  datatype Stored = Stored(content: Bytes, mtime: real)

  /** An upload in progress: what was written to the staging file and what was hashed. */
  datatype Incoming = Incoming(path: Path, size: nat, hash: Hash, mtime: real,
                               written: Bytes, hashed: Bytes, received: nat)

  datatype Session = Session(open: bool, mode: string, scanned: bool, incoming: Option<Incoming>,
                             files: map<Path, Stored>, out: seq<Reply>)

  function Say(s: Session, r: Reply): Session { s.(out := s.out + [r]) }

  function OnHello(s: Session, version: nat, mode: Option<string>): Session {
    if version != VERSION then Say(s, ErrorReply).(open := false)
    else
      var m := if mode.Some? && s.mode == "bidir" then mode.value else s.mode;
      Say(Say(s, HelloAck(m)), ScanReply).(mode := m, scanned := true)
  }

  function OnDelete(s: Session, p: Path, ts: nat, io: Io): Session {
    if s.mode == "readonly" || !SafePath(p) then Say(s, DeleteAck(p, false))
    else if !io.statOk || (p !in s.files && !io.directory) then Say(s, DeleteAck(p, true))
    else if p !in s.files then Say(s, DeleteAck(p, false))
    else if s.files[p].mtime > ts as real || !io.removeOk then Say(s, DeleteAck(p, false))
    else Say(s, DeleteAck(p, true)).(files := s.files - {p})
  }

  predicate PutAllowed(s: Session, p: Path, size: nat, io: Io) {
    s.mode != "readonly" && SafePath(p) && !io.locked && io.dirOk && size <= MAX_FILE_BYTES && io.createOk
  }

  function OnPutStart(s: Session, p: Path, size: nat, hash: Hash, mtime: real, io: Io): Session {
    if PutAllowed(s, p, size, io)
    then s.(incoming := Some(Incoming(p, size, hash, mtime, [], [], 0)))
    else Say(s, PutAck(p, false))
  }

  predicate Verified(h: Bytes -> Hash, i: Incoming, io: Io) {
    i.received == i.size && (i.hash == "" || h(i.hashed) == i.hash) && io.flushOk && SafePath(i.path) && io.renameOk
  }

  function OnPutDone(h: Bytes -> Hash, s: Session, io: Io): Session {
    if s.incoming.None? then s
    else
      var i := s.incoming.value;
      var ok := Verified(h, i, io);
      Say(s, PutAck(i.path, ok)).(incoming := None,
                                  files := if ok then s.files[i.path := Stored(i.written, i.mtime)] else s.files)
  }

  function OnBin(s: Session, data: Bytes, io: Io): Session {
    if s.incoming.None? then s
    else
      var i := s.incoming.value;
      var received := i.received + |data|;
      if received > MAX_FILE_BYTES || !io.writeOk || received > i.size
      then Say(s, PutAck(i.path, false)).(incoming := None)
      else s.(incoming := Some(i.(written := i.written + data, hashed := i.hashed + data, received := received)))
  }

  /** One message. A session that is over ignores the rest. */
  function Step(h: Bytes -> Hash, s: Session, m: Message, io: Io): Session {
    if !s.open then s
    else match m
      case Hello(version, mode) => OnHello(s, version, mode)
      case RequestScan => if s.scanned then Say(s, ScanReply) else s.(open := false)
      case GetFile(p) => Say(s, FileReply(p))
      case DeleteFile(p, ts) => OnDelete(s, p, ts, io)
      case PutStart(p, size, hash, mtime) => OnPutStart(s, p, size, hash, mtime, io)
      case PutDone => OnPutDone(h, s, io)
      case SyncComplete => s.(open := false)
      case Other => s
      case Bin(data) => OnBin(s, data, io)
  }

  /** What happens to a session: a message arrives, or someone else changes files. */
  datatype Event = Arrives(m: Message, io: Io) | Outside(files: map<Path, Stored>)

  function Next(h: Bytes -> Hash, s: Session, e: Event): Session {
    match e
    case Arrives(m, io) => Step(h, s, m, io)
    case Outside(files) => s.(files := files)
  }

  function Exec(h: Bytes -> Hash, s: Session, events: seq<Event>): Session {
    if events == [] then s else Next(h, Exec(h, s, events[..|events| - 1]), events[|events| - 1])
  }

  function Init(mode: string, files: map<Path, Stored>): Session { Session(true, mode, false, None, files, []) }

  // Verified install

  function EventData(e: Event): Bytes { if e.Arrives? && e.m.Bin? then e.m.data else [] }

  /** The binary data among some events, in order. */
  function Data(events: seq<Event>): Bytes {
    if events == [] then [] else Data(events[..|events| - 1]) + EventData(events[|events| - 1])
  }

  function Appended(i: Incoming, data: Bytes): Incoming {
    i.(written := i.written + data, hashed := i.hashed + data, received := i.received + |data|)
  }

  lemma AppendedTwice(i: Incoming, a: Bytes, b: Bytes)
    ensures Appended(Appended(i, a), b) == Appended(i, a + b) && Appended(i, []) == i
  {
    assert (i.written + a) + b == i.written + (a + b) && i.written + [] == i.written;
    assert (i.hashed + a) + b == i.hashed + (a + b) && i.hashed + [] == i.hashed;
  }

  /** The upload `i` was opened by event `k` and holds all data that came since. */
  predicate OpenedBy(events: seq<Event>, i: Incoming, k: nat) {
    && k < |events| && events[k].Arrives? && events[k].m == PutStart(i.path, i.size, i.hash, i.mtime)
    && i.written == i.hashed == Data(events[k + 1..]) && i.received == |i.written|
    && SafePath(i.path)
  }

  ghost predicate Opened(events: seq<Event>, i: Incoming) { exists k: nat :: k < |events| && OpenedBy(events, i, k) }

  lemma StaysOpened(events: seq<Event>, e: Event, i: Incoming, k: nat)
    requires OpenedBy(events, i, k)
    ensures Opened(events + [e], Appended(i, EventData(e)))
  {
    var since := (events + [e])[k + 1..];
    assert since[..|since| - 1] == events[k + 1..];
    assert since[|since| - 1] == e;
    assert OpenedBy(events + [e], Appended(i, EventData(e)), k);
  }

  lemma OpensNow(events: seq<Event>, e: Event, i: Incoming)
    requires e.Arrives? && e.m == PutStart(i.path, i.size, i.hash, i.mtime) && SafePath(i.path)
    requires i.written == i.hashed == [] && i.received == 0
    ensures Opened(events + [e], i)
  {
    assert (events + [e])[|events| + 1..] == [];
    assert OpenedBy(events + [e], i, |events|);
  }

  ghost predicate UploadOk(s: Session, events: seq<Event>) {
    s.open && s.incoming.Some? ==> Opened(events, s.incoming.value)
  }

  lemma BinKeepsUploadOk(s: Session, events: seq<Event>, data: Bytes, io: Io)
    requires s.open && UploadOk(s, events)
    ensures UploadOk(OnBin(s, data, io), events + [Arrives(Bin(data), io)])
  {
    var s' := OnBin(s, data, io);
    if s'.incoming.Some? {
      var k: nat :| k < |events| && OpenedBy(events, s.incoming.value, k);
      StaysOpened(events, Arrives(Bin(data), io), s.incoming.value, k);
    }
  }

  lemma PutStartKeepsUploadOk(s: Session, events: seq<Event>, m: Message, io: Io)
    requires s.open && UploadOk(s, events) && m.PutStart?
    ensures UploadOk(OnPutStart(s, m.path, m.size, m.hash, m.mtime, io), events + [Arrives(m, io)])
  {
    if PutAllowed(s, m.path, m.size, io) {
      OpensNow(events, Arrives(m, io), Incoming(m.path, m.size, m.hash, m.mtime, [], [], 0));
    } else {
      IdleKeepsUploadOk(s, s, events, Arrives(m, io));
    }
  }

  lemma IdleKeepsUploadOk(s: Session, s': Session, events: seq<Event>, e: Event)
    requires UploadOk(s, events) && !(e.Arrives? && e.m.Bin?)
    requires s'.open ==> s.open && (s'.incoming == s.incoming || s'.incoming.None?)
    ensures UploadOk(s', events + [e])
  {
    if s'.open && s'.incoming.Some? {
      var k: nat :| k < |events| && OpenedBy(events, s.incoming.value, k);
      StaysOpened(events, e, s.incoming.value, k);
      AppendedTwice(s.incoming.value, [], []);
    }
  }

  lemma NextKeepsUploadOk(h: Bytes -> Hash, s: Session, events: seq<Event>, e: Event)
    requires UploadOk(s, events)
    ensures UploadOk(Next(h, s, e), events + [e])
  {
    if e.Arrives? && s.open && e.m.Bin? {
      BinKeepsUploadOk(s, events, e.m.data, e.io);
    } else if e.Arrives? && s.open && e.m.PutStart? {
      PutStartKeepsUploadOk(s, events, e.m, e.io);
    } else if s.open {
      IdleKeepsUploadOk(s, Next(h, s, e), events, e);
    }
  }

  /** In every reachable state the upload under way was opened by an upload message and
      holds exactly the data that came since. */
  lemma {:induction false} UploadsAreOpened(h: Bytes -> Hash, mode: string, files: map<Path, Stored>,
                                            events: seq<Event>)
    ensures UploadOk(Exec(h, Init(mode, files), events), events)
    decreases |events|
  {
    if events != [] {
      var before, e := events[..|events| - 1], events[|events| - 1];
      UploadsAreOpened(h, mode, files, before);
      assert before + [e] == events;
      NextKeepsUploadOk(h, Exec(h, Init(mode, files), before), before, e);
    }
  }

  predicate Deletes(s: Session, m: Message, p: Path) {
    && m.DeleteFile? && m.path == p && SafePath(p) && s.mode != "readonly"
    && p in s.files && s.files[p].mtime <= m.ts as real
  }

  /** The two ways a message can change what a path holds. */
  lemma ChangeKinds(h: Bytes -> Hash, s: Session, m: Message, io: Io, p: Path)
    requires At(Step(h, s, m, io).files, p) != At(s.files, p)
    ensures s.open
    ensures if p !in Step(h, s, m, io).files then Deletes(s, m, p)
            else m.PutDone? && s.incoming.Some? && s.incoming.value.path == p && Verified(h, s.incoming.value, io)
                 && Step(h, s, m, io).files[p] == Stored(s.incoming.value.written, s.incoming.value.mtime)
  {
  }

  /** Verified install, over every sequence of messages, file-system answers and
      outside changes: when handling a message changes what a path holds, either the
      message is a deletion that the copy is not newer than, or it ends an upload of
      that path and the new content is all data received since the upload was opened,
      with the length, the time and (if one was declared) the hash given there. The
      path is safe in both cases. */
  lemma VerifiedInstall(h: Bytes -> Hash, mode: string, files: map<Path, Stored>, events: seq<Event>,
                        m: Message, io: Io, p: Path)
    requires var s := Exec(h, Init(mode, files), events); At(Step(h, s, m, io).files, p) != At(s.files, p)
    ensures var s := Exec(h, Init(mode, files), events);
            var s' := Step(h, s, m, io);
            if p !in s'.files then Deletes(s, m, p)
            else m.PutDone? && SafePath(p) && exists k: nat :: k < |events| && InstalledBy(h, events, k, p, s'.files[p])
  {
    var s := Exec(h, Init(mode, files), events);
    ChangeKinds(h, s, m, io, p);
    UploadsAreOpened(h, mode, files, events);
    if p in Step(h, s, m, io).files {
      var k: nat :| k < |events| && OpenedBy(events, s.incoming.value, k);
      InstallsOpened(h, events, k, s.incoming.value, io);
    }
  }

  lemma InstallsOpened(h: Bytes -> Hash, events: seq<Event>, k: nat, i: Incoming, io: Io)
    requires OpenedBy(events, i, k) && Verified(h, i, io)
    ensures InstalledBy(h, events, k, i.path, Stored(i.written, i.mtime))
  {
  }

  predicate InstalledBy(h: Bytes -> Hash, events: seq<Event>, k: nat, p: Path, f: Stored) {
    && k < |events| && events[k].Arrives? && events[k].m.PutStart? && events[k].m.path == p
    && f.content == Data(events[k + 1..]) && f.mtime == events[k].m.mtime
    && |f.content| == events[k].m.size
    && (events[k].m.hash == "" || h(f.content) == events[k].m.hash)
  }

  // Read-only

  /** Read-only sticks, and with no upload under way nothing a client sends changes a
      file, repeated hellos included. */
  lemma ReadonlyStep(h: Bytes -> Hash, s: Session, m: Message, io: Io)
    requires s.mode == "readonly" && s.incoming.None?
    ensures var s' := Step(h, s, m, io);
            s'.mode == "readonly" && s'.incoming.None? && s'.files == s.files
  {
  }

  /** Only what others did to the files shows. */
  function Untouched(files: map<Path, Stored>, events: seq<Event>): map<Path, Stored> {
    if events == [] then files
    else
      var e := events[|events| - 1];
      if e.Outside? then e.files else Untouched(files, events[..|events| - 1])
  }

  lemma {:induction false} ReadonlyForever(h: Bytes -> Hash, s: Session, events: seq<Event>)
    requires s.mode == "readonly" && s.incoming.None?
    ensures var s' := Exec(h, s, events);
            s'.mode == "readonly" && s'.incoming.None? && s'.files == Untouched(s.files, events)
    decreases |events|
  {
    if events != [] {
      var e := events[|events| - 1];
      ReadonlyForever(h, s, events[..|events| - 1]);
      if e.Arrives? {
        ReadonlyStep(h, Exec(h, s, events[..|events| - 1]), e.m, e.io);
      }
    }
  }

  // Handshake

  /** A hello of another version is answered by an error and ends the session. Otherwise the
      client's mode is taken over exactly if the session was bidirectional, the mode that
      holds is acknowledged, and the scan is announced. */
  lemma HelloNegotiates(h: Bytes -> Hash, s: Session, version: nat, asked: Option<string>, io: Io)
    requires s.open
    ensures var s' := Step(h, s, Hello(version, asked), io);
            var mode := if s.mode == "bidir" && asked.Some? then asked.value else s.mode;
            && (s'.open <==> version == 1)
            && (version == 1 ==> s' == s.(mode := mode, scanned := true, out := s.out + [HelloAck(mode), ScanReply]))
            && (version != 1 ==> s' == s.(open := false, out := s.out + [ErrorReply]))
  {
  }

  /** The other messages: a scan is answered once there was a hello and ends the session
      before; a download is answered once; completion ends the session; anything else is
      ignored. None touches a file. */
  lemma OtherMessages(h: Bytes -> Hash, s: Session, m: Message, io: Io)
    requires s.open
    ensures var s' := Step(h, s, m, io);
            && (m.RequestScan? ==> s' == if s.scanned then s.(out := s.out + [ScanReply]) else s.(open := false))
            && (m.GetFile? ==> s' == s.(out := s.out + [FileReply(m.path)]))
            && (m.SyncComplete? ==> s' == s.(open := false))
            && (m.Other? ==> s' == s)
  {
  }

  // Deletions

  /** A deletion is answered exactly once. It is good if and only if the session is not
      read-only, the path is safe, and the file is gone: its stat fails, or it is absent
      and no directory, or it is not newer than the deletion and the removal succeeds. The
      file is removed exactly if the answer is good and the stat did not fail; a stat that
      fails on a file that exists is taken for absence. */
  lemma OneDeleteAck(h: Bytes -> Hash, s: Session, p: Path, ts: nat, io: Io)
    requires s.open
    ensures var s' := Step(h, s, DeleteFile(p, ts), io);
            var gone := !io.statOk || (if p in s.files then s.files[p].mtime <= ts as real && io.removeOk
                                       else !io.directory);
            var ok := s.mode != "readonly" && SafePath(p) && gone;
            && s'.out == s.out + [DeleteAck(p, ok)]
            && s'.files == (if ok && io.statOk then s.files - {p} else s.files)
            && s' == s.(out := s'.out, files := s'.files)
  {
  }

  // Turning read-only with an upload under way

  /** The upload `i` after the data of some events. */
  function Extended(i: Incoming, events: seq<Event>): Incoming { Appended(i, Data(events)) }

  /** Still under way: no message has changed a file. */
  predicate UnderWay(s: Session, s0: Session, events: seq<Event>)
    requires s0.incoming.Some?
  {
    && s.incoming.Some? && s.files == Untouched(s0.files, events)
    && (s.open ==> s.incoming.value == Extended(s0.incoming.value, events))
  }

  /** Event `k` finished the upload, verified, and nothing else changed a file. */
  predicate FinishedAt(h: Bytes -> Hash, s: Session, s0: Session, events: seq<Event>, k: nat)
    requires s0.incoming.Some?
  {
    && k < |events| && events[k].Arrives? && events[k].m.PutDone?
    && var i := Extended(s0.incoming.value, events[..k]);
       && Verified(h, i, events[k].io)
       && s.files == Untouched(Untouched(s0.files, events[..k])[i.path := Stored(i.written, i.mtime)], events[k + 1..])
  }

  ghost predicate Over(h: Bytes -> Hash, s: Session, s0: Session, events: seq<Event>)
    requires s0.incoming.Some?
  {
    && s.incoming.None?
    && (s.files == Untouched(s0.files, events) || exists k: nat :: k < |events| && FinishedAt(h, s, s0, events, k))
  }

  lemma UntouchedSnoc(files: map<Path, Stored>, events: seq<Event>, e: Event)
    ensures Untouched(files, events + [e]) == if e.Outside? then e.files else Untouched(files, events)
  {
    assert (events + [e])[..|events|] == events;
  }

  lemma DataSnoc(events: seq<Event>, e: Event)
    ensures Data(events + [e]) == Data(events) + EventData(e)
  {
    assert (events + [e])[..|events|] == events;
  }

  lemma StillUnderWay(s: Session, s0: Session, events: seq<Event>, e: Event, s': Session)
    requires s0.incoming.Some? && UnderWay(s, s0, events)
    requires s'.incoming.Some? && s'.files == if e.Outside? then e.files else s.files
    requires s'.open ==> s.open && s'.incoming.value == Appended(s.incoming.value, EventData(e))
    ensures UnderWay(s', s0, events + [e])
  {
    UntouchedSnoc(s0.files, events, e);
    DataSnoc(events, e);
    AppendedTwice(s0.incoming.value, Data(events), EventData(e));
  }

  lemma FinishesNow(h: Bytes -> Hash, s: Session, s0: Session, events: seq<Event>, e: Event, s': Session)
    requires s0.incoming.Some? && UnderWay(s, s0, events) && s.open && Installs(h, s, e, s')
    ensures FinishedAt(h, s', s0, events + [e], |events|)
  {
    assert (events + [e])[..|events|] == events;
    assert (events + [e])[|events| + 1..] == [];
  }

  lemma StaysFinished(h: Bytes -> Hash, s: Session, s0: Session, events: seq<Event>, k: nat, e: Event, s': Session)
    requires s0.incoming.Some? && FinishedAt(h, s, s0, events, k)
    requires s'.files == if e.Outside? then e.files else s.files
    ensures FinishedAt(h, s', s0, events + [e], k)
  {
    assert (events + [e])[..k] == events[..k] && (events + [e])[k + 1..] == events[k + 1..] + [e];
    var i := Extended(s0.incoming.value, events[..k]);
    UntouchedSnoc(Untouched(s0.files, events[..k])[i.path := Stored(i.written, i.mtime)], events[k + 1..], e);
  }

  /** The event finished the upload, verified, and installed it. */
  predicate Installs(h: Bytes -> Hash, s: Session, e: Event, s': Session) {
    && s.incoming.Some? && e.Arrives? && e.m.PutDone? && Verified(h, s.incoming.value, e.io)
    && s'.files == s.files[s.incoming.value.path := Stored(s.incoming.value.written, s.incoming.value.mtime)]
  }

  /** The upload goes on with the event's data, or is over: refused or installed. */
  predicate LateChange(h: Bytes -> Hash, s: Session, e: Event, s': Session) {
    && s.incoming.Some?
    && if s'.incoming.Some? then
         && s'.files == (if e.Outside? then e.files else s.files)
         && (s'.open ==> s.open && s'.incoming.value == Appended(s.incoming.value, EventData(e)))
       else
         s.open && e.Arrives? && (s'.files == s.files || Installs(h, s, e, s'))
  }

  /** What one event can do to a read-only session with an upload under way. */
  lemma LateStep(h: Bytes -> Hash, s: Session, e: Event)
    requires s.mode == "readonly" && s.incoming.Some?
    ensures Next(h, s, e).mode == "readonly" && LateChange(h, s, e, Next(h, s, e))
  {
    AppendedTwice(s.incoming.value, [], []);
  }

  lemma LateStepUnderWay(h: Bytes -> Hash, s: Session, s0: Session, events: seq<Event>, e: Event, s': Session)
    requires s0.incoming.Some? && UnderWay(s, s0, events) && LateChange(h, s, e, s')
    ensures UnderWay(s', s0, events + [e]) || Over(h, s', s0, events + [e])
  {
    UntouchedSnoc(s0.files, events, e);
    if s'.incoming.Some? {
      StillUnderWay(s, s0, events, e, s');
    } else if s'.files != s.files {
      FinishesNow(h, s, s0, events, e, s');
    }
  }

  lemma LateStepOver(h: Bytes -> Hash, s: Session, s0: Session, events: seq<Event>, e: Event)
    requires s.mode == "readonly" && s0.incoming.Some? && Over(h, s, s0, events)
    ensures var s' := Next(h, s, e);
            s'.mode == "readonly" && Over(h, s', s0, events + [e])
  {
    var s' := Next(h, s, e);
    UntouchedSnoc(s0.files, events, e);
    if e.Arrives? {
      ReadonlyStep(h, s, e.m, e.io);
    }
    if s.files != Untouched(s0.files, events) {
      var k: nat :| k < |events| && FinishedAt(h, s, s0, events, k);
      StaysFinished(h, s, s0, events, k, e, s');
    }
  }

  /** Read-only with an upload under way: over every sequence of messages, file-system
      answers and outside changes, messages change at most the path of that upload, at
      most once, and only by finishing it, verified, with all data sent for it. */
  lemma {:induction false} LateReadonlyInstalls(h: Bytes -> Hash, s: Session, events: seq<Event>)
    requires s.mode == "readonly" && s.incoming.Some?
    ensures var s' := Exec(h, s, events);
            s'.mode == "readonly" && (UnderWay(s', s, events) || Over(h, s', s, events))
    decreases |events|
  {
    if events == [] {
      AppendedTwice(s.incoming.value, [], []);
    } else {
      var before, e := events[..|events| - 1], events[|events| - 1];
      LateReadonlyInstalls(h, s, before);
      assert before + [e] == events;
      var mid := Exec(h, s, before);
      if UnderWay(mid, s, before) {
        LateStep(h, mid, e);
        LateStepUnderWay(h, mid, s, before, e, Next(h, mid, e));
      } else {
        LateStepOver(h, mid, s, before, e);
      }
    }
  }

  /** Such an upload is installed if it verifies when it ends. */
  lemma LateUploadLands(h: Bytes -> Hash, s: Session, io: Io)
    requires s.open && s.mode == "bidir" && s.incoming.Some? && Verified(h, s.incoming.value, io)
    ensures var i, ro := s.incoming.value, Step(h, s, Hello(VERSION, Some("readonly")), io);
            ro.mode == "readonly" && Step(h, ro, PutDone, io).files == s.files[i.path := Stored(i.written, i.mtime)]
  {
  }

  // Acknowledgements

  function Acks(out: seq<Reply>): seq<Reply> {
    if out == [] then []
    else Acks(out[..|out| - 1]) + if out[|out| - 1].PutAck? then [out[|out| - 1]] else []
  }

  lemma AcksSay(s: Session, r: Reply)
    ensures Acks(Say(s, r).out) == Acks(s.out) + if r.PutAck? then [r] else []
  {
    assert (s.out + [r])[..|s.out|] == s.out;
  }

  /** One upload as the client sends it, with the file system's answers. */
  datatype Upload = Upload(path: Path, size: nat, hash: Hash, mtime: real, start: Io,
                           chunks: seq<(Bytes, Io)>, done: Io)

  function Chunks(h: Bytes -> Hash, s: Session, chunks: seq<(Bytes, Io)>): Session
    decreases |chunks|
  {
    if chunks == [] then s else Chunks(h, Step(h, s, Bin(chunks[0].0), chunks[0].1), chunks[1..])
  }

  function Uploading(h: Bytes -> Hash, s: Session, u: Upload): Session {
    var started := Step(h, s, PutStart(u.path, u.size, u.hash, u.mtime), u.start);
    Step(h, Chunks(h, started, u.chunks), PutDone, u.done)
  }

  /** The data of some chunks. */
  function ChunkData(chunks: seq<(Bytes, Io)>): Bytes {
    if chunks == [] then [] else chunks[0].0 + ChunkData(chunks[1..])
  }

  /** Between two messages of an upload begun in `s0`, with some data sent: still under
      way and not answered, or refused and over. No file has changed. */
  predicate Midway(s: Session, s0: Session, u: Upload, sent: Bytes) {
    && s.open && s.files == s0.files
    && if s.incoming.Some? then
         s.incoming.value.path == u.path && s.incoming.value.mtime == u.mtime && s.incoming.value.written == sent
         && Acks(s.out) == Acks(s0.out)
       else Acks(s.out) == Acks(s0.out) + [PutAck(u.path, false)]
  }

  lemma ChunkMidway(h: Bytes -> Hash, s: Session, s0: Session, u: Upload, sent: Bytes, data: Bytes, io: Io)
    requires Midway(s, s0, u, sent)
    ensures Midway(Step(h, s, Bin(data), io), s0, u, sent + data)
  {
    AcksSay(s, PutAck(u.path, false));
  }

  lemma {:induction false} ChunksMidway(h: Bytes -> Hash, s: Session, s0: Session, u: Upload, sent: Bytes,
                                        chunks: seq<(Bytes, Io)>)
    requires Midway(s, s0, u, sent)
    ensures Midway(Chunks(h, s, chunks), s0, u, sent + ChunkData(chunks))
    decreases |chunks|
  {
    if chunks == [] {
      assert sent + [] == sent;
    } else {
      var data := chunks[0].0;
      ChunkMidway(h, s, s0, u, sent, data, chunks[0].1);
      ChunksMidway(h, Step(h, s, Bin(data), chunks[0].1), s0, u, sent + data, chunks[1..]);
      assert sent + data + ChunkData(chunks[1..]) == sent + (data + ChunkData(chunks[1..]));
    }
  }

  /** The upload was answered once, and the answer is the truth about the files. */
  predicate Answered(s: Session, s0: Session, u: Upload, ok: bool) {
    && s.open && s.incoming.None?
    && Acks(s.out) == Acks(s0.out) + [PutAck(u.path, ok)]
    && s.files == if ok then s0.files[u.path := Stored(ChunkData(u.chunks), u.mtime)] else s0.files
  }

  predicate AllWritten(chunks: seq<(Bytes, Io)>) {
    chunks == [] || (chunks[0].1.writeOk && AllWritten(chunks[1..]))
  }

  /** The upload under way is the one that was started, with the data sent so far. */
  predicate Keeps(s: Session, u: Upload, sent: Bytes) {
    s.incoming.Some? ==>
      && s.incoming.value == Incoming(u.path, u.size, u.hash, u.mtime, sent, sent, |sent|)
      && |sent| <= u.size <= MAX_FILE_BYTES
  }

  lemma ChunkKeeps(h: Bytes -> Hash, s: Session, u: Upload, sent: Bytes, data: Bytes, io: Io)
    requires s.open && Keeps(s, u, sent)
    ensures var s' := Step(h, s, Bin(data), io);
            && Keeps(s', u, sent + data)
            && (s'.incoming.Some? <==> s.incoming.Some? && io.writeOk && |sent + data| <= u.size)
  {
  }

  /** An upload is under way to its end exactly if it was begun, every chunk could be
      written and the data never outgrew the declared size. */
  lemma {:induction false} ChunksKeep(h: Bytes -> Hash, s: Session, s0: Session, u: Upload, sent: Bytes,
                                      chunks: seq<(Bytes, Io)>)
    requires Midway(s, s0, u, sent) && Keeps(s, u, sent)
    ensures var s', all := Chunks(h, s, chunks), sent + ChunkData(chunks);
            && Keeps(s', u, all)
            && (s'.incoming.Some? <==> s.incoming.Some? && AllWritten(chunks) && |all| <= u.size)
    decreases |chunks|
  {
    if chunks == [] {
      assert sent + [] == sent;
    } else {
      var data := chunks[0].0;
      ChunkMidway(h, s, s0, u, sent, data, chunks[0].1);
      ChunkKeeps(h, s, u, sent, data, chunks[0].1);
      ChunksKeep(h, Step(h, s, Bin(data), chunks[0].1), s0, u, sent + data, chunks[1..]);
      assert sent + data + ChunkData(chunks[1..]) == sent + (data + ChunkData(chunks[1..]));
    }
  }

  /** The upload is let in, every write succeeds, the data has the declared size and (if
      one was declared) hash, and the file system lets it be installed. */
  predicate Lands(h: Bytes -> Hash, s: Session, u: Upload) {
    && s.mode != "readonly" && SafePath(u.path) && u.size <= 8589934592
    && !u.start.locked && u.start.dirOk && u.start.createOk
    && AllWritten(u.chunks)
    && |ChunkData(u.chunks)| == u.size
    && (u.hash == "" || h(ChunkData(u.chunks)) == u.hash)
    && u.done.flushOk && u.done.renameOk
  }

  lemma DoneAnswers(h: Bytes -> Hash, s: Session, s0: Session, u: Upload)
    requires Midway(s, s0, u, ChunkData(u.chunks))
    ensures Answered(Step(h, s, PutDone, u.done), s0, u, s.incoming.Some? && Verified(h, s.incoming.value, u.done))
  {
    if s.incoming.Some? {
      AcksSay(s, PutAck(u.path, Verified(h, s.incoming.value, u.done)));
    }
  }

  /** An upload is answered exactly once, wherever it is rejected or aborted, and leaves
      no upload under way. The answer is good, and the file then holds what the client
      sent, if and only if the upload `Lands`; otherwise nothing changed. */
  lemma OneAck(h: Bytes -> Hash, s: Session, u: Upload)
    requires s.open && s.incoming.None?
    ensures Answered(Uploading(h, s, u), s, u, Lands(h, s, u))
  {
    AcksSay(s, PutAck(u.path, false));
    var started := Step(h, s, PutStart(u.path, u.size, u.hash, u.mtime), u.start);
    ChunksMidway(h, started, s, u, [], u.chunks);
    ChunksKeep(h, started, s, u, [], u.chunks);
    assert [] + ChunkData(u.chunks) == ChunkData(u.chunks);
    DoneAnswers(h, Chunks(h, started, u.chunks), s, u);
  }

  /** What a client sends: uploads, and between them messages of other kinds that do
      not end the session. */
  datatype Request = Put(u: Upload) | Ask(m: Message, io: Io)

  predicate Polite(r: Request) {
    r.Ask? ==> r.m.GetFile? || r.m.DeleteFile? || r.m.Other?
  }

  function Serve(h: Bytes -> Hash, s: Session, rs: seq<Request>): Session
    decreases |rs|
  {
    if rs == [] then s
    else Serve(h, if rs[0].Put? then Uploading(h, s, rs[0].u) else Step(h, s, rs[0].m, rs[0].io), rs[1..])
  }

  function UploadPaths(rs: seq<Request>): seq<Path> {
    if rs == [] then [] else (if rs[0].Put? then [rs[0].u.path] else []) + UploadPaths(rs[1..])
  }

  lemma OtherRepliesNoAck(h: Bytes -> Hash, s: Session, r: Request)
    requires s.open && s.incoming.None? && r.Ask? && Polite(r)
    ensures var s' := Step(h, s, r.m, r.io);
            s'.open && s'.incoming.None? && Acks(s'.out) == Acks(s.out)
  {
    match r.m
    case GetFile(p) => AcksSay(s, FileReply(p));
    case DeleteFile(p, ts) => DeleteRepliesNoAck(s, p, ts, r.io);
    case Other =>
  }

  lemma DeleteRepliesNoAck(s: Session, p: Path, ts: nat, io: Io)
    ensures var s' := OnDelete(s, p, ts, io);
            s'.open == s.open && s'.incoming == s.incoming && Acks(s'.out) == Acks(s.out)
  {
    AcksSay(s, DeleteAck(p, true));
    AcksSay(s, DeleteAck(p, false));
  }

  ghost predicate AckFor(r: Reply, p: Path) { r.PutAck? && r.path == p }

  /** After the acknowledgements in `was` come one for each path, in order. */
  ghost predicate Match(acks: seq<Reply>, was: seq<Reply>, paths: seq<Path>) {
    && |acks| == |was| + |paths| && was <= acks
    && forall i :: 0 <= i < |paths| ==> AckFor(acks[|was| + i], paths[i])
  }

  lemma MatchOneMore(acks: seq<Reply>, was: seq<Reply>, r: Reply, p: Path, rest: seq<Path>)
    requires AckFor(r, p) && Match(acks, was + [r], rest)
    ensures Match(acks, was, [p] + rest)
  {
    assert acks[|was|] == (was + [r])[|was|];
    forall i | 0 <= i < |[p] + rest| ensures AckFor(acks[|was| + i], ([p] + rest)[i]) {
      if i > 0 {
        assert AckFor(acks[|was + [r]| + (i - 1)], rest[i - 1]);
      }
    }
  }

  /** The i-th acknowledgement belongs to the i-th upload, for every series of requests
      and whatever the file system answers. */
  lemma {:induction false} AcksMatchUploads(h: Bytes -> Hash, s: Session, rs: seq<Request>)
    requires s.open && s.incoming.None? && forall i :: 0 <= i < |rs| ==> Polite(rs[i])
    ensures Match(Acks(Serve(h, s, rs).out), Acks(s.out), UploadPaths(rs))
    decreases |rs|
  {
    if rs != [] {
      var acks := Acks(Serve(h, s, rs).out);
      if rs[0].Put? {
        PutMatches(h, s, rs[0].u, acks, UploadPaths(rs[1..])) by {
          OneAck(h, s, rs[0].u);
          AcksMatchUploads(h, Uploading(h, s, rs[0].u), rs[1..]);
        }
      } else {
        OtherRepliesNoAck(h, s, rs[0]);
        AcksMatchUploads(h, Step(h, s, rs[0].m, rs[0].io), rs[1..]);
        assert [] + UploadPaths(rs[1..]) == UploadPaths(rs[1..]);
      }
    }
  }

  lemma PutMatches(h: Bytes -> Hash, s: Session, u: Upload, acks: seq<Reply>, rest: seq<Path>)
    requires s.open && s.incoming.None? && Match(acks, Acks(Uploading(h, s, u).out), rest)
    ensures Match(acks, Acks(s.out), [u.path] + rest)
  {
    OneAck(h, s, u);
    MatchOneMore(acks, Acks(s.out), PutAck(u.path, Lands(h, s, u)), u.path, rest);
  }

  // The session itself

  class SyncSession {
    var open: bool
    var mode: string
    var scanned: bool
    var incoming: Option<Incoming>
    var files: map<Path, Stored>
    var out: seq<Reply>

    ghost function View(): Session
      reads this
    {
      Session(open, mode, scanned, incoming, files, out)
    }

    constructor (mode: string, files: map<Path, Stored>)
      ensures View() == Init(mode, files)
    {
      this.open := true;
      this.mode := mode;
      this.scanned := false;
      this.incoming := None;
      this.files := files;
      this.out := [];
    }

    method Send(r: Reply)
      modifies this`out
      ensures out == old(out) + [r]
    {
      out := out + [r];
    }

    method HandleHello(version: nat, asked: Option<string>)
      modifies this
      ensures View() == OnHello(old(View()), version, asked)
    {
      if version != VERSION {
        Send(ErrorReply);
        open := false;
        return;
      }
      if asked.Some? {
        if mode == "bidir" {
          mode := asked.value;
        }
      }
      Send(HelloAck(mode));
      scanned := true;
      Send(ScanReply);
    }

    method HandleDelete(p: Path, ts: nat, io: Io)
      modifies this
      ensures View() == OnDelete(old(View()), p, ts, io)
      ensures var gone := !io.statOk || (if p in old(files) then old(files)[p].mtime <= ts as real && io.removeOk
                                         else !io.directory);
              var ok := mode != "readonly" && SafePath(p) && gone;
              && out == old(out) + [DeleteAck(p, ok)]
              && files == if ok && io.statOk then old(files) - {p} else old(files)
    {
      if mode == "readonly" || !SafePath(p) {
        Send(DeleteAck(p, false));
        return;
      }
      if !io.statOk || (p !in files && !io.directory) {
        Send(DeleteAck(p, true));
        return;
      }
      if p !in files || files[p].mtime > ts as real {
        Send(DeleteAck(p, false));
        return;
      }
      if io.removeOk {
        files := files - {p};
      }
      Send(DeleteAck(p, io.removeOk));
    }

    /** Each reason to refuse has its own answer; none opens an upload. */
    method HandlePutStart(p: Path, size: nat, hash: Hash, mtime: real, io: Io)
      modifies this
      ensures View() == OnPutStart(old(View()), p, size, hash, mtime, io)
    {
      if mode == "readonly" {
        Send(PutAck(p, false));
        return;
      }
      if !SafePath(p) || io.locked {
        Send(PutAck(p, false));
        return;
      }
      if !io.dirOk || size > MAX_FILE_BYTES {
        Send(PutAck(p, false));
        return;
      }
      if io.createOk {
        incoming := Some(Incoming(p, size, hash, mtime, [], [], 0));
      } else {
        Send(PutAck(p, false));
      }
    }

    method HandlePutDone(h: Bytes -> Hash, io: Io)
      modifies this
      ensures View() == OnPutDone(h, old(View()), io)
    {
      if incoming.None? {
        return;
      }
      var inc := incoming.value;
      incoming := None;
      var ok := inc.received == inc.size;
      if ok && inc.hash != "" && h(inc.hashed) != inc.hash {
        ok := false;
      }
      if !io.flushOk {
        ok := false;
      }
      if ok && !SafePath(inc.path) {
        Send(PutAck(inc.path, false));
        return;
      }
      if ok {
        if io.renameOk {
          files := files[inc.path := Stored(inc.written, inc.mtime)];
        } else {
          ok := false;
        }
      }
      Send(PutAck(inc.path, ok));
    }

    method HandleBin(data: Bytes, io: Io)
      modifies this
      ensures View() == OnBin(old(View()), data, io)
    {
      var failed := false;
      if incoming.Some? {
        var inc := incoming.value;
        inc := inc.(received := inc.received + |data|);
        if inc.received > MAX_FILE_BYTES || !io.writeOk {
          failed := true;
        } else {
          inc := inc.(written := inc.written + data, hashed := inc.hashed + data);
          failed := inc.received > inc.size;
        }
        if failed {
          incoming := None;
          Send(PutAck(inc.path, false));
        } else {
          incoming := Some(inc);
        }
      }
    }

    method Handle(h: Bytes -> Hash, m: Message, io: Io)
      requires open
      modifies this
      ensures View() == Step(h, old(View()), m, io)
    {
      match m
      case Hello(version, asked) => HandleHello(version, asked);
      case RequestScan => if scanned { Send(ScanReply); } else { open := false; }
      case GetFile(p) => Send(FileReply(p));
      case DeleteFile(p, ts) => HandleDelete(p, ts, io);
      case PutStart(p, size, hash, mtime) => HandlePutStart(p, size, hash, mtime, io);
      case PutDone => HandlePutDone(h, io);
      case SyncComplete => open := false;
      case Other =>
      case Bin(data) => HandleBin(data, io);
    }

    /** The message loop over one batch; it leaves the loop when the session ends. */
    method HandleBatch(h: Bytes -> Hash, batch: seq<(Message, Io)>)
      modifies this
      ensures View() == Exec(h, old(View()), Arrivals(batch))
    {
      var k := 0;
      while k < |batch| && open
        invariant 0 <= k <= |batch|
        invariant View() == Exec(h, old(View()), Arrivals(batch[..k]))
      {
        ArrivalsSnoc(batch, k);
        Handle(h, batch[k].0, batch[k].1);
        k := k + 1;
      }
      if k < |batch| {
        ClosedStays(h, old(View()), batch, k);
      } else {
        assert batch[..k] == batch;
      }
    }
  }

  function Arrivals(batch: seq<(Message, Io)>): seq<Event> {
    seq(|batch|, i requires 0 <= i < |batch| => Arrives(batch[i].0, batch[i].1))
  }

  lemma ArrivalsSnoc(batch: seq<(Message, Io)>, k: nat)
    requires k < |batch|
    ensures var a := Arrivals(batch[..k + 1]);
            |a| == k + 1 && a[..k] == Arrivals(batch[..k]) && a[k] == Arrives(batch[k].0, batch[k].1)
  {
  }

  lemma {:induction false} ClosedStays(h: Bytes -> Hash, s: Session, batch: seq<(Message, Io)>, k: nat)
    requires k <= |batch| && !Exec(h, s, Arrivals(batch[..k])).open
    ensures Exec(h, s, Arrivals(batch)) == Exec(h, s, Arrivals(batch[..k]))
    decreases |batch| - k
  {
    if k == |batch| {
      assert batch[..k] == batch;
    } else {
      ArrivalsSnoc(batch, k);
      ClosedStays(h, s, batch, k + 1);
    }
  }
}
