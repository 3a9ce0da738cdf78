/**
 The hash cache of the directory scanner: a file whose size and modification time are
 those of its last hashing is not read again. Scans and edits interleave freely; a scan
 takes the stat of each file and hashes it later.
 */
module Scanner {

  import opened Files
  import opened Options

  type Content = seq<int>

  datatype CacheEntry = CacheEntry(stat: Stat, hash: Hash)
  type Cache = map<Path, CacheEntry>

  predicate Trusted(s: Stat) { s.mtime > 0.0 }

  /** `cache_hit`. */
  predicate CacheHit(c: CacheEntry, s: Stat) { Trusted(s) && c.stat == s }

  predicate Hits(cache: Cache, path: Path, s: Stat) { path in cache && CacheHit(cache[path], s) }

  /** The hash a scan reports, given what reading the file would yield. */
  function HashOne(cache: Cache, path: Path, s: Stat, read: Option<Hash>): Option<Hash> {
    if Hits(cache, path, s) then Some(cache[path].hash) else read
  }

  datatype File = File(stat: Stat, content: Content, readable: bool)

  /** One file of the scan in progress: the stat taken, the content at that moment, and
      once hashed the outcome, what reading the file yielded and whether the file still
      had that stat. Only `stat` and `hash` exist in the program. */
  datatype Item = Item(stat: Stat, seen: Content, hashed: bool, hash: Option<Hash>, read: Option<Hash>, calm: bool)

  /** `past` holds every stat a path has ever had. */
  datatype World = World(files: map<Path, File>, past: map<Path, set<Stat>>, cache: Cache, scan: map<Path, Item>)

  datatype Action =
    | Edit(p: Path, file: File)
    | Remove(p: Path)
    | TakeStat(p: Path)
    | HashFile(p: Path, bytes: Content)
    | Finish

  function Past(w: World, p: Path): set<Stat> { if p in w.past then w.past[p] else {} }

  /** A change gives the file a stat it never had, unless its stat is not trusted
      anyway. A file that changes while it is being read may yield any bytes. */
  predicate Enabled(w: World, a: Action) {
    match a
    case Edit(p, f) =>
      || !Trusted(f.stat)
      || f.stat !in Past(w, p)
      || (p in w.files && w.files[p].stat == f.stat && w.files[p].content == f.content)
    case Remove(p) => p in w.files
    case TakeStat(p) => p in w.files && p !in w.scan
    case HashFile(p, bytes) =>
      && p in w.scan && !w.scan[p].hashed
      && (p in w.files && w.files[p].stat == w.scan[p].stat ==> bytes == w.files[p].content)
    case Finish => forall p :: p in w.scan ==> w.scan[p].hashed
  }

  function Reading(h: Content -> Hash, w: World, p: Path, bytes: Content): Option<Hash> {
    if p in w.files && w.files[p].readable then Some(h(bytes)) else None
  }

  /** The cache a finished scan leaves: hashed files only. */
  function Refreshed(scan: map<Path, Item>): Cache {
    map p | p in scan && scan[p].hash.Some? :: CacheEntry(scan[p].stat, scan[p].hash.value)
  }

  function Hashing(h: Content -> Hash, w: World, p: Path, bytes: Content): Item
    requires p in w.scan
  {
    var i := w.scan[p];
    var read := Reading(h, w, p, bytes);
    i.(hashed := true, hash := HashOne(w.cache, p, i.stat, read), read := read,
       calm := p in w.files && w.files[p].stat == i.stat)
  }

  function Next(h: Content -> Hash, w: World, a: Action): World
    requires Enabled(w, a)
  {
    match a
    case Edit(p, f) => w.(files := w.files[p := f], past := w.past[p := Past(w, p) + {f.stat}])
    case Remove(p) => w.(files := w.files - {p})
    case TakeStat(p) =>
      w.(scan := w.scan[p := Item(w.files[p].stat, w.files[p].content, false, None, None, false)])
    case HashFile(p, bytes) => w.(scan := w.scan[p := Hashing(h, w, p, bytes)])
    case Finish => w.(cache := Refreshed(w.scan), scan := map[])
  }

  predicate Runs(h: Content -> Hash, w: World, actions: seq<Action>)
    decreases |actions|
  {
    actions == [] || (Enabled(w, actions[0]) && Runs(h, Next(h, w, actions[0]), actions[1..]))
  }

  function Exec(h: Content -> Hash, w: World, actions: seq<Action>): World
    requires Runs(h, w, actions)
    decreases |actions|
  {
    if actions == [] then w else Exec(h, Next(h, w, actions[0]), actions[1..])
  }

  /** A stat and a hash that go together for as long as the file keeps the stat. */
  predicate Describes(h: Content -> Hash, w: World, p: Path, s: Stat, hash: Hash) {
    Trusted(s) ==> s in Past(w, p) && (p in w.files && w.files[p].stat == s ==> hash == h(w.files[p].content))
  }

  /** A file's own stat is among those it has had. */
  predicate PastOk(w: World) { forall p :: p in w.files ==> w.files[p].stat in Past(w, p) }

  predicate CacheOk(h: Content -> Hash, w: World) {
    forall p :: p in w.cache ==> Describes(h, w, p, w.cache[p].stat, w.cache[p].hash)
  }

  /** Of a file in the scan: a cache hit, now or at hashing, is the hash of what the
      file held when its stat was taken. */
  predicate ItemOk(h: Content -> Hash, w: World, p: Path, i: Item) {
    && (Trusted(i.stat) ==> i.stat in Past(w, p))
    && (p in w.files && w.files[p].stat == i.stat && Trusted(i.stat) ==> i.seen == w.files[p].content)
    && (Hits(w.cache, p, i.stat) ==> w.cache[p].hash == h(i.seen))
    && (i.hashed && i.hash.Some? ==> Describes(h, w, p, i.stat, i.hash.value))
    && (i.hashed ==> i.hash == HashOne(w.cache, p, i.stat, i.read))
    && (i.hashed && i.calm && Trusted(i.stat) && i.read.Some? ==> i.read.value == h(i.seen))
  }

  predicate ScanOk(h: Content -> Hash, w: World) {
    forall p :: p in w.scan ==> ItemOk(h, w, p, w.scan[p])
  }

  predicate Inv(h: Content -> Hash, w: World) { PastOk(w) && CacheOk(h, w) && ScanOk(h, w) }

  lemma EditKeepsInv(h: Content -> Hash, w: World, p: Path, f: File)
    requires Inv(h, w) && Enabled(w, Edit(p, f))
    ensures Inv(h, Next(h, w, Edit(p, f)))
  {
    var w' := Next(h, w, Edit(p, f));
    forall q | q in w'.cache ensures Describes(h, w', q, w'.cache[q].stat, w'.cache[q].hash) {
      assert Describes(h, w, q, w.cache[q].stat, w.cache[q].hash);
    }
    forall q | q in w'.scan ensures ItemOk(h, w', q, w'.scan[q]) {
      assert ItemOk(h, w, q, w.scan[q]);
    }
  }

  lemma HashingKeepsInv(h: Content -> Hash, w: World, p: Path, bytes: Content)
    requires Inv(h, w) && Enabled(w, HashFile(p, bytes))
    ensures Inv(h, Next(h, w, HashFile(p, bytes)))
  {
    var w' := Next(h, w, HashFile(p, bytes));
    assert ItemOk(h, w, p, w.scan[p]);
    assert ItemOk(h, w', p, w'.scan[p]);
    forall q | q in w'.scan ensures ItemOk(h, w', q, w'.scan[q]) {
      assert q != p ==> ItemOk(h, w, q, w.scan[q]);
    }
    forall q | q in w'.cache ensures Describes(h, w', q, w'.cache[q].stat, w'.cache[q].hash) {
      assert Describes(h, w, q, w.cache[q].stat, w.cache[q].hash);
    }
  }

  lemma FinishKeepsInv(h: Content -> Hash, w: World)
    requires Inv(h, w) && Enabled(w, Finish)
    ensures Inv(h, Next(h, w, Finish))
  {
    var w' := Next(h, w, Finish);
    forall q | q in w'.cache ensures Describes(h, w', q, w'.cache[q].stat, w'.cache[q].hash) {
      assert ItemOk(h, w, q, w.scan[q]);
      assert Describes(h, w, q, w.scan[q].stat, w.scan[q].hash.value);
    }
  }

  lemma OtherKeepsInv(h: Content -> Hash, w: World, a: Action)
    requires Inv(h, w) && Enabled(w, a) && (a.Remove? || a.TakeStat?)
    ensures Inv(h, Next(h, w, a))
  {
    var w' := Next(h, w, a);
    forall q | q in w'.cache ensures Describes(h, w', q, w'.cache[q].stat, w'.cache[q].hash) {
      assert Describes(h, w, q, w.cache[q].stat, w.cache[q].hash);
    }
    forall q | q in w'.scan ensures ItemOk(h, w', q, w'.scan[q]) {
      if q in w.scan {
        assert ItemOk(h, w, q, w.scan[q]);
      }
    }
  }

  lemma StepKeepsInv(h: Content -> Hash, w: World, a: Action)
    requires Inv(h, w) && Enabled(w, a)
    ensures Inv(h, Next(h, w, a))
  {
    match a
    case Edit(p, f) => EditKeepsInv(h, w, p, f);
    case HashFile(p, bytes) => HashingKeepsInv(h, w, p, bytes);
    case Finish => FinishKeepsInv(h, w);
    case _ => OtherKeepsInv(h, w, a);
  }

  lemma {:induction false} RunKeepsInv(h: Content -> Hash, w: World, actions: seq<Action>)
    requires Inv(h, w) && Runs(h, w, actions)
    ensures Inv(h, Exec(h, w, actions))
    decreases |actions|
  {
    if actions != [] {
      StepKeepsInv(h, w, actions[0]);
      RunKeepsInv(h, Next(h, w, actions[0]), actions[1..]);
    }
  }

  /** Before the first scan: any files, no cache. */
  predicate Init(w: World) { PastOk(w) && w.cache == map[] && w.scan == map[] }

  /** The cache agrees with full hashing. After any run of scans and edits, each file
      hashed by the scan in progress is reported with the hash of what it held when its
      stat was taken or with what an uncached scan would have reported at that moment;
      the two are one when the file did not change in between and could be read. */
  lemma CacheAgrees(h: Content -> Hash, w: World, actions: seq<Action>, p: Path)
    requires Init(w) && Runs(h, w, actions)
    requires p in Exec(h, w, actions).scan && Exec(h, w, actions).scan[p].hashed
    ensures var i := Exec(h, w, actions).scan[p];
            && (i.hash == Some(h(i.seen)) || i.hash == i.read)
            && (i.calm && i.read.Some? ==> i.hash == i.read)
            && (i.calm && i.read.Some? && i.stat.mtime > 0.0 ==> i.hash == Some(h(i.seen)))
            && (i.stat.mtime <= 0.0 ==> i.hash == i.read)
  {
    RunKeepsInv(h, w, actions);
    assert ItemOk(h, Exec(h, w, actions), p, Exec(h, w, actions).scan[p]);
  }

  /** What the next hashing step of any reachable scan reports, read off the state: for
      a readable file whose trusted stat still holds, the hash of its content. */
  lemma ReportsCurrentContent(h: Content -> Hash, w: World, actions: seq<Action>, p: Path, bytes: Content)
    requires Init(w) && Runs(h, w, actions) && Enabled(Exec(h, w, actions), HashFile(p, bytes))
    requires var e := Exec(h, w, actions); p in e.files && e.files[p].readable && e.files[p].stat == e.scan[p].stat
    ensures var e := Exec(h, w, actions);
            Next(h, e, HashFile(p, bytes)).scan[p].hash == Some(h(e.files[p].content))
  {
    RunKeepsInv(h, w, actions);
    var e := Exec(h, w, actions);
    assert ItemOk(h, e, p, e.scan[p]);
  }

  /** What the cache is for: a file hashed by one scan is not read by the next one as long
      as its stat is the same; it is reported with the same hash even if it cannot be read,
      whatever reading would yield. */
  lemma SecondScanNeedsNoReading(h: Content -> Hash, w: World, w2: World, p: Path, bytes: Content)
    requires Enabled(w, Finish) && p in w.scan && w.scan[p].hash.Some? && w.scan[p].stat.mtime > 0.0
    requires w2.cache == Next(h, w, Finish).cache && p in w2.files && w2.files[p].stat == w.scan[p].stat
    requires Enabled(w2, TakeStat(p)) && Enabled(Next(h, w2, TakeStat(p)), HashFile(p, bytes))
    ensures Next(h, Next(h, w2, TakeStat(p)), HashFile(p, bytes)).scan[p].hash == w.scan[p].hash
  {
    var w3 := Next(h, w2, TakeStat(p));
    assert Hits(w3.cache, p, w3.scan[p].stat);
  }

  /** Why a change must bring a new stat: if an edit restores the size and time the
      cache holds, the old hash is reported. */
  lemma RestoredStatIsStale(h: Content -> Hash, w: World, p: Path, s: Stat, was: Content, cur: Content)
    requires s.mtime > 0.0 && h(was) != h(cur)
    requires p in w.files && w.files[p] == File(s, cur, true)
    requires w.cache == map[p := CacheEntry(s, h(was))] && w.scan == map[]
    ensures Enabled(w, TakeStat(p)) && Enabled(Next(h, w, TakeStat(p)), HashFile(p, cur))
    ensures var i := Next(h, Next(h, w, TakeStat(p)), HashFile(p, cur)).scan[p];
            i.calm && i.read == Some(h(cur)) && i.hash == Some(h(was))
  {
    var w1 := Next(h, w, TakeStat(p));
    assert Hits(w1.cache, p, w1.scan[p].stat);
  }

  // The hashing loops of one scan. `read` is what hashing each file yields.

  function Reported(f: FileEntry, cache: Cache, read: Path -> Option<Hash>): FileEntry {
    f.(hash := HashOne(cache, f.path, f.stat, read(f.path)))
  }

  function ReportedAll(files: seq<FileEntry>, cache: Cache, read: Path -> Option<Hash>): seq<FileEntry> {
    seq(|files|, i requires 0 <= i < |files| => Reported(files[i], cache, read))
  }

  /** The cache lines a worker is handed. */
  method Subset(chunk: seq<FileEntry>, cache: Cache) returns (r: Cache)
    ensures forall i :: 0 <= i < |chunk| ==>
              (chunk[i].path in r <==> chunk[i].path in cache)
              && (chunk[i].path in r ==> r[chunk[i].path] == cache[chunk[i].path])
  {
    r := map[];
    for k := 0 to |chunk|
      invariant forall p :: p in r ==> p in cache && r[p] == cache[p]
      invariant forall i :: 0 <= i < k && chunk[i].path in cache ==> chunk[i].path in r
    {
      if chunk[k].path in cache {
        r := r[chunk[k].path := cache[chunk[k].path]];
      }
    }
  }

  /** One worker. */
  method Worker(chunk: seq<FileEntry>, cache: Cache, read: Path -> Option<Hash>) returns (r: seq<FileEntry>)
    ensures r == ReportedAll(chunk, cache, read)
  {
    r := [];
    for k := 0 to |chunk|
      invariant r == ReportedAll(chunk, cache, read)[..k]
    {
      var f := chunk[k];
      if f.path in cache && CacheHit(cache[f.path], f.stat) {
        r := r + [f.(hash := Some(cache[f.path].hash))];
      } else {
        r := r + [f.(hash := read(f.path))];
      }
    }
  }

  lemma SubsetSuffices(chunk: seq<FileEntry>, cache: Cache, subset: Cache, read: Path -> Option<Hash>)
    requires forall i :: 0 <= i < |chunk| ==>
               (chunk[i].path in subset <==> chunk[i].path in cache)
               && (chunk[i].path in subset ==> subset[chunk[i].path] == cache[chunk[i].path])
    ensures ReportedAll(chunk, subset, read) == ReportedAll(chunk, cache, read)
  {
  }

  lemma ReportedPart(files: seq<FileEntry>, cache: Cache, read: Path -> Option<Hash>, start: nat, end: nat)
    requires start <= end <= |files|
    ensures var all := ReportedAll(files, cache, read);
            all[..start] + ReportedAll(files[start..end], cache, read) == all[..end]
  {
  }

  /** A cache holding exactly the hashed entries of a list with distinct paths. */
  ghost predicate CacheOf(result: seq<FileEntry>, c: Cache) {
    && (forall p :: p in c ==> FileEntry(p, c[p].stat, Some(c[p].hash)) in result)
    && (forall f :: f in result && f.hash.Some? ==> f.path in c)
  }

  /** `scan_and_hash` from the sorted file list on: cutting the list among workers that
      see only their own cache lines reports what one worker with the whole cache
      would, in order, for every degree of concurrency. (With no files and no workers
      the program's own arithmetic underflows.) */
  method ScanAndHash(files: seq<FileEntry>, cache: Cache, concurrency: nat, read: Path -> Option<Hash>)
    returns (result: seq<FileEntry>, lines: Cache)
    requires |files| + concurrency > 0
    ensures result == ReportedAll(files, cache, read)
    ensures CacheOf(result, lines)
  {
    var per := (|files| + concurrency - 1) / if concurrency == 0 then 1 else concurrency;
    result := [];
    var start := 0;
    while start < |files|
      invariant 0 <= start <= |files|
      invariant result == ReportedAll(files, cache, read)[..start]
      decreases |files| - start
    {
      var end := if per == 0 || start + per > |files| then |files| else start + per;
      var chunk := files[start..end];
      var subset := Subset(chunk, cache);
      var part := Worker(chunk, subset, read);
      SubsetSuffices(chunk, cache, subset, read);
      ReportedPart(files, cache, read, start, end);
      result := result + part;
      start := end;
    }
    lines := Relines(result);
  }

  /** The cache written back: the last line for each hashed path, nothing else. */
  method Relines(result: seq<FileEntry>) returns (lines: Cache)
    ensures CacheOf(result, lines)
  {
    lines := map[];
    for k := 0 to |result|
      invariant CacheOf(result[..k], lines)
    {
      var f := result[k];
      if f.hash.Some? {
        lines := lines[f.path := CacheEntry(f.stat, f.hash.value)];
      }
      assert result[..k + 1] == result[..k] + [f];
    }
  }
}
