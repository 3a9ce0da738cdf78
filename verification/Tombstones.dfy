/**
 The tombstone queue and store of the sync tool: watchers queue deletions in memory,
 one flusher at a time moves the queue to the store on disk, and other code records
 deletions in the store directly. Every interleaving is a list of actions; each action
 is what happens under one of the two locks.
 */
module Tombstones {
  import opened Files
  import opened Options

  type Stamps = map<Path, nat>

  const MAX_AGE: nat := 30 * 24 * 60 * 60 * 1000

  function Cutoff(now: nat): nat { if now < MAX_AGE then 0 else now - MAX_AGE }

  predicate Expired(t: nat, now: nat) { t <= Cutoff(now) }

  /** A stamp lasts 30 days; a stamp of 0 never counts. */
  lemma KeptIff(t: nat, now: nat)
    ensures !Expired(t, now) <==> t > 0 && t + 2592000000 > now
  {
  }

  function Pruned(m: Stamps, now: nat): Stamps {
    map p | p in m && !Expired(m[p], now) :: m[p]
  }

  function Recorded(store: Stamps, entries: Stamps, now: nat): Stamps { Pruned(store + entries, now) }

  function Queued(pending: Stamps, p: Path, now: nat): Stamps {
    if p in pending then pending else pending[p := now]
  }

  /** `hands` is what a flush in progress has taken and not yet recorded. */
  datatype State = State(pending: Stamps, hands: Stamps, flushing: bool, store: Stamps, now: nat)

  datatype Action =
    | Queue(p: Path)
    | Take
    | Merge
    | Record(entries: Stamps)
    | Tick(ms: nat)

  predicate Enabled(s: State, a: Action) {
    match a
    case Take => !s.flushing && s.pending != map[]
    case Merge => s.flushing
    case _ => true
  }

  function Next(s: State, a: Action): State {
    match a
    case Queue(p) => s.(pending := Queued(s.pending, p, s.now))
    case Take => s.(pending := map[], hands := s.pending, flushing := true)
    case Merge => s.(hands := map[], flushing := false, store := Recorded(s.store, s.hands, s.now))
    case Record(entries) => s.(store := Recorded(s.store, entries, s.now))
    case Tick(ms) => s.(now := s.now + ms)
  }

  predicate Runs(s: State, actions: seq<Action>)
    decreases |actions|
  {
    actions == [] || (Enabled(s, actions[0]) && Runs(Next(s, actions[0]), actions[1..]))
  }

  function Exec(s: State, actions: seq<Action>): State
    decreases |actions|
  {
    if actions == [] then s else Exec(Next(s, actions[0]), actions[1..])
  }

  /** Nothing is held between flushes. */
  predicate Idle(s: State) { !s.flushing ==> s.hands == map[] }

  predicate AtLeast(m: Stamps, p: Path, t: nat) { p in m ==> m[p] >= t }

  /** How far a deletion of `p` at time `t` or later has come. */
  predicate InQueue(s: State, p: Path) { p in s.pending }

  predicate InHands(s: State, p: Path, t: nat) { p in s.hands && s.hands[p] >= t }

  predicate InStore(s: State, p: Path, t: nat) {
    AtLeast(s.hands, p, t) && p in s.store && s.store[p] >= t
  }

  /** No later stamp for `p` will be older than `t`. */
  predicate Fresh(s: State, p: Path, t: nat) { Idle(s) && t <= s.now && AtLeast(s.pending, p, t) }

  predicate Safe(s: State, p: Path, t: nat) {
    Fresh(s, p, t) && (Expired(t, s.now) || InQueue(s, p) || InHands(s, p, t) || InStore(s, p, t))
  }

  predicate Taken(s: State, p: Path, t: nat) {
    Fresh(s, p, t) && (Expired(t, s.now) || InHands(s, p, t) || InStore(s, p, t))
  }

  predicate Stored(s: State, p: Path, t: nat) {
    Fresh(s, p, t) && (Expired(t, s.now) || InStore(s, p, t))
  }

  /** Deletions recorded directly do not put an older stamp on `p`. */
  predicate Respects(a: Action, p: Path, t: nat) { a.Record? ==> AtLeast(a.entries, p, t) }

  lemma RecordedAt(store: Stamps, entries: Stamps, now: nat, p: Path)
    ensures p in Recorded(store, entries, now) <==>
              if p in entries then entries[p] > 0 && entries[p] + 2592000000 > now
              else p in store && store[p] > 0 && store[p] + 2592000000 > now
    ensures p in Recorded(store, entries, now) ==>
              Recorded(store, entries, now)[p] == if p in entries then entries[p] else store[p]
  {
  }

  /** The store after some calls of `record_with`, if there are any, that put these
      entries on record at one time. */
  function Recording(store: Stamps, entries: Stamps, now: nat): Stamps {
    if entries == map[] then store else Recorded(store, entries, now)
  }

  /** One call after the other is one call for all. */
  lemma RecordOneMore(store: Stamps, entries: Stamps, p: Path, t: nat, now: nat)
    ensures Recorded(Recording(store, entries, now), map[p := t], now) == Recording(store, entries[p := t], now)
  {
    assert p in entries[p := t];
    if entries == map[] {
      assert entries[p := t] == map[p := t];
    } else {
      var a, b := Recorded(Recorded(store, entries, now), map[p := t], now), Recorded(store, entries[p := t], now);
      forall q ensures At(a, q) == At(b, q) {
        RecordedAt(store, entries, now, q);
        RecordedAt(Recorded(store, entries, now), map[p := t], now, q);
        RecordedAt(store, entries[p := t], now, q);
      }
      SameMap(a, b);
    }
  }

  lemma SafeStep(s: State, a: Action, p: Path, t: nat)
    requires Enabled(s, a) && Respects(a, p, t) && Safe(s, p, t)
    ensures Safe(Next(s, a), p, t)
  {
    match a
    case Merge => RecordedAt(s.store, s.hands, s.now, p);
    case Record(entries) => RecordedAt(s.store, entries, s.now, p);
    case _ =>
  }

  lemma TakenStep(s: State, a: Action, p: Path, t: nat)
    requires Enabled(s, a) && Respects(a, p, t) && Taken(s, p, t)
    ensures Taken(Next(s, a), p, t)
    ensures a.Merge? ==> Stored(Next(s, a), p, t)
  {
    match a
    case Merge => RecordedAt(s.store, s.hands, s.now, p);
    case Record(entries) => RecordedAt(s.store, entries, s.now, p);
    case _ =>
  }

  lemma StoredStep(s: State, a: Action, p: Path, t: nat)
    requires Enabled(s, a) && Respects(a, p, t) && Stored(s, p, t)
    ensures Stored(Next(s, a), p, t)
  {
    match a
    case Merge => RecordedAt(s.store, s.hands, s.now, p);
    case Record(entries) => RecordedAt(s.store, entries, s.now, p);
    case _ =>
  }

  predicate AllRespect(actions: seq<Action>, p: Path, t: nat) {
    forall i :: 0 <= i < |actions| ==> Respects(actions[i], p, t)
  }

  /** Queueing makes a deletion safe from the stamp it got; a path queued twice before
      a flush keeps its first stamp. */
  lemma QueueIsSafe(s: State, p: Path)
    requires Idle(s) && (p in s.pending ==> s.pending[p] <= s.now)
    ensures var t := if p in s.pending then s.pending[p] else s.now;
            Safe(Next(s, Queue(p)), p, t) && Next(s, Queue(p)).pending[p] == t
  {
  }

  /** The oldest stamp that `t` and the deletions recorded directly put on `p`. */
  function Oldest(actions: seq<Action>, p: Path, t: nat): (r: nat)
    ensures r <= t
  {
    if actions == [] then t
    else
      var r := Oldest(actions[1..], p, t);
      if actions[0].Record? && p in actions[0].entries && actions[0].entries[p] < r then actions[0].entries[p] else r
  }

  lemma {:induction false} OldestIsRespected(actions: seq<Action>, p: Path, t: nat, r: nat)
    requires r <= Oldest(actions, p, t)
    ensures AllRespect(actions, p, r)
    decreases |actions|
  {
    if actions != [] {
      OldestIsRespected(actions[1..], p, t, r);
      forall i | 0 <= i < |actions| ensures Respects(actions[i], p, r) {
        assert i > 0 ==> actions[i] == actions[1..][i - 1];
      }
    }
  }

  lemma {:induction false} SafeRun(s: State, actions: seq<Action>, p: Path, t: nat)
    requires Safe(s, p, t) && Runs(s, actions) && AllRespect(actions, p, t)
    ensures Safe(Exec(s, actions), p, t)
    decreases |actions|
  {
    if actions != [] {
      assert Respects(actions[0], p, t);
      SafeStep(s, actions[0], p, t);
      SafeRun(Next(s, actions[0]), actions[1..], p, t);
    }
  }

  /** No queued deletion is lost: whatever watchers, flusher, clock and other writers
      do, a deletion is in the queue, in the flusher's hands or in the store, with a
      stamp no older than its own and those recorded directly for the path since, until
      the oldest of these is past the maximal age. */
  lemma NoDeletionLost(s: State, actions: seq<Action>, p: Path, t: nat)
    requires Safe(s, p, t) && Runs(s, actions)
    ensures var e, r := Exec(s, actions), Oldest(actions, p, t);
            r > 0 && r + 2592000000 > e.now ==>
              || (p in e.pending && e.pending[p] >= r)
              || (p in e.hands && e.hands[p] >= r)
              || (p in e.store && e.store[p] >= r)
  {
    var r := Oldest(actions, p, t);
    OldestIsRespected(actions, p, t, r);
    assert Safe(s, p, r);
    SafeRun(s, actions, p, r);
  }

  lemma {:induction false} StaysStored(s: State, actions: seq<Action>, p: Path, t: nat)
    requires Stored(s, p, t) && Runs(s, actions) && AllRespect(actions, p, t)
    ensures Stored(Exec(s, actions), p, t)
    decreases |actions|
  {
    if actions != [] {
      assert Respects(actions[0], p, t);
      StoredStep(s, actions[0], p, t);
      StaysStored(Next(s, actions[0]), actions[1..], p, t);
    }
  }

  predicate Merges(actions: seq<Action>) { exists i :: 0 <= i < |actions| && actions[i].Merge? }

  lemma {:induction false} TakenThenMerged(s: State, actions: seq<Action>, p: Path, t: nat)
    requires Taken(s, p, t) && Runs(s, actions) && AllRespect(actions, p, t)
    requires Merges(actions)
    ensures Stored(Exec(s, actions), p, t)
    decreases |actions|
  {
    assert Respects(actions[0], p, t);
    TakenStep(s, actions[0], p, t);
    if actions[0].Merge? {
      StaysStored(Next(s, actions[0]), actions[1..], p, t);
    } else {
      var i :| 0 <= i < |actions| && actions[i].Merge?;
      assert actions[1..][i - 1] == actions[i];
      TakenThenMerged(Next(s, actions[0]), actions[1..], p, t);
    }
  }

  /** A load after a flush sees every deletion queued before the flush began, whatever
      happened in between and since. A flush that finds nothing queued is complete at
      once; otherwise it takes the queue, later merges it, and is over. */
  lemma LoadAfterFlush(s: State, actions: seq<Action>, p: Path, t: nat)
    requires Safe(s, p, t) && !s.flushing && Runs(s, actions)
    requires s.pending == map[] || (|actions| > 0 && actions[0].Take? && Merges(actions))
    ensures var e, r := Exec(s, actions), Oldest(actions, p, t);
            r > 0 && r + 2592000000 > e.now ==> p in e.store && e.store[p] >= r
  {
    var r := Oldest(actions, p, t);
    OldestIsRespected(actions, p, t, r);
    assert Safe(s, p, r);
    if s.pending == map[] {
      StaysStored(s, actions, p, r);
    } else {
      var i :| 0 <= i < |actions| && actions[i].Merge?;
      assert actions[1..][i - 1] == actions[i];
      TakenThenMerged(Next(s, Take), actions[1..], p, r);
    }
  }

  /** A deletion recorded directly replaces the stamp even by an older one. The path
      survives exactly when the stamp that ends up in the store is young enough, so a
      recorded stamp past the maximal age erases a deletion made just now. */
  lemma OlderRecordErases(s: State, p: Path, ms: nat)
    ensures p in Next(s, Record(map[p := ms])).store <==> ms > 0 && ms + 2592000000 > s.now
    ensures p in Next(s, Record(map[p := ms])).store ==> Next(s, Record(map[p := ms])).store[p] == ms
  {
    RecordedAt(s.store, map[p := ms], s.now, p);
  }

  /** A second flusher breaks the promise of a load after a flush, whenever it comes while
      the first holds a deletion the store does not have: it finds nothing queued, so its
      flush is over at once, and its load misses the deletion, which is there after the
      first has merged, unless it is over age by then. */
  lemma SecondFlusherMisses(s: State, p: Path)
    requires s.flushing && s.pending == map[] && p in s.hands && p !in s.store
    ensures !Enabled(s, Take) && p !in Pruned(s.store, s.now)
    ensures p in Pruned(Next(s, Merge).store, s.now) <==> s.hands[p] > 0 && s.hands[p] + 2592000000 > s.now
  {
    RecordedAt(s.store, s.hands, s.now, p);
  }

  /** Any flush of a deletion that is not stored yet opens that window. */
  lemma FlushOpensWindow(s: State, p: Path)
    requires Enabled(s, Take) && p in s.pending && p !in s.store
    ensures var e := Next(s, Take);
            e.flushing && e.pending == map[] && p in e.hands && p !in e.store
  {
  }

  /** Two flushers can also merge in the wrong order, which puts an older stamp back. */
  lemma LateMergeTurnsBack(store: Stamps, older: Stamps, newer: Stamps, now: nat, p: Path)
    requires p in older && p in newer && 0 < older[p] < newer[p] && older[p] + 2592000000 > now
    ensures var r := Recorded(Recorded(store, newer, now), older, now); p in r && r[p] == older[p]
    ensures var r := Recorded(Recorded(store, older, now), newer, now); p in r && r[p] == newer[p]
  {
    RecordedAt(Recorded(store, newer, now), older, now, p);
    RecordedAt(Recorded(store, older, now), newer, now, p);
  }

  /** `m` is the store with all entries merged but those in `left`. */
  ghost predicate Merging(store: Stamps, entries: Stamps, left: set<Path>, m: Stamps) {
    && (forall p :: p in m <==> p in store || (p in entries && p !in left))
    && (forall p :: p in m ==> m[p] == if p in entries && p !in left then entries[p] else store[p])
  }

  lemma MergeOne(store: Stamps, entries: Stamps, left: set<Path>, m: Stamps, p: Path)
    requires Merging(store, entries, left, m) && p in left && p in entries
    ensures Merging(store, entries, left - {p}, m[p := entries[p]])
  {
  }

  /** The merging loop of `record_with`. */
  method MergeEntries(store: Stamps, entries: Stamps) returns (m: Stamps)
    ensures m == store + entries
  {
    m := store;
    var left := entries.Keys;
    while left != {}
      invariant left <= entries.Keys && Merging(store, entries, left, m)
      decreases |left|
    {
      var p :| p in left;
      MergeOne(store, entries, left, m, p);
      m := m[p := entries[p]];
      left := left - {p};
    }
  }

  class TombstoneStore {
    var pending: Stamps
    var store: Stamps

    function View(now: nat): State
      reads this
    {
      State(pending, map[], false, store, now)
    }

    constructor ()
      ensures pending == map[] && store == map[]
    {
      pending := map[];
      store := map[];
    }

    /** `queue`, with the clock read when the event is seen. */
    method Enqueue(p: Path, now: nat)
      modifies this
      ensures View(now) == old(Next(View(now), Queue(p)))
    {
      if p !in pending {
        pending := pending[p := now];
      }
    }

    /** `record_with`: fresh load, merge entry by entry, prune, save. */
    method RecordWith(entries: Stamps, now: nat)
      modifies this`store
      ensures View(now) == old(Next(View(now), Record(entries)))
    {
      var m := MergeEntries(store, entries);
      store := Pruned(m, now);
    }

    /** `flush` run alone: taking the queue and merging it. */
    method Flush(now: nat)
      modifies this
      ensures View(now) == old(if pending == map[] then View(now) else Next(Next(View(now), Take), Merge))
      ensures pending == map[]
    {
      if pending == map[] {
        return;
      }
      var entries := pending;
      pending := map[];
      RecordWith(entries, now);
    }

    /** `load` and `prune` at the start of a pass: exactly the stored stamps that are
        young enough. */
    method Load(now: nat) returns (r: Stamps)
      ensures forall p :: p in r <==> p in store && store[p] > 0 && store[p] + 2592000000 > now
      ensures forall p :: p in r ==> r[p] == store[p]
    {
      r := Pruned(store, now);
    }
  }
}
