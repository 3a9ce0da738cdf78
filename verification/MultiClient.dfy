/**
 Any number of clients syncing, one pass at a time and in any order, with one server:
 no clock offset, no deletions, no failing action.
 */
module MultiClient {
  import opened Files
  import opened Options
  import opened SyncDiff

  datatype World = World(server: Tree, clients: seq<Tree>)

  function PassOf(w: World, i: nat): Pass
    requires i < |w.clients|
  {
    Pass(Setting(false, true, 0), w.server, w.clients[i], map[], map[], map[], {}, {})
  }

  /** Client `i` runs one pass. */
  function Step(w: World, i: nat): World
    requires i < |w.clients|
  {
    World(ServerAfter(PassOf(w, i)), w.clients[i := ClientAfter(PassOf(w, i))])
  }

  predicate Schedule(w: World, order: seq<nat>) { forall k :: 0 <= k < |order| ==> order[k] < |w.clients| }

  function Sync(w: World, order: seq<nat>): (r: World)
    requires Schedule(w, order)
    ensures |r.clients| == |w.clients|
    decreases |order|
  {
    if order == [] then w else Sync(Step(w, order[0]), order[1..])
  }

  /** Every copy of `p`, on the server or on a client, is one of `versions`. */
  predicate Within(w: World, p: Path, versions: set<FileEntry>) {
    && (p in w.server ==> w.server[p] in versions)
    && (forall i :: 0 <= i < |w.clients| && p in w.clients[i] ==> w.clients[i][p] in versions)
  }

  /** `v` wins against `u` in a pass, on whichever side either is. */
  predicate Beats(v: FileEntry, u: FileEntry) {
    u.hash != v.hash && v.stat.mtime > u.stat.mtime + 1.0
  }

  predicate AllReadable(versions: set<FileEntry>) { forall u :: u in versions ==> u.hash.Some? }

  predicate Newest(v: FileEntry, versions: set<FileEntry>) {
    v in versions && forall u :: u in versions ==> u.stat.mtime <= v.stat.mtime
  }

  predicate BeatsAll(v: FileEntry, versions: set<FileEntry>) {
    v in versions && forall u :: u in versions && u != v ==> Beats(v, u)
  }

  /** What a pass does to a path both of whose copies, if any, are readable. */
  lemma PassAt(x: Pass, p: Path)
    requires x.st == Setting(false, true, 0) && x.local == x.remote == x.reloaded == map[]
    requires x.blocked == x.failed == {}
    requires (p in x.server ==> x.server[p].hash.Some?) && (p in x.client ==> x.client[p].hash.Some?)
    ensures var s, c := At(x.server, p), At(x.client, p);
            && At(ServerAfter(x), p) == (if s.None? || (c.Some? && Beats(c.value, s.value)) then c else s)
            && At(ClientAfter(x), p) == (if c.None? || (s.Some? && Beats(s.value, c.value)) then s else c)
  {
    AfterAt(x, p);
  }

  lemma StepAt(w: World, i: nat, p: Path, versions: set<FileEntry>)
    requires i < |w.clients| && Within(w, p, versions) && AllReadable(versions)
    ensures var w', s, c := Step(w, i), At(w.server, p), At(w.clients[i], p);
            && At(w'.server, p) == (if s.None? || (c.Some? && Beats(c.value, s.value)) then c else s)
            && At(w'.clients[i], p) == (if c.None? || (s.Some? && Beats(s.value, c.value)) then s else c)
            && |w'.clients| == |w.clients|
            && (forall j :: 0 <= j < |w.clients| && j != i ==> w'.clients[j] == w.clients[j])
            && Within(w', p, versions)
  {
    PassAt(PassOf(w, i), p);
    var w' := Step(w, i);
    assert At(w'.server, p) in {At(w.server, p), At(w.clients[i], p)};
    assert At(w'.clients[i], p) in {At(w.server, p), At(w.clients[i], p)};
    forall j | 0 <= j < |w'.clients| && p in w'.clients[j] ensures w'.clients[j][p] in versions {
      if j == i {
        assert w'.clients[j][p] == At(w'.clients[i], p).value;
      }
    }
  }

  /** The version that beats all others reaches the server with its holder's pass and
      stays there. */
  lemma {:induction false} ServerGetsNewest(w: World, order: seq<nat>, p: Path, versions: set<FileEntry>,
                                            v: FileEntry, holder: nat)
    requires Schedule(w, order) && Within(w, p, versions) && AllReadable(versions) && BeatsAll(v, versions)
    requires At(w.server, p) == Some(v) || (holder in order && At(w.clients[holder], p) == Some(v))
    ensures At(Sync(w, order).server, p) == Some(v) && Within(Sync(w, order), p, versions)
    decreases |order|
  {
    if order != [] {
      StepAt(w, order[0], p, versions);
      assert order == [order[0]] + order[1..];
      ServerGetsNewest(Step(w, order[0]), order[1..], p, versions, v, holder);
    }
  }

  /** From then on each client has it from its next pass on. */
  lemma {:induction false} ClientGetsNewest(w: World, order: seq<nat>, p: Path, versions: set<FileEntry>,
                                            v: FileEntry, i: nat)
    requires Schedule(w, order) && Within(w, p, versions) && AllReadable(versions) && BeatsAll(v, versions)
    requires At(w.server, p) == Some(v) && i < |w.clients|
    requires i in order || At(w.clients[i], p) == Some(v)
    ensures At(Sync(w, order).clients[i], p) == Some(v)
    decreases |order|
  {
    if order != [] {
      StepAt(w, order[0], p, versions);
      assert order == [order[0]] + order[1..];
      ClientGetsNewest(Step(w, order[0]), order[1..], p, versions, v, i);
    }
  }

  ghost predicate EveryClient(w: World, order: seq<nat>) { forall i: nat :: i < |w.clients| ==> i in order }

  lemma {:induction false} SyncInTwo(w: World, a: seq<nat>, b: seq<nat>)
    requires Schedule(w, a + b)
    ensures Schedule(w, a) && Schedule(Sync(w, a), b) && Sync(w, a + b) == Sync(Sync(w, a), b)
    decreases |a|
  {
    assert forall k :: 0 <= k < |b| ==> (a + b)[|a| + k] == b[k];
    assert forall k :: 0 <= k < |a| ==> (a + b)[k] == a[k];
    if a == [] {
      assert a + b == b;
    } else {
      assert (a + b)[1..] == a[1..] + b;
      SyncInTwo(Step(w, a[0]), a[1..], b);
    }
  }

  /** All copies of `p`. */
  function Copies(w: World, p: Path): set<FileEntry> {
    (if p in w.server then {w.server[p]} else {})
    + set i | 0 <= i < |w.clients| && p in w.clients[i] :: w.clients[i][p]
  }

  /** Last writer wins among any number of clients: after every client has passed at
      least once, in any order, the server holds `v`; after every client has passed
      once more, so does every client. */
  ghost predicate AlwaysWins(w: World, p: Path, v: FileEntry) {
    forall first: seq<nat>, second: seq<nat> ::
      EveryClient(w, first) && EveryClient(w, second) && Schedule(w, first) && Schedule(w, second) ==>
        && At(Sync(w, first).server, p) == Some(v)
        && Everywhere(Sync(Sync(w, first), second), p, v)
  }

  predicate Everywhere(w: World, p: Path, v: FileEntry) {
    At(w.server, p) == Some(v) && forall i :: 0 <= i < |w.clients| ==> At(w.clients[i], p) == Some(v)
  }

  /** Someone has it: the server, or the client returned. */
  lemma Holder(w: World, p: Path, v: FileEntry) returns (i: nat)
    requires v in Copies(w, p)
    ensures At(w.server, p) == Some(v) || (i < |w.clients| && At(w.clients[i], p) == Some(v))
  {
    i := 0;
    if At(w.server, p) != Some(v) {
      i :| 0 <= i < |w.clients| && p in w.clients[i] && w.clients[i][p] == v;
    }
  }

  lemma EveryoneGetsNewest(w: World, first: seq<nat>, second: seq<nat>, p: Path, v: FileEntry)
    requires Schedule(w, first) && Schedule(w, second) && EveryClient(w, first) && EveryClient(w, second)
    requires AllReadable(Copies(w, p)) && BeatsAll(v, Copies(w, p))
    ensures At(Sync(w, first).server, p) == Some(v) && Everywhere(Sync(Sync(w, first), second), p, v)
  {
    var versions := Copies(w, p);
    var holder := Holder(w, p, v);
    ServerGetsNewest(w, first, p, versions, v, holder);
    var mid := Sync(w, first);
    ServerGetsNewest(mid, second, p, versions, v, 0);
    forall i: nat | i < |mid.clients| ensures At(Sync(mid, second).clients[i], p) == Some(v) {
      ClientGetsNewest(mid, second, p, versions, v, i);
    }
  }

  /** A server that holds the newest version keeps it, and a client copy that version
      does not beat stays as well. */
  lemma {:induction false} UnbeatenStays(w: World, order: seq<nat>, p: Path, versions: set<FileEntry>,
                                         v: FileEntry, i: nat, u: FileEntry)
    requires Schedule(w, order) && Within(w, p, versions) && AllReadable(versions) && Newest(v, versions)
    requires At(w.server, p) == Some(v)
    requires i < |w.clients| && At(w.clients[i], p) == Some(u) && !Beats(v, u)
    ensures var e := Sync(w, order);
            At(e.server, p) == Some(v) && At(e.clients[i], p) == Some(u) && Within(e, p, versions)
    decreases |order|
  {
    if order != [] {
      StepAt(w, order[0], p, versions);
      UnbeatenStays(Step(w, order[0]), order[1..], p, versions, v, i, u);
    }
  }

  /** Each of the first `n` clients in turn. */
  function UpTo(n: nat): seq<nat> { seq(n, i => i) }

  lemma UpToCovers(w: World)
    ensures Schedule(w, UpTo(|w.clients|)) && EveryClient(w, UpTo(|w.clients|))
  {
    forall i: nat | i < |w.clients| ensures i in UpTo(|w.clients|) {
      assert UpTo(|w.clients|)[i] == i;
    }
  }

  /** A copy that `v` does not beat, on a client: with a server that lets `v` in, a
      schedule that starts with a holder of `v` leaves that client as it is. */
  lemma ClientCopySpoils(w: World, p: Path, v: FileEntry, i: nat, holder: nat)
    requires AllReadable(Copies(w, p)) && Newest(v, Copies(w, p))
    requires i < |w.clients| && p in w.clients[i] && w.clients[i][p] != v && !Beats(v, w.clients[i][p])
    requires At(w.server, p) == Some(v) || (holder < |w.clients| && At(w.clients[holder], p) == Some(v))
    requires p in w.server ==> w.server[p] == v || Beats(v, w.server[p])
    ensures !AlwaysWins(w, p, v)
  {
    var versions, all, u := Copies(w, p), UpTo(|w.clients|), w.clients[i][p];
    UpToCovers(w);
    if At(w.server, p) == Some(v) {
      UnbeatenStays(w, all, p, versions, v, i, u);
      UnbeatenSpoils(w, all, p, versions, v, i, u);
    } else {
      var first := [holder] + all;
      StepAt(w, holder, p, versions);
      assert first[1..] == all;
      UnbeatenStays(Step(w, holder), all, p, versions, v, i, u);
      UnbeatenSpoils(w, first, p, versions, v, i, u);
    }
  }

  lemma UnbeatenSpoils(w: World, first: seq<nat>, p: Path, versions: set<FileEntry>, v: FileEntry, i: nat, u: FileEntry)
    requires Schedule(w, first) && EveryClient(w, first) && i < |w.clients|
    requires Within(Sync(w, first), p, versions) && AllReadable(versions) && Newest(v, versions)
    requires At(Sync(w, first).server, p) == Some(v) && At(Sync(w, first).clients[i], p) == Some(u)
    requires u != v && !Beats(v, u)
    ensures !AlwaysWins(w, p, v)
  {
    var second := UpTo(|w.clients|);
    UpToCovers(w);
    UnbeatenStays(Sync(w, first), second, p, versions, v, i, u);
    assert !Everywhere(Sync(Sync(w, first), second), p, v);
  }

  /** Nobody who is still to pass has `v`, and neither has the server. */
  predicate Without(w: World, p: Path, v: FileEntry, order: seq<nat>) {
    At(w.server, p) != Some(v) && forall i :: 0 <= i < |w.clients| && i in order ==> At(w.clients[i], p) != Some(v)
  }

  lemma {:induction false} StaysWithout(w: World, order: seq<nat>, p: Path, versions: set<FileEntry>, v: FileEntry)
    requires Schedule(w, order) && Within(w, p, versions) && AllReadable(versions) && Without(w, p, v, order)
    ensures At(Sync(w, order).server, p) != Some(v)
    decreases |order|
  {
    if order != [] {
      var i, w' := order[0], Step(w, order[0]);
      StepAt(w, i, p, versions);
      assert order == [i] + order[1..];
      forall j | 0 <= j < |w'.clients| && j in order[1..] ensures At(w'.clients[j], p) != Some(v) {
        assert j in order;
      }
      StaysWithout(w', order[1..], p, versions, v);
    }
  }

  /** Passes by holders of `v` change nothing at `p` as long as the server holds a copy
      that neither beats `v` nor is beaten by it. */
  lemma {:induction false} HoldersPass(w: World, order: seq<nat>, p: Path, versions: set<FileEntry>,
                                       v: FileEntry, s: FileEntry)
    requires Schedule(w, order) && Within(w, p, versions) && AllReadable(versions)
    requires At(w.server, p) == Some(s) && !Beats(v, s) && !Beats(s, v)
    requires forall k :: 0 <= k < |order| ==> At(w.clients[order[k]], p) == Some(v)
    ensures var e := Sync(w, order);
            && At(e.server, p) == Some(s) && Within(e, p, versions)
            && forall j :: 0 <= j < |w.clients| ==> At(e.clients[j], p) == At(w.clients[j], p)
    decreases |order|
  {
    if order != [] {
      StepAt(w, order[0], p, versions);
      HoldersPass(Step(w, order[0]), order[1..], p, versions, v, s);
    }
  }

  /** The first `n` clients that hold `v`, or that do not. */
  function Select(w: World, p: Path, v: FileEntry, holds: bool, n: nat): (r: seq<nat>)
    requires n <= |w.clients|
    ensures forall i: nat :: i in r <==> i < n && (At(w.clients[i], p) == Some(v) <==> holds)
  {
    if n == 0 then []
    else Select(w, p, v, holds, n - 1) + if At(w.clients[n - 1], p) == Some(v) <==> holds then [n - 1] else []
  }

  /** A copy that `v` does not beat, on the server: if all holders of `v` pass first,
      `v` is not on the server after the round. */
  lemma ServerCopySpoils(w: World, p: Path, v: FileEntry)
    requires AllReadable(Copies(w, p)) && Newest(v, Copies(w, p))
    requires p in w.server && w.server[p] != v && !Beats(v, w.server[p])
    ensures !AlwaysWins(w, p, v)
  {
    var n, versions := |w.clients|, Copies(w, p);
    var holders, others := Select(w, p, v, true, n), Select(w, p, v, false, n);
    assert forall k :: 0 <= k < |holders| ==> holders[k] in holders;
    assert forall k :: 0 <= k < |others| ==> others[k] in others;
    HoldersPass(w, holders, p, versions, v, w.server[p]);
    var mid := Sync(w, holders);
    StaysWithout(mid, others, p, versions, v);
    var first := holders + others;
    assert Schedule(w, first);
    SyncInTwo(w, holders, others);
    UpToCovers(w);
    assert EveryClient(w, first) && EveryClient(w, UpTo(n)) && Schedule(w, UpTo(n));
  }

  /** The promise, exactly. With readable copies and `v` the newest of them, every
      schedule in which each client passes twice brings `v` first to the server and then
      to everyone, if and only if every other copy has another hash and is older by more
      than a millisecond. */
  lemma NewestWinsIff(w: World, p: Path, v: FileEntry)
    requires AllReadable(Copies(w, p)) && Newest(v, Copies(w, p))
    ensures AlwaysWins(w, p, v) <==> forall u :: u in Copies(w, p) && u != v ==> Beats(v, u)
  {
    if BeatsAll(v, Copies(w, p)) {
      forall first: seq<nat>, second: seq<nat> |
        EveryClient(w, first) && EveryClient(w, second) && Schedule(w, first) && Schedule(w, second)
        ensures At(Sync(w, first).server, p) == Some(v) && Everywhere(Sync(Sync(w, first), second), p, v)
      {
        EveryoneGetsNewest(w, first, second, p, v);
      }
    } else {
      var u :| u in Copies(w, p) && u != v && !Beats(v, u);
      if p in w.server && w.server[p] != v && !Beats(v, w.server[p]) {
        ServerCopySpoils(w, p, v);
      } else {
        var i := Holder(w, p, u);
        var holder := Holder(w, p, v);
        ClientCopySpoils(w, p, v, i, holder);
      }
    }
  }

  /** A path nobody has appears nowhere. */
  lemma {:induction false} NothingAppears(w: World, order: seq<nat>, p: Path)
    requires Schedule(w, order) && Within(w, p, {})
    ensures Within(Sync(w, order), p, {})
    decreases |order|
  {
    if order != [] {
      AfterAt(PassOf(w, order[0]), p);
      NothingAppears(Step(w, order[0]), order[1..], p);
    }
  }

  /** What one client's pass leaves on the server. */
  lemma ServerStep(w: World, i: nat, p: Path, s: Option<FileEntry>, c: FileEntry)
    requires i < |w.clients| && At(w.server, p) == s && At(w.clients[i], p) == Some(c)
    requires c.hash.Some? && (s.Some? ==> s.value.hash.Some?)
    ensures At(Step(w, i).server, p) == if s.None? || Beats(c, s.value) then Some(c) else s
    ensures forall j :: 0 <= j < |w.clients| && j != i ==> Step(w, i).clients[j] == w.clients[j]
  {
    PassAt(PassOf(w, i), p);
  }

  lemma SyncThree(w: World)
    requires |w.clients| == 3
    ensures Schedule(w, [0, 1, 2]) && Sync(w, [0, 1, 2]) == Step(Step(Step(w, 0), 1), 2)
  {
    var w1 := Step(w, 0);
    var w2 := Step(w1, 1);
    assert [0, 1, 2][1..] == [1, 2] && [1, 2][1..] == [2] && [2][1..] == [];
    assert Sync(w2, [2]) == Sync(Step(w2, 2), []);
    assert Sync(w1, [1, 2]) == Sync(w2, [2]);
  }

  /** What the server can end up with instead: a copy that was only touched is not taken
      to the server when the contents are equal, so a version older than it wins. */
  lemma TouchedCopyLoses(w: World, p: Path, x: FileEntry, touched: FileEntry, y: FileEntry)
    requires |w.clients| == 3 && p !in w.server
    requires At(w.clients[0], p) == Some(x) && At(w.clients[1], p) == Some(touched) && At(w.clients[2], p) == Some(y)
    requires x.hash.Some? && y.hash.Some? && x.hash == touched.hash != y.hash
    requires x.stat.mtime + 1.0 < y.stat.mtime < touched.stat.mtime
    ensures Newest(touched, {x, touched, y}) && Schedule(w, [0, 1, 2])
    ensures At(Sync(w, [0, 1, 2]).server, p) == Some(y)
  {
    SyncThree(w);
    ServerStep(w, 0, p, None, x);
    var w1 := Step(w, 0);
    ServerStep(w1, 1, p, Some(x), touched);
    ServerStep(Step(w1, 1), 2, p, Some(x), y);
  }
}
