/**
 Registration and retirement of streams.

 A stream is registered under its id until its app handle is dropped and its
 outbound pump has finished. Both events run the same `try_retire`, concurrently;
 an action below is one atomic operation of one of the two, so a list of actions is
 one interleaving, over any number of streams, including ids that are reused.
 */
module Retirement {

  /** Where one of the two events stands: not happened, flag stored, first flag read
      as true, both read as true, or through with `try_retire`. */
  datatype Pc = Working | Stored | FirstTrue | Locking | Finished

  /** `forgotten` once a failed open or the teardown of the session took the stream
      out of the map. */
  datatype Stream = Stream(id: nat, appGone: bool, outDone: bool, drop: Pc, pump: Pc, forgotten: bool)

  /** Streams by object identity, the session's map from ids, and the streams that
      `try_retire` removed, in order. */
  datatype State = State(objs: map<nat, Stream>, streams: map<nat, nat>, removed: seq<nat>)

  function Init(): State { State(map[], map[], []) }

  datatype Who = Drop | Pump

  datatype Action =
    | Open(ref: nat, id: nat)
    | Store(ref: nat, who: Who)
    | Load1(ref: nat, who: Who)
    | Load2(ref: nat, who: Who)
    | Lock(ref: nat, who: Who)
    | FailOpen(ref: nat)
    | Teardown

  function PcOf(o: Stream, who: Who): Pc { if who.Drop? then o.drop else o.pump }

  function SetPc(o: Stream, who: Who, pc: Pc): Stream {
    if who.Drop? then o.(drop := pc) else o.(pump := pc)
  }

  predicate Registered(s: State, ref: nat) {
    ref in s.objs && s.objs[ref].id in s.streams && s.streams[s.objs[ref].id] == ref
  }

  predicate Enabled(s: State, a: Action) {
    match a
    case Open(ref, id) => ref !in s.objs && id !in s.streams
    case Store(ref, who) => ref in s.objs && PcOf(s.objs[ref], who).Working?
    case Load1(ref, who) => ref in s.objs && PcOf(s.objs[ref], who).Stored?
    case Load2(ref, who) => ref in s.objs && PcOf(s.objs[ref], who).FirstTrue?
    case Lock(ref, who) => ref in s.objs && PcOf(s.objs[ref], who).Locking?
    case FailOpen(ref) => ref in s.objs && s.objs[ref].drop.Working?
    case Teardown => true
  }

  function Forget(o: Stream): Stream { o.(forgotten := true) }

  function Next(s: State, a: Action): State
    requires Enabled(s, a)
  {
    match a
    case Open(ref, id) =>
      s.(objs := s.objs[ref := Stream(id, false, false, Working, Working, false)],
         streams := s.streams[id := ref])
    case Store(ref, who) =>
      var o := SetPc(s.objs[ref], who, Stored);
      s.(objs := s.objs[ref := if who.Drop? then o.(appGone := true) else o.(outDone := true)])
    case Load1(ref, who) =>
      var o := s.objs[ref];
      s.(objs := s.objs[ref := SetPc(o, who, if o.appGone then FirstTrue else Finished)])
    case Load2(ref, who) =>
      var o := s.objs[ref];
      s.(objs := s.objs[ref := SetPc(o, who, if o.outDone then Locking else Finished)])
    case Lock(ref, who) =>
      var s' := s.(objs := s.objs[ref := SetPc(s.objs[ref], who, Finished)]);
      if Registered(s, ref)
      then s'.(streams := s.streams - {s.objs[ref].id}, removed := s.removed + [ref])
      else s'
    case FailOpen(ref) =>
      // the opener removes by id alone
      var id := s.objs[ref].id;
      if id in s.streams && s.streams[id] in s.objs
      then s.(streams := s.streams - {id},
              objs := s.objs[s.streams[id] := Forget(s.objs[s.streams[id]])])
      else s
    case Teardown =>
      s.(streams := map[],
         objs := map r | r in s.objs :: if Registered(s, r) then Forget(s.objs[r]) else s.objs[r])
  }

  predicate Runs(s: State, acts: seq<Action>)
    decreases |acts|
  {
    acts == [] || (Enabled(s, acts[0]) && Runs(Next(s, acts[0]), acts[1..]))
  }

  function Exec(s: State, acts: seq<Action>): State
    requires Runs(s, acts)
    decreases |acts|
  {
    if acts == [] then s else Exec(Next(s, acts[0]), acts[1..])
  }

  predicate Busy(pc: Pc) { pc.Stored? || pc.FirstTrue? || pc.Locking? }

  /** A flag is stored before its event reads anything; reading is on the way only
      while something is left to see. */
  predicate ObjOk(o: Stream) {
    && (o.appGone <==> !o.drop.Working?)
    && (o.outDone <==> !o.pump.Working?)
    && (o.drop.FirstTrue? || o.pump.FirstTrue? ==> o.appGone)
    && (o.drop.Locking? || o.pump.Locking? ==> o.appGone && o.outDone)
  }

  /** A registered stream whose two flags are set still has an event on its way to
      remove it; an unregistered one was removed or forgotten. */
  predicate Tracked(s: State, ref: nat)
    requires ref in s.objs
  {
    var o := s.objs[ref];
    if Registered(s, ref) then
      && !o.forgotten && ref !in s.removed
      && (o.appGone && o.outDone ==> Busy(o.drop) || Busy(o.pump))
    else
      && (o.forgotten || ref in s.removed)
      && (ref in s.removed ==> o.appGone && o.outDone && !o.forgotten)
  }

  predicate NoRepeats(xs: seq<nat>) {
    forall i, j :: 0 <= i < j < |xs| ==> xs[i] != xs[j]
  }

  predicate Inv(s: State) {
    && (forall id :: id in s.streams ==> s.streams[id] in s.objs && s.objs[s.streams[id]].id == id)
    && (forall ref :: ref in s.objs ==> ObjOk(s.objs[ref]) && Tracked(s, ref))
    && (forall i :: 0 <= i < |s.removed| ==> s.removed[i] in s.objs)
    && NoRepeats(s.removed)
  }

  lemma FlagStepKeepsInv(s: State, a: Action)
    requires Inv(s) && Enabled(s, a) && (a.Store? || a.Load1? || a.Load2?)
    ensures Inv(Next(s, a))
  {
    var t := Next(s, a);
    forall ref | ref in t.objs ensures ObjOk(t.objs[ref]) && Tracked(t, ref) {
      assert ObjOk(s.objs[ref]) && Tracked(s, ref);
      assert Registered(t, ref) == Registered(s, ref);
    }
  }

  lemma OpenKeepsInv(s: State, a: Action)
    requires Inv(s) && Enabled(s, a) && a.Open?
    ensures Inv(Next(s, a))
  {
    var t := Next(s, a);
    forall ref | ref in t.objs ensures ObjOk(t.objs[ref]) && Tracked(t, ref) {
      if ref != a.ref {
        assert ObjOk(s.objs[ref]) && Tracked(s, ref);
        assert Registered(t, ref) == Registered(s, ref);
      }
    }
  }

  lemma LockKeepsInv(s: State, a: Action)
    requires Inv(s) && Enabled(s, a) && a.Lock?
    ensures Inv(Next(s, a))
  {
    var t := Next(s, a);
    assert ObjOk(s.objs[a.ref]) && Tracked(s, a.ref);
    forall ref | ref in t.objs ensures ObjOk(t.objs[ref]) && Tracked(t, ref) {
      assert ObjOk(s.objs[ref]) && Tracked(s, ref);
      if ref != a.ref {
        assert Registered(t, ref) == Registered(s, ref);
        assert ref in t.removed <==> ref in s.removed;
      }
    }
  }

  /** Only its own registration is lost when an open fails. */
  lemma FailOpenKeepsInv(s: State, a: Action)
    requires Inv(s) && Enabled(s, a) && a.FailOpen?
    ensures Inv(Next(s, a))
    ensures !s.objs[a.ref].forgotten ==>
              forall ref :: ref != a.ref ==> Registered(Next(s, a), ref) == Registered(s, ref)
  {
    var t := Next(s, a);
    assert ObjOk(s.objs[a.ref]) && Tracked(s, a.ref);
    forall ref | ref in t.objs ensures ObjOk(t.objs[ref]) && Tracked(t, ref) {
      assert ObjOk(s.objs[ref]) && Tracked(s, ref);
    }
  }

  lemma TeardownKeepsInv(s: State)
    requires Inv(s)
    ensures Inv(Next(s, Teardown))
  {
    var t := Next(s, Teardown);
    forall ref | ref in t.objs ensures ObjOk(t.objs[ref]) && Tracked(t, ref) {
      assert ObjOk(s.objs[ref]) && Tracked(s, ref);
    }
  }

  lemma StepKeepsInv(s: State, a: Action)
    requires Inv(s) && Enabled(s, a)
    ensures Inv(Next(s, a))
  {
    match a {
      case Open(_, _) => OpenKeepsInv(s, a);
      case Store(_, _) => FlagStepKeepsInv(s, a);
      case Load1(_, _) => FlagStepKeepsInv(s, a);
      case Load2(_, _) => FlagStepKeepsInv(s, a);
      case Lock(_, _) => LockKeepsInv(s, a);
      case FailOpen(_) => FailOpenKeepsInv(s, a);
      case Teardown => TeardownKeepsInv(s);
    }
  }

  lemma {:induction false} RunKeepsInv(s: State, acts: seq<Action>)
    requires Inv(s) && Runs(s, acts)
    ensures Inv(Exec(s, acts))
    decreases |acts|
  {
    if acts != [] {
      StepKeepsInv(s, acts[0]);
      RunKeepsInv(Next(s, acts[0]), acts[1..]);
    }
  }

  function Count(xs: seq<nat>, x: nat): nat {
    if xs == [] then 0 else (if xs[0] == x then 1 else 0) + Count(xs[1..], x)
  }

  lemma {:induction false} CountOnce(xs: seq<nat>, x: nat)
    requires NoRepeats(xs)
    ensures Count(xs, x) == if x in xs then 1 else 0
  {
    if xs != [] {
      assert NoRepeats(xs[1..]);
      CountOnce(xs[1..], x);
      assert forall i :: 0 <= i < |xs[1..]| ==> xs[1..][i] == xs[i + 1];
    }
  }

  /** Retirement. In every reachable state: a stream whose pump is unfinished is
      found under its id, so every WINDOW reaches it, unless its open failed or the
      session was torn down; once both events are through it is not; and it was
      removed at most once, exactly once if nothing else took it out. */
  lemma RetiredExactlyOnce(acts: seq<Action>, ref: nat)
    requires Runs(Init(), acts) && ref in Exec(Init(), acts).objs
    ensures var s := Exec(Init(), acts);
            var o := s.objs[ref];
            && (!o.outDone && !o.forgotten ==> o.id in s.streams && s.streams[o.id] == ref)
            && (!o.appGone && !o.forgotten ==> o.id in s.streams && s.streams[o.id] == ref)
            && (o.drop.Finished? && o.pump.Finished? ==> !Registered(s, ref))
            && (o.drop.Finished? && o.pump.Finished? && !o.forgotten ==> Count(s.removed, ref) == 1)
            && Count(s.removed, ref) <= 1
  {
    RunKeepsInv(Init(), acts);
    var s := Exec(Init(), acts);
    assert ObjOk(s.objs[ref]) && Tracked(s, ref);
    CountOnce(s.removed, ref);
  }

  /** A removal never hits another stream, even one that reuses the id: whatever
      `try_retire` does for `ref`, every other stream stays as registered as it was. */
  lemma OthersStayRegistered(acts: seq<Action>, a: Action, other: nat)
    requires Runs(Init(), acts) && Enabled(Exec(Init(), acts), a) && a.Lock? && other != a.ref
    ensures var s := Exec(Init(), acts);
            Registered(Next(s, a), other) == Registered(s, other)
  {
    RunKeepsInv(Init(), acts);
  }

  /** Handle of a stream: the flags both events share. */
  class StreamInner {
    const id: nat
    var appGone: bool
    var outDone: bool

    constructor (id: nat)
      ensures this.id == id && !appGone && !outDone
    {
      this.id := id;
      appGone := false;
      outDone := false;
    }
  }

  /** The session's stream table. */
  class Shared {
    var streams: map<nat, StreamInner>

    constructor ()
      ensures streams == map[]
    {
      streams := map[];
    }

    /** Unregisters the stream once neither side needs it; the identity test keeps a
        later stream of the same id in place. */
    method TryRetire(inner: StreamInner) returns (retired: bool)
      modifies this
      ensures retired <==>
                inner.appGone && inner.outDone && inner.id in old(streams) && old(streams)[inner.id] == inner
      ensures streams == if retired then old(streams) - {inner.id} else old(streams)
      ensures inner.appGone && inner.outDone ==> inner.id !in streams || streams[inner.id] != inner
      ensures forall k :: k in old(streams) && old(streams)[k] != inner ==>
                k in streams && streams[k] == old(streams)[k]
    {
      retired := false;
      if !(inner.appGone && inner.outDone) {
        return;
      }
      if inner.id in streams && streams[inner.id] == inner {
        streams := streams - {inner.id};
        retired := true;
      }
    }

    /** The app dropped its handle. */
    method DropHandle(inner: StreamInner) returns (retired: bool)
      modifies this, inner`appGone
      ensures inner.appGone
      ensures retired <==> inner.outDone && inner.id in old(streams) && old(streams)[inner.id] == inner
      ensures streams == if retired then old(streams) - {inner.id} else old(streams)
    {
      inner.appGone := true;
      retired := TryRetire(inner);
    }

    /** The outbound pump sent its last frame. */
    method PumpDone(inner: StreamInner) returns (retired: bool)
      modifies this, inner`outDone
      ensures inner.outDone
      ensures retired <==> inner.appGone && inner.id in old(streams) && old(streams)[inner.id] == inner
      ensures streams == if retired then old(streams) - {inner.id} else old(streams)
    {
      inner.outDone := true;
      retired := TryRetire(inner);
    }
  }
}
