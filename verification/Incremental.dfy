/**
 Incremental parsing of a byte stream, once for all three framings of the system.

 A front parser looks at the start of a buffer and either needs more bytes, yields
 one item and its length, or rejects the stream. Feeding the stream in pieces and
 parsing greedily after each piece then yields what parsing it whole would.
 */
module Incremental {
  import opened Bytes

  datatype Front<T> = More | Item(value: T, used: nat) | Reject

  type Parser<!T> = Bytes -> Front<T>

  /** An item is non-empty and inside the buffer, and a verdict once reached is not
      changed by more bytes. */
  ghost predicate Stable<T>(p: Parser<T>) {
    && (forall b: Bytes :: p(b).Item? ==> 0 < p(b).used <= |b|)
    && (forall b: Bytes, x: Bytes :: !p(b).More? ==> p(b + x) == p(b))
  }

  /** Items in order, unparsed tail, and whether the stream was rejected. */
  datatype Outcome<T> = Outcome(items: seq<T>, rest: Bytes, rejected: bool)

  function ParseAll<T>(p: Parser<T>, b: Bytes): Outcome<T>
    decreases |b|
  {
    match p(b)
    case More => Outcome([], b, false)
    case Reject => Outcome([], b, true)
    case Item(v, used) =>
      if 0 < used <= |b| then
        var o := ParseAll(p, b[used..]);
        o.(items := [v] + o.items)
      else Outcome([], b, true)
  }

  /** Parsing `whole` has got to `cursor` and found `items`. */
  predicate GotTo<T(==)>(p: Parser<T>, whole: Bytes, cursor: nat, items: seq<T>) {
    && cursor <= |whole|
    && var o := ParseAll(p, whole[cursor..]);
       ParseAll(p, whole) == o.(items := items + o.items)
  }

  lemma Advance<T>(p: Parser<T>, whole: Bytes, cursor: nat, items: seq<T>)
    requires GotTo(p, whole, cursor, items)
    requires p(whole[cursor..]).Item? && 0 < p(whole[cursor..]).used <= |whole| - cursor
    ensures GotTo(p, whole, cursor + p(whole[cursor..]).used, items + [p(whole[cursor..]).value])
  {
    var f := p(whole[cursor..]);
    assert whole[cursor..][f.used..] == whole[cursor + f.used..];
    var o' := ParseAll(p, whole[cursor + f.used..]);
    assert items + ([f.value] + o'.items) == (items + [f.value]) + o'.items;
  }

  lemma Arrive<T>(p: Parser<T>, whole: Bytes, cursor: nat, items: seq<T>)
    requires GotTo(p, whole, cursor, items) && !p(whole[cursor..]).Item?
    ensures ParseAll(p, whole) == Outcome(items, whole[cursor..], p(whole[cursor..]).Reject?)
  {
  }

  /** The cursor loop: every complete item of a buffer, in one pass. */
  method Scan<T(==)>(p: Parser<T>, whole: Bytes) returns (items: seq<T>, cursor: nat, rejected: bool)
    requires forall b: Bytes :: p(b).Item? ==> 0 < p(b).used <= |b|
    ensures cursor <= |whole|
    ensures ParseAll(p, whole) == Outcome(items, whole[cursor..], rejected)
  {
    items, cursor, rejected := [], 0, false;
    assert whole[0..] == whole;
    while true
      invariant GotTo(p, whole, cursor, items)
      decreases |whole| - cursor
    {
      var front := p(whole[cursor..]);
      if !front.Item? {
        rejected := front.Reject?;
        Arrive(p, whole, cursor, items);
        return;
      }
      Advance(p, whole, cursor, items);
      items := items + [front.value];
      cursor := cursor + front.used;
    }
  }

  /** `whole` is `first` continued by `next`; a rejected stream is not continued. */
  predicate Continued<T(==)>(first: Outcome<T>, next: Outcome<T>, whole: Outcome<T>) {
    if first.rejected then whole.rejected && whole.items == first.items
    else whole == Outcome(first.items + next.items, next.rest, next.rejected)
  }

  lemma ContinuedAfter<T>(v: T, first: Outcome<T>, next: Outcome<T>, whole: Outcome<T>)
    requires Continued(first, next, whole)
    ensures Continued(first.(items := [v] + first.items), next, whole.(items := [v] + whole.items))
  {
    assert [v] + (first.items + next.items) == ([v] + first.items) + next.items;
  }

  /** Parsing `b + x` is parsing `b`, then continuing on the tail followed by `x`. */
  predicate Resumes<T(==)>(p: Parser<T>, b: Bytes, x: Bytes) {
    Continued(ParseAll(p, b), ParseAll(p, ParseAll(p, b).rest + x), ParseAll(p, b + x))
  }

  lemma StableAt<T>(p: Parser<T>, b: Bytes, x: Bytes)
    requires Stable(p) && !p(b).More?
    ensures p(b + x) == p(b) && (p(b).Item? ==> 0 < p(b).used <= |b|)
  {
  }

  lemma ParseStep<T>(p: Parser<T>, b: Bytes, v: T, used: nat)
    requires p(b) == Item(v, used) && 0 < used <= |b|
    ensures var o := ParseAll(p, b[used..]); ParseAll(p, b) == o.(items := [v] + o.items)
  {
  }

  lemma ItemResumes<T>(p: Parser<T>, b: Bytes, x: Bytes, v: T, used: nat)
    requires p(b) == Item(v, used) && p(b + x) == p(b) && 0 < used <= |b|
    requires Resumes(p, b[used..], x)
    ensures Resumes(p, b, x)
  {
    var tail := b[used..];
    var first := ParseAll(p, tail);
    ContinuedAfter(v, first, ParseAll(p, first.rest + x), ParseAll(p, tail + x));
    ParseStep(p, b, v, used);
    assert (b + x)[used..] == tail + x;
    ParseStep(p, b + x, v, used);
  }

  lemma MoreResumes<T>(p: Parser<T>, b: Bytes, x: Bytes)
    requires p(b).More?
    ensures Resumes(p, b, x)
  {
    assert [] + ParseAll(p, b + x).items == ParseAll(p, b + x).items;
  }

  lemma {:induction false} ParseInTwo<T>(p: Parser<T>, b: Bytes, x: Bytes)
    requires Stable(p)
    ensures Resumes(p, b, x)
    decreases |b|
  {
    if p(b).More? {
      MoreResumes(p, b, x);
    } else {
      StableAt(p, b, x);
      if p(b).Item? {
        ParseInTwo(p, b[p(b).used..], x);
        ItemResumes(p, b, x, p(b).value, p(b).used);
      }
    }
  }

  /** Feeding pieces one at a time: `buf` is what an earlier piece left over. A
      rejected piece ends the stream. */
  function Feed<T>(p: Parser<T>, buf: Bytes, pieces: seq<Bytes>): Outcome<T>
    decreases |pieces|
  {
    if pieces == [] then Outcome([], buf, false)
    else
      var o := ParseAll(p, buf + pieces[0]);
      if o.rejected then o
      else
        var rest := Feed(p, o.rest, pieces[1..]);
        rest.(items := o.items + rest.items)
  }

  /** `items` are what has been found of `all`, with `buf` and `pieces` to go. */
  predicate FedSoFar<T(==)>(p: Parser<T>, all: Outcome<T>, items: seq<T>, buf: Bytes, pieces: seq<Bytes>) {
    var o := Feed(p, buf, pieces);
    all.rejected == o.rejected && (!o.rejected ==> all.rest == o.rest && all.items == items + o.items)
  }

  lemma FeedOne<T>(p: Parser<T>, all: Outcome<T>, items: seq<T>, buf: Bytes, pieces: seq<Bytes>)
    requires pieces != [] && FedSoFar(p, all, items, buf, pieces)
    ensures var o := ParseAll(p, buf + pieces[0]);
            if o.rejected then all.rejected else FedSoFar(p, all, items + o.items, o.rest, pieces[1..])
  {
    var o := ParseAll(p, buf + pieces[0]);
    var rest := Feed(p, o.rest, pieces[1..]);
    assert items + (o.items + rest.items) == (items + o.items) + rest.items;
  }

  /** The tail left by a greedy parse yields nothing more by itself. */
  lemma {:induction false} RestIsIncomplete<T>(p: Parser<T>, b: Bytes)
    requires Stable(p) && !ParseAll(p, b).rejected
    ensures p(ParseAll(p, b).rest).More?
    decreases |b|
  {
    if p(b).Item? {
      RestIsIncomplete(p, b[p(b).used..]);
    }
  }

  /** Any cutting of any stream: the pieces are rejected if and only if the whole is,
      and otherwise yield the same items and the same tail. */
  lemma {:induction false} FeedIsParseAll<T>(p: Parser<T>, buf: Bytes, pieces: seq<Bytes>)
    requires Stable(p) && p(buf).More?
    ensures var fed, whole := Feed(p, buf, pieces), ParseAll(p, buf + Concat(pieces));
            && fed.rejected == whole.rejected && fed.items == whole.items
            && (!fed.rejected ==> fed.rest == whole.rest && p(fed.rest).More?)
    decreases |pieces|
  {
    if pieces == [] {
      assert buf + Concat(pieces) == buf;
    } else {
      var b, x := buf + pieces[0], Concat(pieces[1..]);
      assert buf + Concat(pieces) == b + x;
      ParseInTwo(p, b, x);
      var o := ParseAll(p, b);
      if !o.rejected {
        RestIsIncomplete(p, b);
        FeedIsParseAll(p, o.rest, pieces[1..]);
      }
    }
  }

  /** `enc` writes what `p` reads: the encoding of an item in `ok` is recognised at
      the front of any buffer it starts. */
  ghost predicate Inverts<T(!new)>(p: Parser<T>, enc: T -> Bytes, ok: T -> bool) {
    forall v: T, x: Bytes :: ok(v) ==> p(enc(v) + x) == Item(v, |enc(v)|)
  }

  function EncodeAll<T>(enc: T -> Bytes, vs: seq<T>): Bytes {
    if vs == [] then [] else enc(vs[0]) + EncodeAll(enc, vs[1..])
  }

  lemma {:induction false} EncodeAllAppend<T>(enc: T -> Bytes, a: seq<T>, b: seq<T>)
    ensures EncodeAll(enc, a + b) == EncodeAll(enc, a) + EncodeAll(enc, b)
  {
    if a == [] {
      assert a + b == b;
    } else {
      assert (a + b)[1..] == a[1..] + b;
      EncodeAllAppend(enc, a[1..], b);
    }
  }

  lemma FrontIsFirst<T(!new)>(p: Parser<T>, enc: T -> Bytes, ok: T -> bool, v: T)
    requires Stable(p) && Inverts(p, enc, ok) && ok(v)
    ensures enc(v) != [] && p(enc(v)) == Item(v, |enc(v)|)
  {
    assert p(enc(v) + []) == Item(v, |enc(v)|);
    assert enc(v) + [] == enc(v);
  }

  /** No strict prefix of an encoding gets a verdict. */
  lemma PrefixNeedsMore<T(!new)>(p: Parser<T>, enc: T -> Bytes, ok: T -> bool, v: T, k: nat)
    requires Stable(p) && Inverts(p, enc, ok) && ok(v) && k < |enc(v)|
    ensures p(enc(v)[..k]).More?
  {
    FrontIsFirst(p, enc, ok, v);
    var b, x := enc(v)[..k], enc(v)[k..];
    assert enc(v) == b + x;
    assert p(b).More? || p(b + x) == p(b);
  }

  /** Of a stream of encodings cut off anywhere, exactly the whole encodings come
      out, and the tail is a strict prefix of the next one. */
  lemma {:induction false} PrefixDecodes<T(!new)>(p: Parser<T>, enc: T -> Bytes, ok: T -> bool, vs: seq<T>, b: Bytes)
    requires Stable(p) && Inverts(p, enc, ok) && p([]).More?
    requires forall i :: 0 <= i < |vs| ==> ok(vs[i])
    requires b <= EncodeAll(enc, vs)
    ensures var o := ParseAll(p, b);
            && !o.rejected && o.items <= vs
            && b == EncodeAll(enc, o.items) + o.rest
            && (if |o.items| < |vs| then o.rest < enc(vs[|o.items|]) else o.rest == [])
    decreases |vs|
  {
    if vs == [] {
      assert b == [];
    } else {
      var e := enc(vs[0]);
      FrontIsFirst(p, enc, ok, vs[0]);
      if |b| < |e| {
        assert b == e[..|b|];
        PrefixNeedsMore(p, enc, ok, vs[0], |b|);
        assert b == [] + b;
      } else {
        var tail := b[|e|..];
        assert b == e + tail;
        assert p(b) == Item(vs[0], |e|);
        PrefixDecodes(p, enc, ok, vs[1..], tail);
        var o := ParseAll(p, b);
        assert o.items[1..] == ParseAll(p, tail).items;
        assert b == EncodeAll(enc, o.items) + o.rest;
      }
    }
  }

  lemma {:induction false} AllDecode<T(!new)>(p: Parser<T>, enc: T -> Bytes, ok: T -> bool, vs: seq<T>)
    requires Stable(p) && Inverts(p, enc, ok) && p([]).More?
    requires forall i :: 0 <= i < |vs| ==> ok(vs[i])
    ensures ParseAll(p, EncodeAll(enc, vs)) == Outcome(vs, [], false)
  {
    if vs != [] {
      var e, tail := enc(vs[0]), EncodeAll(enc, vs[1..]);
      FrontIsFirst(p, enc, ok, vs[0]);
      assert p(e + tail) == Item(vs[0], |e|) && (e + tail)[|e|..] == tail;
      AllDecode(p, enc, ok, vs[1..]);
    }
  }

  /** Chunked delivery: however a stream of encodings is cut, and wherever it stops,
      the pieces yield exactly the messages that are complete, in order. */
  lemma ChunkedDelivery<T(!new)>(p: Parser<T>, enc: T -> Bytes, ok: T -> bool, vs: seq<T>, pieces: seq<Bytes>)
    requires Stable(p) && Inverts(p, enc, ok) && p([]).More?
    requires forall i :: 0 <= i < |vs| ==> ok(vs[i])
    requires Concat(pieces) <= EncodeAll(enc, vs)
    ensures var o := Feed(p, [], pieces);
            && !o.rejected && o.items <= vs
            && Concat(pieces) == EncodeAll(enc, o.items) + o.rest
            && (if |o.items| < |vs| then o.rest < enc(vs[|o.items|]) else o.rest == [])
            && (Concat(pieces) == EncodeAll(enc, vs) ==> o.items == vs)
  {
    FeedIsParseAll(p, [], pieces);
    assert [] + Concat(pieces) == Concat(pieces);
    PrefixDecodes(p, enc, ok, vs, Concat(pieces));
    if Concat(pieces) == EncodeAll(enc, vs) {
      AllDecode(p, enc, ok, vs);
    }
  }
}
