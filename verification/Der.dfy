/**
 The DER encoder of the TypeScript SDK against the DER walker of the Rust side
 (length octets of sections 8.1.3 and 10.1 of ITU-T X.690; certificate layout of
 section 4.1 of RFC 5280): what the one assembles, the other takes apart.
 */
module Der {
  import opened Bytes
  import opened Options

  const LIMIT: nat := 0x1_0000_0000

  /** Big-endian without leading zeros. */
  function Minimal(v: nat): Bytes { if v == 0 then [] else Minimal(v / 256) + [v % 256] }

  function LengthField(n: nat): Bytes {
    if n < 128 then [n] else [(128 + |Minimal(n)|) % 256] + Minimal(n)
  }

  lemma {:induction false} MinimalValue(v: nat)
    ensures FromBigEndian(Minimal(v)) == v
    ensures v > 0 ==> |Minimal(v)| > 0
  {
    if v > 0 {
      var b := Minimal(v);
      assert b[..|b| - 1] == Minimal(v / 256);
      MinimalValue(v / 256);
    }
  }

  lemma {:induction false} MinimalFits(v: nat, width: nat)
    requires v < Pow256(width)
    ensures |Minimal(v)| <= width
    decreases width
  {
    if v > 0 {
      MinimalFits(v / 256, width - 1);
    }
  }

  /** `derLen`: the bytes are found least significant first and put in front. */
  method DerLen(n: nat) returns (r: Bytes)
    ensures r == LengthField(n)
  {
    if n < 128 {
      return [n];
    }
    var bytes: Bytes := [];
    var v := n;
    while v > 0
      invariant Minimal(n) == Minimal(v) + bytes
      decreases v
    {
      assert Minimal(v / 256) + [v % 256] + bytes == Minimal(v / 256) + ([v % 256] + bytes);
      bytes := [v % 256] + bytes;
      v := v / 256;
    }
    assert Minimal(n) == bytes;
    return [(128 + |bytes|) % 256] + bytes;
  }

  datatype Tlv = Tlv(tag: Byte, content: Bytes)

  /** Four length octets suffice. */
  predicate Printable(t: Tlv) { |t.content| < LIMIT }

  function Print(t: Tlv): Bytes { [t.tag] + LengthField(|t.content|) + t.content }

  function PrintAll(ts: seq<Tlv>): Bytes {
    if ts == [] then [] else Print(ts[0]) + PrintAll(ts[1..])
  }

  /** Tag, content length and header length found at an offset. */
  datatype Header = Header(tag: Byte, len: nat, hlen: nat)

  /** The number in `n` octets from `p` on. */
  function Octets(b: Bytes, p: nat, n: nat): nat
    requires p + n <= |b|
  {
    if n == 0 then 0 else 256 * Octets(b, p, n - 1) + b[p + n - 1]
  }

  /** `tlv_header`. Lengths of up to four octets are understood, minimal or not. */
  function TlvHeader(b: Bytes, off: nat): Option<Header> {
    if off + 2 > |b| then None
    else
      var first := b[off + 1];
      if first < 128 then Some(Header(b[off], first, 2))
      else
        var n := first - 128;
        if n == 0 || n > 4 || off + 2 + n > |b| then None
        else Some(Header(b[off], Octets(b, off + 2, n), 2 + n))
  }

  /** A header is read unless it is cut off or its length is indefinite or takes more than
      four octets. */
  lemma HeaderIff(b: Bytes, off: nat)
    ensures TlvHeader(b, off).None? <==>
              || off + 2 > |b|
              || b[off + 1] == 128 || b[off + 1] > 132
              || (b[off + 1] > 128 && off + 2 + (b[off + 1] - 128) > |b|)
  {
  }

  /** The walker's own loop over the length octets. */
  method ReadLength(b: Bytes, p: nat, n: nat) returns (v: nat)
    requires p + n <= |b|
    ensures v == Octets(b, p, n)
  {
    v := 0;
    for i := 0 to n
      invariant v == Octets(b, p, i)
    {
      v := 256 * v + b[p + i];
    }
  }

  /** Where the direct children between two offsets start and how long they are. */
  function Children(b: Bytes, off: nat, end: nat): seq<(nat, nat)>
    decreases end - off
  {
    if off >= end then []
    else match TlvHeader(b, off)
      case None => []
      case Some(h) =>
        var total := h.hlen + h.len;
        if off + total > end then [] else [(off, total)] + Children(b, off + total, end)
  }

  /** The children found so far are `out`, and the next one starts at `off`. */
  predicate WalkedTo(b: Bytes, start: nat, end: nat, out: seq<(nat, nat)>, off: nat) {
    Children(b, start, end) == out + Children(b, off, end)
  }

  lemma WalkOn(b: Bytes, start: nat, end: nat, out: seq<(nat, nat)>, off: nat, total: nat)
    requires WalkedTo(b, start, end, out, off)
    requires Children(b, off, end) == [(off, total)] + Children(b, off + total, end)
    ensures WalkedTo(b, start, end, out + [(off, total)], off + total)
  {
    var rest := Children(b, off + total, end);
    assert out + ([(off, total)] + rest) == (out + [(off, total)]) + rest;
  }

  /** `der_children`. */
  method DerChildren(b: Bytes, start: nat, end: nat) returns (out: seq<(nat, nat)>)
    ensures out == Children(b, start, end)
  {
    out := [];
    var off := start;
    while off < end
      invariant WalkedTo(b, start, end, out, off)
      decreases end - off
    {
      var h := TlvHeader(b, off);
      if h.None? {
        return;
      }
      var total := h.value.hlen + h.value.len;
      if off + total > end {
        return;
      }
      WalkOn(b, start, end, out, off, total);
      out := out + [(off, total)];
      off := off + total;
    }
  }

  /** The boundaries the printer laid down. */
  function Boundaries(ts: seq<Tlv>, start: nat): seq<(nat, nat)> {
    if ts == [] then []
    else [(start, |Print(ts[0])|)] + Boundaries(ts[1..], start + |Print(ts[0])|)
  }

  /** The bytes `x` stand in `b` at `off`. */
  predicate Holds(b: Bytes, off: nat, x: Bytes) {
    off + |x| <= |b| && forall i :: 0 <= i < |x| ==> b[off + i] == x[i]
  }

  lemma HoldsParts(b: Bytes, off: nat, x: Bytes, y: Bytes)
    requires Holds(b, off, x + y)
    ensures Holds(b, off, x) && Holds(b, off + |x|, y)
  {
    var z := x + y;
    forall i | 0 <= i < |x| ensures b[off + i] == x[i] {
      assert x[i] == z[i];
    }
    forall i | 0 <= i < |y| ensures b[off + |x| + i] == y[i] {
      assert y[i] == z[|x| + i];
    }
  }

  lemma HoldsSlice(b: Bytes, off: nat, x: Bytes)
    requires Holds(b, off, x)
    ensures b[off..off + |x|] == x
  {
  }

  lemma {:induction false} OctetsOf(b: Bytes, p: nat, m: Bytes)
    requires Holds(b, p, m)
    ensures Octets(b, p, |m|) == FromBigEndian(m)
    decreases |m|
  {
    if m != [] {
      var k := |m| - 1;
      assert Holds(b, p, m[..k]);
      OctetsOf(b, p, m[..k]);
      assert b[p + k] == m[k];
    }
  }

  lemma {:induction false} OctetsOfCopy(b: Bytes, off: nat, c: Bytes, p: nat, n: nat)
    requires Holds(b, off, c) && p + n <= |c|
    ensures Octets(c, p, n) == Octets(b, off + p, n)
    decreases n
  {
    if n > 0 {
      OctetsOfCopy(b, off, c, p, n - 1);
      assert b[off + (p + n - 1)] == c[p + n - 1];
    }
  }

  lemma LongLengthReads(b: Bytes, off: nat, m: Bytes)
    requires 1 <= |m| <= 4 && Holds(b, off + 2, m) && b[off + 1] == 128 + |m|
    ensures TlvHeader(b, off) == Some(Header(b[off], FromBigEndian(m), 2 + |m|))
  {
    OctetsOf(b, off + 2, m);
  }

  lemma LengthFieldReads(b: Bytes, off: nat, n: nat)
    requires n < LIMIT && Holds(b, off + 1, LengthField(n))
    ensures TlvHeader(b, off) == Some(Header(b[off], n, 1 + |LengthField(n)|))
  {
    assert b[off + 1 + 0] == LengthField(n)[0];
    if n >= 128 {
      Pow256Values();
      MinimalFits(n, 4);
      MinimalValue(n);
      HoldsParts(b, off + 1, [(128 + |Minimal(n)|) % 256], Minimal(n));
      LongLengthReads(b, off, Minimal(n));
    }
  }

  /** A printed element is read back wherever it stands. */
  lemma PrintedHeader(b: Bytes, off: nat, t: Tlv)
    requires Printable(t) && Holds(b, off, Print(t))
    ensures var h := TlvHeader(b, off);
            && h.Some? && h.value.tag == t.tag && h.value.len == |t.content|
            && h.value.hlen + h.value.len == |Print(t)|
            && Holds(b, off + h.value.hlen, t.content)
  {
    var f := LengthField(|t.content|);
    HoldsParts(b, off, [t.tag] + f, t.content);
    HoldsParts(b, off, [t.tag], f);
    assert b[off + 0] == [t.tag][0];
    LengthFieldReads(b, off, |t.content|);
  }

  predicate AllPrintable(ts: seq<Tlv>) { forall i :: 0 <= i < |ts| ==> Printable(ts[i]) }

  lemma FirstPrinted(b: Bytes, off: nat, ts: seq<Tlv>)
    requires ts != [] && Holds(b, off, PrintAll(ts))
    ensures Holds(b, off, Print(ts[0])) && Holds(b, off + |Print(ts[0])|, PrintAll(ts[1..]))
    ensures |PrintAll(ts)| == |Print(ts[0])| + |PrintAll(ts[1..])|
  {
    HoldsParts(b, off, Print(ts[0]), PrintAll(ts[1..]));
  }

  /** Elements with these boundaries stand one after the other from `off` to `end`. */
  predicate Walks(b: Bytes, off: nat, end: nat, bounds: seq<(nat, nat)>)
    decreases |bounds|
  {
    if bounds == [] then off == end
    else
      && bounds[0].0 == off && off + bounds[0].1 <= end
      && TlvHeader(b, off).Some? && TlvHeader(b, off).value.hlen + TlvHeader(b, off).value.len == bounds[0].1
      && Walks(b, off + bounds[0].1, end, bounds[1..])
  }

  lemma {:induction false} WalksIsChildren(b: Bytes, off: nat, end: nat, bounds: seq<(nat, nat)>)
    requires Walks(b, off, end, bounds)
    ensures Children(b, off, end) == bounds
    decreases |bounds|
  {
    if bounds != [] {
      HeaderInside(b, off);
      WalksIsChildren(b, off + bounds[0].1, end, bounds[1..]);
      assert bounds == [bounds[0]] + bounds[1..];
    }
  }

  lemma WalksFrom(b: Bytes, off: nat, end: nat, total: nat, rest: seq<(nat, nat)>)
    requires off + total <= end && Walks(b, off + total, end, rest)
    requires TlvHeader(b, off).Some? && TlvHeader(b, off).value.hlen + TlvHeader(b, off).value.len == total
    ensures Walks(b, off, end, [(off, total)] + rest)
  {
    assert ([(off, total)] + rest)[1..] == rest;
  }

  lemma OnePrinted(b: Bytes, off: nat, t: Tlv, end: nat, rest: seq<(nat, nat)>)
    requires Printable(t) && Holds(b, off, Print(t)) && off + |Print(t)| <= end && Walks(b, off + |Print(t)|, end, rest)
    ensures Walks(b, off, end, [(off, |Print(t)|)] + rest)
  {
    PrintedHeader(b, off, t);
    WalksFrom(b, off, end, |Print(t)|, rest);
  }

  lemma {:induction false} PrintedWalks(b: Bytes, off: nat, ts: seq<Tlv>, end: nat)
    requires AllPrintable(ts) && Holds(b, off, PrintAll(ts)) && end == off + |PrintAll(ts)|
    ensures Walks(b, off, end, Boundaries(ts, off))
    decreases |ts|
  {
    if ts != [] {
      FirstPrinted(b, off, ts);
      PrintedWalks(b, off + |Print(ts[0])|, ts[1..], end);
      OnePrinted(b, off, ts[0], end, Boundaries(ts[1..], off + |Print(ts[0])|));
    }
  }

  /** Printer and walker: the children found are exactly the elements printed. */
  lemma ChildrenOfPrinted(b: Bytes, off: nat, ts: seq<Tlv>, end: nat)
    requires AllPrintable(ts) && Holds(b, off, PrintAll(ts)) && end == off + |PrintAll(ts)|
    ensures Children(b, off, end) == Boundaries(ts, off)
  {
    PrintedWalks(b, off, ts, end);
    WalksIsChildren(b, off, end, Boundaries(ts, off));
  }

  /** Every element stands at its boundary. */
  lemma {:induction false} ElementAt(b: Bytes, off: nat, ts: seq<Tlv>, k: nat)
    requires k < |ts| && Holds(b, off, PrintAll(ts))
    ensures |Boundaries(ts, off)| == |ts|
    ensures Holds(b, Boundaries(ts, off)[k].0, Print(ts[k])) && Boundaries(ts, off)[k].1 == |Print(ts[k])|
    decreases |ts|
  {
    FirstPrinted(b, off, ts);
    if |ts| > 1 {
      ElementAt(b, off + |Print(ts[0])|, ts[1..], if k == 0 then 0 else k - 1);
    }
  }

  const ED25519_OID: Bytes := [0x06, 0x03, 0x2b, 0x65, 0x70]

  predicate OidAt(b: Bytes, i: nat) { i + 5 <= |b| && b[i..i + 5] == ED25519_OID }

  predicate HasEd25519Oid(b: Bytes) { exists i: nat :: i + 5 <= |b| && OidAt(b, i) }

  /** `Panic` is a slice past the end of the certificate. */
  datatype Extracted = Spki(bytes: Bytes) | Error | Panic

  /** The SPKI element among the children of a to-be-signed part: after an optional
      version come serial, signature algorithm, issuer, validity and subject. */
  function PickSpki(tbs: Bytes, kids: seq<(nat, nat)>): Extracted {
    var idx := if kids != [] && kids[0].0 < |tbs| && tbs[kids[0].0] == 0xa0 then 1 else 0;
    if idx + 5 >= |kids| then Error
    else
      var (s, l) := kids[idx + 5];
      if s + l > |tbs| then Panic
      else if HasEd25519Oid(tbs[s..s + l]) then Spki(tbs[s..s + l])
      else Error
  }

  function SpkiOfTbs(tbs: Bytes): Extracted {
    match TlvHeader(tbs, 0)
    case None => Error
    case Some(h) => PickSpki(tbs, Children(tbs, h.hlen, h.hlen + h.len))
  }

  /** `extract_ed25519_spki`. */
  function Extract(cert: Bytes): Extracted {
    match TlvHeader(cert, 0)
    case None => Error
    case Some(h) =>
      var top := Children(cert, h.hlen, h.hlen + h.len);
      if top == [] then Error
      else
        var (off, total) := top[0];
        if off + total > |cert| then Panic else SpkiOfTbs(cert[off..off + total])
  }

  lemma HeaderInside(b: Bytes, off: nat)
    ensures TlvHeader(b, off).Some? ==> off + TlvHeader(b, off).value.hlen <= |b| && TlvHeader(b, off).value.hlen >= 2
  {
  }

  lemma {:induction false} ChildrenInside(b: Bytes, off: nat, end: nat)
    ensures forall i :: 0 <= i < |Children(b, off, end)| ==>
              Children(b, off, end)[i].0 + Children(b, off, end)[i].1 <= end
    decreases end - off
  {
    if off < end && TlvHeader(b, off).Some? {
      var total := TlvHeader(b, off).value.hlen + TlvHeader(b, off).value.len;
      if off + total <= end {
        ChildrenInside(b, off + total, end);
      }
    }
  }

  /** The first child starts where the content does, and its header reads the same in
      a copy of it alone. */
  lemma FirstChild(b: Bytes, off: nat, end: nat)
    requires Children(b, off, end) != [] && off + Children(b, off, end)[0].1 <= |b|
    ensures var (o, total) := Children(b, off, end)[0];
            && o == off
            && TlvHeader(b[off..off + total], 0) == TlvHeader(b, off)
            && TlvHeader(b, off).Some? && total == TlvHeader(b, off).value.hlen + TlvHeader(b, off).value.len
  {
    var total := Children(b, off, end)[0].1;
    HeaderInside(b, off);
    HeaderOfCopy(b, off, b[off..off + total]);
  }

  lemma HeaderOfCopy(b: Bytes, off: nat, c: Bytes)
    requires TlvHeader(b, off).Some? && Holds(b, off, c) && TlvHeader(b, off).value.hlen <= |c|
    ensures TlvHeader(c, 0) == TlvHeader(b, off)
  {
    HeaderInside(b, off);
    assert c[0] == b[off + 0] && c[1] == b[off + 1];
    if c[1] >= 128 {
      OctetsOfCopy(b, off, c, 2, c[1] - 128);
    }
  }

  /** A part as long as its header says is never overrun. */
  lemma WholeTbsNeverPanics(tbs: Bytes)
    requires TlvHeader(tbs, 0).Some? ==> TlvHeader(tbs, 0).value.hlen + TlvHeader(tbs, 0).value.len <= |tbs|
    ensures !SpkiOfTbs(tbs).Panic?
  {
    if TlvHeader(tbs, 0).Some? {
      var h := TlvHeader(tbs, 0).value;
      ChildrenInside(tbs, h.hlen, h.hlen + h.len);
    }
  }

  /** Extraction runs off the end of its input exactly when the first inner element
      announces more than there is and the outer one vouches for it: the walker checks
      lengths against the announced end only. */
  lemma PanicsIff(cert: Bytes)
    ensures Extract(cert).Panic? <==>
              var outer := TlvHeader(cert, 0);
              outer.Some? && outer.value.len > 0
              && var inner := TlvHeader(cert, outer.value.hlen);
                 inner.Some? && inner.value.hlen + inner.value.len <= outer.value.len
                 && outer.value.hlen + inner.value.hlen + inner.value.len > |cert|
  {
    var outer := TlvHeader(cert, 0);
    if outer.Some? {
      var start, end := outer.value.hlen, outer.value.hlen + outer.value.len;
      var top := Children(cert, start, end);
      if top != [] && top[0].0 + top[0].1 <= |cert| {
        FirstChild(cert, start, end);
        WholeTbsNeverPanics(cert[top[0].0..top[0].0 + top[0].1]);
      }
    }
  }

  /** The shortest such input. */
  lemma TruncatedPanics()
    ensures Extract([0x30, 0x20, 0x30, 0x10]).Panic?
  {
    var b: Bytes := [0x30, 0x20, 0x30, 0x10];
    assert TlvHeader(b, 0) == Some(Header(0x30, 0x20, 2));
    assert TlvHeader(b, 2) == Some(Header(0x30, 0x10, 2));
    PanicsIff(b);
  }

  /** SEQUENCE of elements. */
  function Seq(parts: seq<Tlv>): Tlv { Tlv(0x30, PrintAll(parts)) }

  lemma SeqChildren(b: Bytes, parts: seq<Tlv>)
    requires Printable(Seq(parts)) && AllPrintable(parts) && Holds(b, 0, Print(Seq(parts)))
    ensures var h := TlvHeader(b, 0);
            && h.Some? && Holds(b, h.value.hlen, PrintAll(parts))
            && Children(b, h.value.hlen, h.value.hlen + h.value.len) == Boundaries(parts, h.value.hlen)
  {
    PrintedHeader(b, 0, Seq(parts));
    ChildrenOfPrinted(b, TlvHeader(b, 0).value.hlen, parts, |Print(Seq(parts))|);
  }

  /** Where the key stands among the parts of a to-be-signed sequence. */
  function KeyIndex(parts: seq<Tlv>): nat {
    if parts != [] && parts[0].tag == 0xa0 then 6 else 5
  }

  /** What extraction makes of a to-be-signed sequence of these parts. */
  function Expected(parts: seq<Tlv>): Extracted {
    if KeyIndex(parts) >= |parts| || !HasEd25519Oid(Print(parts[KeyIndex(parts)])) then Error
    else Spki(Print(parts[KeyIndex(parts)]))
  }

  lemma PickPrinted(b: Bytes, start: nat, parts: seq<Tlv>)
    requires Holds(b, start, PrintAll(parts))
    ensures PickSpki(b, Boundaries(parts, start)) == Expected(parts)
  {
    if parts != [] {
      ElementAt(b, start, parts, 0);
      FirstPrinted(b, start, parts);
      assert b[start + 0] == Print(parts[0])[0];
      var k := KeyIndex(parts);
      if k < |parts| {
        ElementAt(b, start, parts, k);
        HoldsSlice(b, Boundaries(parts, start)[k].0, Print(parts[k]));
      }
    }
  }

  lemma SpkiOfPrinted(tbs: Bytes, parts: seq<Tlv>)
    requires Printable(Seq(parts)) && AllPrintable(parts) && Holds(tbs, 0, Print(Seq(parts)))
    ensures SpkiOfTbs(tbs) == Expected(parts)
  {
    SeqChildren(tbs, parts);
    PickPrinted(tbs, TlvHeader(tbs, 0).value.hlen, parts);
  }

  /** Extraction from any certificate assembled from elements below 4 GiB: whatever
      the other elements hold, with or without a version, and whatever follows, the key
      element comes out byte for byte if it is there and holds the Ed25519 identifier, and
      it is an error otherwise. */
  lemma ExtractFromPrinted(cert: Bytes, parts: seq<Tlv>, after: seq<Tlv>)
    requires Printable(Seq([Seq(parts)] + after)) && AllPrintable([Seq(parts)] + after) && AllPrintable(parts)
    requires Holds(cert, 0, Print(Seq([Seq(parts)] + after)))
    ensures Extract(cert) == Expected(parts)
  {
    var all := [Seq(parts)] + after;
    assert all[0] == Seq(parts);
    SeqChildren(cert, all);
    var hlen := TlvHeader(cert, 0).value.hlen;
    ElementAt(cert, hlen, all, 0);
    HoldsSlice(cert, hlen, Print(Seq(parts)));
    SpkiOfPrinted(Print(Seq(parts)), parts);
  }

  /** From any bytes at all, only an element that holds the identifier is extracted. */
  lemma ExtractedHasOid(cert: Bytes)
    ensures Extract(cert).Spki? ==> HasEd25519Oid(Extract(cert).bytes)
  {
    if Extract(cert).Spki? {
      var h := TlvHeader(cert, 0).value;
      var (off, total) := Children(cert, h.hlen, h.hlen + h.len)[0];
      var tbs := cert[off..off + total];
      assert Extract(cert) == SpkiOfTbs(tbs);
      var g := TlvHeader(tbs, 0).value;
      PickedHasOid(tbs, Children(tbs, g.hlen, g.hlen + g.len));
    }
  }

  lemma PickedHasOid(tbs: Bytes, kids: seq<(nat, nat)>)
    ensures PickSpki(tbs, kids).Spki? ==> HasEd25519Oid(PickSpki(tbs, kids).bytes)
  {
  }

  /** Base 128, most significant first, continuation bits on all but the last. */
  function Base128(v: nat, last: bool): Bytes
    decreases v
  {
    var here := [v % 128 + (if last then 0 else 128)];
    if v < 128 then here else Base128(v / 128, false) + here
  }

  function Arcs(arcs: seq<nat>): Bytes {
    if arcs == [] then [] else Base128(arcs[0], true) + Arcs(arcs[1..])
  }

  /** OBJECT IDENTIFIER. */
  function Oid(arcs: seq<nat>): Tlv
    requires |arcs| >= 2
  {
    Tlv(0x06, [(arcs[0] * 40 + arcs[1]) % 256] + Arcs(arcs[2..]))
  }

  function BitString(b: Bytes): Tlv { Tlv(0x03, [0] + b) }

  function Ed25519AlgId(): Tlv { Seq([Oid([1, 3, 101, 112])]) }

  function Ed25519Spki(raw: Bytes): Tlv { Seq([Ed25519AlgId(), BitString(raw)]) }

  /** The fixed prefix the Rust side puts in front of a raw key. */
  const SPKI_PREFIX: Bytes := [0x30, 0x2a, 0x30, 0x05, 0x06, 0x03, 0x2b, 0x65, 0x70, 0x03, 0x21, 0x00]

  lemma OidBytes()
    ensures Print(Oid([1, 3, 101, 112])) == ED25519_OID
    ensures Print(Ed25519AlgId()) == [0x30, 0x05] + ED25519_OID
  {
    var arcs := [1, 3, 101, 112];
    assert arcs[2..] == [101, 112] && [101, 112][1..] == [112] && [112][1..] == [];
    assert Arcs([]) == [];
    assert Arcs([112]) == [112];
    assert Arcs([101, 112]) == [101, 112];
    var o := Oid(arcs);
    assert [o][1..] == [];
    assert PrintAll([o]) == Print(o) + [];
  }

  /** Both implementations give a 32-byte key the same SPKI, hence the same
      fingerprint. */
  lemma SpkiAgrees(raw: Bytes)
    requires |raw| == 32
    ensures Print(Ed25519Spki(raw)) == SPKI_PREFIX + raw
  {
    OidBytes();
    SpkiParts(raw);
    KeyBits(raw);
    var alg: Bytes := [0x30, 0x05] + ED25519_OID;
    var bits: Bytes := [0x03, 0x21, 0x00];
    assert Ed25519Spki(raw).content == alg + (bits + raw);
    assert [0x30, 0x2a] + (alg + (bits + raw)) == SPKI_PREFIX + raw;
  }

  lemma KeyBits(raw: Bytes)
    requires |raw| == 32
    ensures Print(BitString(raw)) == [0x03, 0x21, 0x00] + raw
  {
    assert LengthField(33) == [0x21];
  }

  lemma SpkiParts(raw: Bytes)
    ensures PrintAll([Ed25519AlgId(), BitString(raw)]) == Print(Ed25519AlgId()) + Print(BitString(raw))
  {
    var parts := [Ed25519AlgId(), BitString(raw)];
    assert parts[1..] == [BitString(raw)] && parts[1..][1..] == [];
    assert PrintAll(parts[1..]) == Print(BitString(raw)) + [];
  }

  lemma SpkiHasOid(raw: Bytes)
    ensures HasEd25519Oid(Print(Ed25519Spki(raw)))
  {
    OidBytes();
    SpkiParts(raw);
    var t := Ed25519Spki(raw);
    var b := Print(t);
    var k := 1 + |LengthField(|t.content|)| + 2;
    assert OidAt(b, k);
  }

  /** INTEGER from unsigned bytes: leading zeros dropped, one put back for the sign. */
  function Trimmed(b: Bytes): Bytes
    decreases |b|
  {
    if |b| > 1 && b[0] == 0 then Trimmed(b[1..]) else b
  }

  function Int(b: Bytes): Tlv {
    var t := Trimmed(b);
    var t' := if t == [] then [0] else t;
    Tlv(0x02, if t'[0] >= 128 then [0] + t' else t')
  }

  lemma {:induction false} LeadingZero(b: Bytes)
    ensures FromBigEndian([0] + b) == FromBigEndian(b)
    decreases |b|
  {
    if b == [] {
      assert ([0] + b)[..0] == [];
    } else {
      var k := |b| - 1;
      assert ([0] + b)[..k + 1] == [0] + b[..k];
      LeadingZero(b[..k]);
    }
  }

  lemma {:induction false} TrimmedValue(b: Bytes)
    ensures FromBigEndian(Trimmed(b)) == FromBigEndian(b)
    ensures |Trimmed(b)| > 1 ==> Trimmed(b)[0] != 0
    ensures b != [] ==> Trimmed(b) != []
    decreases |b|
  {
    if |b| > 1 && b[0] == 0 {
      assert b == [0] + b[1..];
      LeadingZero(b[1..]);
      TrimmedValue(b[1..]);
    }
  }

  /** An INTEGER is the shortest encoding of the unsigned number that reads as positive. */
  lemma IntIsUnsigned(b: Bytes)
    ensures var c := Int(b).content;
            && c != [] && FromBigEndian(c) == FromBigEndian(b) && c[0] < 128
            && (|c| > 1 && c[0] == 0 ==> c[1] >= 128)
  {
    TrimmedValue(b);
    var t := Trimmed(b);
    assert FromBigEndian([0]) == 256 * FromBigEndian([0][..0]) + 0;
    LeadingZero(t);
  }

  /** The number in base-128 digits. */
  function Digits(b: Bytes): nat {
    if b == [] then 0 else 128 * Digits(b[..|b| - 1]) + b[|b| - 1] % 128
  }

  /** An arc is its number in base-128 digits, with the high bit on all but the last. */
  lemma {:induction false} ArcIsItsNumber(v: nat, last: bool)
    ensures var d := Base128(v, last);
            && d != [] && Digits(d) == v && (d[|d| - 1] >= 128 <==> !last)
            && forall i :: 0 <= i < |d| - 1 ==> d[i] >= 128
    decreases v
  {
    var d := Base128(v, last);
    if v < 128 {
      assert d[..0] == [];
    } else {
      ArcIsItsNumber(v / 128, false);
      assert d[..|d| - 1] == Base128(v / 128, false);
    }
  }

  /** The parts of the SDK's self-signed certificate; names, dates and extensions may
      be any elements. */
  function CertParts(serial: Bytes, name: Tlv, validity: Tlv, raw: Bytes, extensions: Tlv): seq<Tlv> {
    [Tlv(0xa0, Print(Int([2]))), Int(serial), Ed25519AlgId(), name, validity, name, Ed25519Spki(raw), extensions]
  }

  /** The Rust side extracts from a certificate of the TypeScript SDK the key it was
      built with, byte for byte. */
  lemma CertificateRoundTrip(serial: Bytes, name: Tlv, validity: Tlv, raw: Bytes, extensions: Tlv, sig: Bytes)
    requires var parts := CertParts(serial, name, validity, raw, extensions);
             && Printable(Seq([Seq(parts), Ed25519AlgId(), BitString(sig)]))
             && Printable(Seq(parts)) && Printable(BitString(sig)) && AllPrintable(parts)
    ensures var parts := CertParts(serial, name, validity, raw, extensions);
            Extract(Print(Seq([Seq(parts), Ed25519AlgId(), BitString(sig)]))) == Spki(Print(Ed25519Spki(raw)))
  {
    var parts := CertParts(serial, name, validity, raw, extensions);
    var after := [Ed25519AlgId(), BitString(sig)];
    assert parts[2] == Ed25519AlgId() && parts[6] == Ed25519Spki(raw);
    SpkiHasOid(raw);
    assert [Seq(parts)] + after == [Seq(parts), Ed25519AlgId(), BitString(sig)];
    var cert := Print(Seq([Seq(parts)] + after));
    ExtractFromPrinted(cert, parts, after);
  }
}
