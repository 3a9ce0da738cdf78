/**
 WebSocket transport of a session: the frame codec (sections 5.2 and 5.3 of RFC
 6455) and the reassembly of fragmented binary messages (section 5.4) into the
 session's byte stream.
 */
module WebSocket {
  import opened Bytes
  import opened Incremental
  import opened Options

  const MAX_WS_MESSAGE: nat := 2 * 1024 * 1024
  const CONTINUATION: Byte := 0
  const BINARY: Byte := 2
  const CLOSE: Byte := 8
  const PING: Byte := 9
  const PONG: Byte := 10

  /** A frame as it is on the wire: `mask` is the 4-byte masking key or empty. */
  datatype WsFrame = WsFrame(fin: bool, opcode: Byte, mask: Bytes, payload: Bytes)

  /** A frame a peer may send: key present or not, payload within the cap. */
  predicate FrameOk(f: WsFrame) {
    f.opcode < 16 && (|f.mask| == 0 || |f.mask| == 4) && |f.payload| <= MAX_WS_MESSAGE
  }

  /** Masking; with no key the data is sent as it is. */
  function Masked(mask: Bytes, data: Bytes): (r: Bytes)
    requires |mask| == 0 || |mask| == 4
    ensures |r| == |data|
  {
    if mask == [] then data
    else seq(|data|, i requires 0 <= i < |data| => XorByte(data[i], mask[i % 4]))
  }

  lemma MaskedTwice(mask: Bytes, data: Bytes)
    requires |mask| == 0 || |mask| == 4
    ensures Masked(mask, Masked(mask, data)) == data
  {
    if mask != [] {
      forall i | 0 <= i < |data| ensures Masked(mask, Masked(mask, data))[i] == data[i] {
        XorTwice(data[i], mask[i % 4]);
      }
    }
  }

  /** The decoder's unmasking loop, in place on the copied payload. */
  method Unmask(mask: Bytes, payload: array<Byte>)
    requires |mask| == 4
    modifies payload
    ensures payload[..] == Masked(mask, old(payload[..]))
  {
    var i := 0;
    while i < payload.Length
      invariant 0 <= i <= payload.Length
      invariant forall j :: 0 <= j < i ==> payload[j] == XorByte(old(payload[j]), mask[j % 4])
      invariant forall j :: i <= j < payload.Length ==> payload[j] == old(payload[j])
    {
      payload[i] := XorByte(payload[i], mask[i % 4]);
      i := i + 1;
    }
  }

  /** The length field in its three forms; `high` is the mask bit. */
  function LengthField(high: nat, len: nat): Bytes
    requires high == 0 || high == 128
  {
    if len < 126 then [high + len]
    else if len < 65536 then [high + 126] + ToBigEndian(len, 2)
    else [high + 127] + ToBigEndian(len, 8)
  }

  function Encode(f: WsFrame): Bytes
    requires FrameOk(f)
  {
    [(if f.fin then 128 else 0) + f.opcode] +
    (LengthField(if f.mask == [] then 0 else 128, |f.payload|) + (f.mask + Masked(f.mask, f.payload)))
  }

  /** The server's encoder: one unmasked final frame. */
  function WsEncode(opcode: Byte, payload: Bytes): Bytes {
    [128 + opcode % 16] + LengthField(0, |payload|) + payload
  }

  /** Header facts: payload length, where the masking key starts, and whether the
      length field is complete. */
  datatype Header = Short | Header(len: nat, ptr: nat)

  function HeaderOf(b: Bytes): Header
    requires |b| >= 2
  {
    var len := b[1] % 128;
    if len == 126 then if |b| < 4 then Short else Header(FromBigEndian(b[2..4]), 4)
    else if len == 127 then if |b| < 10 then Short else Header(FromBigEndian(b[2..10]), 10)
    else Header(len, 2)
  }

  /** What the decoder makes of the bytes at its offset. */
  function FrontFrame(b: Bytes): Front<WsFrame> {
    if |b| < 2 then More
    else match HeaderOf(b)
      case Short => More
      case Header(len, ptr) =>
        if len > MAX_WS_MESSAGE then Reject
        else
          var maskLen := if b[1] >= 128 then 4 else 0;
          if |b| < ptr + maskLen + len then More
          else
            var mask := b[ptr..ptr + maskLen];
            var payload := Masked(mask, b[ptr + maskLen..ptr + maskLen + len]);
            Item(WsFrame(b[0] >= 128, b[0] % 16, mask, payload), ptr + maskLen + len)
  }

  function Reads(): Parser<WsFrame> { b => FrontFrame(b) }

  function Writes(): WsFrame -> Bytes { f => if FrameOk(f) then Encode(f) else [] }

  function Sendable(): WsFrame -> bool { f => FrameOk(f) }

  lemma HeaderExtends(b: Bytes, x: Bytes)
    requires |b| >= 2 && HeaderOf(b).Header?
    ensures HeaderOf(b + x) == HeaderOf(b)
  {
    if b[1] % 128 == 126 {
      assert (b + x)[2..4] == b[2..4];
    } else if b[1] % 128 == 127 {
      assert (b + x)[2..10] == b[2..10];
    }
  }

  lemma FrontExtends(b: Bytes, x: Bytes)
    requires !FrontFrame(b).More?
    ensures FrontFrame(b + x) == FrontFrame(b)
  {
    HeaderExtends(b, x);
    var h := HeaderOf(b);
    if h.len <= MAX_WS_MESSAGE {
      var maskLen := if b[1] >= 128 then 4 else 0;
      assert (b + x)[h.ptr..h.ptr + maskLen] == b[h.ptr..h.ptr + maskLen];
      assert (b + x)[h.ptr + maskLen..h.ptr + maskLen + h.len] == b[h.ptr + maskLen..h.ptr + maskLen + h.len];
    }
  }

  lemma ReadsIsStable()
    ensures Stable(Reads()) && Reads()([]).More?
  {
    forall b: Bytes, x: Bytes | !Reads()(b).More? ensures Reads()(b + x) == Reads()(b) {
      FrontExtends(b, x);
    }
  }

  lemma WideHeader(b: Bytes, code: nat, width: nat, len: nat, rest: Bytes)
    requires |b| >= 2 && b[1] % 128 == code && len < Pow256(width)
    requires (code == 126 && width == 2) || (code == 127 && width == 8)
    requires b[2..] == ToBigEndian(len, width) + rest
    ensures HeaderOf(b) == Header(len, 2 + width) && b[2 + width..] == rest
  {
    BigEndianRoundTrip(len, width);
    assert b[2..2 + width] == b[2..][..width] == ToBigEndian(len, width);
    assert b[2 + width..] == b[2..][width..];
  }

  lemma HeaderRoundTrip(b: Bytes, b0: Byte, high: nat, len: nat, rest: Bytes)
    requires (high == 0 || high == 128) && len <= MAX_WS_MESSAGE
    requires b == [b0] + (LengthField(high, len) + rest)
    ensures HeaderOf(b) == Header(len, 1 + |LengthField(high, len)|)
    ensures b[0] == b0 && (b[1] >= 128 <==> high == 128)
    ensures b[1 + |LengthField(high, len)|..] == rest
  {
    Pow256Values();
    if len < 126 {
    } else if len < 65536 {
      assert b[2..] == ToBigEndian(len, 2) + rest;
      WideHeader(b, 126, 2, len, rest);
    } else {
      assert b[2..] == ToBigEndian(len, 8) + rest;
      WideHeader(b, 127, 8, len, rest);
    }
  }

  /** A buffer whose header announces what follows it. */
  lemma FrameAt(b: Bytes, f: WsFrame, ptr: nat, x: Bytes)
    requires FrameOk(f) && |b| >= 2 && ptr <= |b|
    requires b[0] == (if f.fin then 128 else 0) + f.opcode && (b[1] >= 128 <==> f.mask != [])
    requires HeaderOf(b) == Header(|f.payload|, ptr)
    requires b[ptr..] == f.mask + Masked(f.mask, f.payload) + x
    ensures FrontFrame(b) == Item(f, ptr + |f.mask| + |f.payload|)
  {
    MaskedTwice(f.mask, f.payload);
    BodyRoundTrip(b, ptr, f.mask, Masked(f.mask, f.payload), x);
  }

  /** Decoding undoes encoding, whatever follows, for all three length forms. */
  lemma EncodeDecodes(f: WsFrame, x: Bytes)
    requires FrameOk(f)
    ensures FrontFrame(Encode(f) + x) == Item(f, |Encode(f)|)
  {
    var high := if f.mask == [] then 0 else 128;
    var b0 := (if f.fin then 128 else 0) + f.opcode;
    var field := LengthField(high, |f.payload|);
    var rest := f.mask + Masked(f.mask, f.payload) + x;
    var b := Encode(f) + x;
    assert b == [b0] + (field + rest);
    HeaderRoundTrip(b, b0, high, |f.payload|, rest);
    FrameAt(b, f, 1 + |field|, x);
  }

  lemma BodyRoundTrip(b: Bytes, ptr: nat, mask: Bytes, body: Bytes, x: Bytes)
    requires ptr <= |b| && b[ptr..] == mask + body + x
    ensures |b| >= ptr + |mask| + |body|
    ensures b[ptr..ptr + |mask|] == mask
    ensures b[ptr + |mask|..ptr + |mask| + |body|] == body
  {
    assert b[ptr..ptr + |mask|] == b[ptr..][..|mask|];
    assert b[ptr + |mask|..ptr + |mask| + |body|] == b[ptr..][|mask|..|mask| + |body|];
  }

  lemma WritesInvertsReads()
    ensures Inverts(Reads(), Writes(), Sendable())
  {
    forall f: WsFrame, x: Bytes | Sendable()(f)
      ensures Reads()(Writes()(f) + x) == Item(f, |Writes()(f)|)
    {
      EncodeDecodes(f, x);
    }
  }

  /** `ws_decode` inverts `ws_encode`. */
  lemma WsRoundTrip(opcode: Byte, payload: Bytes)
    requires |payload| <= MAX_WS_MESSAGE
    ensures ParseAll(Reads(), WsEncode(opcode, payload))
         == Outcome([WsFrame(true, opcode % 16, [], payload)], [], false)
  {
    var f := WsFrame(true, opcode % 16, [], payload);
    assert WsEncode(opcode, payload) == Encode(f);
    EncodeDecodes(f, []);
    assert Encode(f) + [] == Encode(f);
    assert Encode(f)[|Encode(f)|..] == [];
    assert ParseAll(Reads(), []) == Outcome([], [], false);
  }

  /** `ws_decode`: complete frames, bytes consumed, and whether a frame was
      oversized, in which case nothing counts as consumed. */
  method WsDecode(buf: Bytes) returns (frames: seq<WsFrame>, consumed: nat, oversize: bool)
    ensures consumed <= |buf|
    ensures var o := ParseAll(Reads(), buf);
            && frames == o.items && oversize == o.rejected
            && (if oversize then consumed == 0 else buf[consumed..] == o.rest)
  {
    ReadsIsStable();
    frames, consumed, oversize := Scan(Reads(), buf);
    if oversize {
      consumed := 0;
    }
  }

  /** The bridge's state besides its read buffer: the message being assembled, the
      bytes written to the session, the pongs offered, and whether it stopped. */
  datatype Bridge = Bridge(fragment: Option<Bytes>, out: Bytes, pongs: seq<Bytes>, done: bool)

  function Fresh(): Bridge { Bridge(None, [], [], false) }

  predicate IsData(f: WsFrame) { f.opcode == BINARY || f.opcode == CONTINUATION }

  function Handle(s: Bridge, f: WsFrame): Bridge {
    if s.done then s
    else if IsData(f) then
      var cur := (if s.fragment.Some? then s.fragment.value else []) + f.payload;
      if |cur| > MAX_WS_MESSAGE then s.(fragment := None, done := true)
      else if f.fin then s.(fragment := None, out := s.out + cur)
      else s.(fragment := Some(cur))
    else if f.opcode == CLOSE then s.(done := true)
    else if f.opcode == PING then s.(pongs := s.pongs + [WsEncode(PONG, f.payload)])
    else s
  }

  function HandleAll(s: Bridge, fs: seq<WsFrame>): Bridge
    decreases |fs|
  {
    if fs == [] then s else HandleAll(Handle(s, fs[0]), fs[1..])
  }

  lemma {:induction false} HandleAppend(s: Bridge, a: seq<WsFrame>, b: seq<WsFrame>)
    ensures HandleAll(s, a + b) == HandleAll(HandleAll(s, a), b)
    decreases |a|
  {
    if a == [] {
      assert a + b == b;
    } else {
      assert (a + b)[1..] == a[1..] + b;
      HandleAppend(Handle(s, a[0]), a[1..], b);
    }
  }

  /** The bridge stops at a close frame, or when the message being assembled exceeds 2 MiB. */
  lemma BridgeStopsIff(s: Bridge, f: WsFrame)
    requires !s.done
    ensures Handle(s, f).done <==>
              || f.opcode == 8
              || (f.opcode in {0, 2} && (if s.fragment.Some? then |s.fragment.value| else 0) + |f.payload| > 2097152)
    ensures Handle(s, f).done ==> Handle(s, f).out == s.out && Handle(s, f).pongs == s.pongs
    ensures f.opcode !in {0, 2, 8, 9} ==> Handle(s, f) == s
    ensures f.opcode == 9 ==> Handle(s, f) == s.(pongs := Handle(s, f).pongs)
  {
  }

  /** The payloads of pings, in order. */
  function Pings(fs: seq<WsFrame>): seq<Bytes> {
    if fs == [] then [] else (if fs[0].opcode == 9 then [fs[0].payload] else []) + Pings(fs[1..])
  }

  /** A pong that carries this payload: one unmasked, final frame of opcode 10. */
  predicate Answers(pong: Bytes, payload: Bytes) {
    ParseAll(Reads(), pong) == Outcome([WsFrame(true, 10, [], payload)], [], false)
  }

  /** Behind the pongs in `was` comes one answer for each payload, in order. */
  ghost predicate AnswerAll(pongs: seq<Bytes>, was: seq<Bytes>, payloads: seq<Bytes>) {
    && |pongs| == |was| + |payloads| && was <= pongs
    && forall i :: 0 <= i < |payloads| ==> Answers(pongs[|was| + i], payloads[i])
  }

  /** One more ping and its answer in front. */
  lemma AnswersShift(pongs: seq<Bytes>, was: seq<Bytes>, pong: Bytes, payload: Bytes, rest: seq<Bytes>)
    requires Answers(pong, payload) && AnswerAll(pongs, was + [pong], rest)
    ensures AnswerAll(pongs, was, [payload] + rest)
  {
    assert pongs[|was|] == (was + [pong])[|was|] == pong;
    forall i | 0 <= i < |[payload] + rest| ensures Answers(pongs[|was| + i], ([payload] + rest)[i]) {
      if i > 0 {
        assert Answers(pongs[|was + [pong]| + (i - 1)], rest[i - 1]);
      }
    }
  }

  lemma PongIsAnswer(payload: Bytes)
    requires |payload| <= 2097152
    ensures Answers(WsEncode(10, payload), payload)
  {
    WsRoundTrip(10, payload);
  }

  lemma PongAdded(s: Bridge, f: WsFrame)
    requires !s.done
    ensures Handle(s, f).pongs == if f.opcode == 9 then s.pongs + [WsEncode(10, f.payload)] else s.pongs
  {
  }

  /** Every ping is answered by a pong with its payload, in order, as long as the bridge
      has not stopped. */
  lemma {:induction false} PongsAnswerPings(s: Bridge, fs: seq<WsFrame>)
    requires !HandleAll(s, fs).done && forall i :: 0 <= i < |fs| ==> |fs[i].payload| <= 2097152
    ensures AnswerAll(HandleAll(s, fs).pongs, s.pongs, Pings(fs))
    decreases |fs|
  {
    if fs != [] {
      DoneStays(s, fs);
      PongAdded(s, fs[0]);
      PongsAnswerPings(Handle(s, fs[0]), fs[1..]);
      if fs[0].opcode == 9 {
        PongIsAnswer(fs[0].payload);
        AnswersShift(HandleAll(s, fs).pongs, s.pongs, WsEncode(10, fs[0].payload), fs[0].payload, Pings(fs[1..]));
      } else {
        assert [] + Pings(fs[1..]) == Pings(fs[1..]);
      }
    }
  }

  /** A frame is oversized, whatever follows, if and only if it announces more than 2 MiB. */
  lemma RejectsIff(b: Bytes)
    ensures FrontFrame(b).Reject? <==> |b| >= 10 && b[1] % 128 == 127 && FromBigEndian(b[2..10]) > 2097152
  {
    if |b| >= 4 {
      BytesRoundTrip(b[2..4]);
      Pow256Values();
    }
  }

  /** One socket read after another. */
  function Bridged(s: Bridge, buf: Bytes, pieces: seq<Bytes>): Bridge
    decreases |pieces|
  {
    if pieces == [] || s.done then s
    else
      var o := ParseAll(Reads(), buf + pieces[0]);
      if o.rejected then s.(done := true)
      else Bridged(HandleAll(s, o.items), o.rest, pieces[1..])
  }

  /** The WebSocket-to-session task. */
  class WsBridge {
    var buf: Bytes
    var fragment: Option<Bytes>
    var out: Bytes
    var pongs: seq<Bytes>
    var done: bool

    constructor (rest: Bytes)
      ensures buf == rest && State() == Fresh()
    {
      buf, fragment, out, pongs, done := rest, None, [], [], false;
    }

    ghost function State(): Bridge
      reads this
    {
      Bridge(fragment, out, pongs, done)
    }

    /** One frame of the decoded batch. */
    method HandleFrame(f: WsFrame)
      requires !done
      modifies this`fragment, this`out, this`pongs, this`done
      ensures State() == Handle(old(State()), f)
    {
      if f.opcode == BINARY || f.opcode == CONTINUATION {
        var cur := f.payload;
        if fragment.Some? {
          cur := fragment.value + f.payload;
        } else {
          assert [] + f.payload == f.payload;
        }
        fragment := None;
        if |cur| > MAX_WS_MESSAGE {
          done := true;
          return;
        }
        if f.fin {
          out := out + cur;
        } else {
          fragment := Some(cur);
        }
      } else if f.opcode == CLOSE {
        done := true;
      } else if f.opcode == PING {
        pongs := pongs + [WsEncode(PONG, f.payload)];
      }
    }

    /** One turn of the reading loop: the bytes of one read. */
    method Receive(chunk: Bytes)
      requires !done
      modifies this
      ensures var o := ParseAll(Reads(), old(buf) + chunk);
              if o.rejected then State() == old(State()).(done := true)
              else State() == HandleAll(old(State()), o.items) && buf == o.rest
    {
      buf := buf + chunk;
      var frames, consumed, oversize := WsDecode(buf);
      buf := buf[consumed..];
      if oversize {
        done := true;
        return;
      }
      var i := 0;
      while i < |frames| && !done
        invariant 0 <= i <= |frames|
        invariant HandleAll(State(), frames[i..]) == HandleAll(old(State()), frames)
        modifies this`fragment, this`out, this`pongs, this`done
      {
        assert frames[i..][0] == frames[i] && frames[i..][1..] == frames[i + 1..];
        HandleFrame(frames[i]);
        i := i + 1;
      }
      DoneStays(State(), frames[i..]);
    }
  }

  lemma {:induction false} DoneStays(s: Bridge, fs: seq<WsFrame>)
    ensures s.done ==> HandleAll(s, fs) == s
    decreases |fs|
  {
    if fs != [] {
      DoneStays(Handle(s, fs[0]), fs[1..]);
    }
  }

  /** The frames of one binary message cut into `parts`: the first says binary, the
      rest continue it, and only the last is final. */
  predicate CutsMessage(fs: seq<WsFrame>, parts: seq<Bytes>) {
    && |fs| == |parts| > 0
    && forall i :: 0 <= i < |fs| ==>
         && fs[i].payload == parts[i]
         && fs[i].opcode == (if i == 0 then BINARY else CONTINUATION)
         && (fs[i].fin <==> i == |fs| - 1)
  }

  function DataFrames(fs: seq<WsFrame>): seq<WsFrame> {
    if fs == [] then []
    else (if IsData(fs[0]) then [fs[0]] else []) + DataFrames(fs[1..])
  }

  /** `fs` are the data frames of the messages `ms` in order, each cut arbitrarily. */
  ghost predicate Carries(fs: seq<WsFrame>, ms: seq<seq<Bytes>>)
    decreases |ms|
  {
    if ms == [] then fs == []
    else
      && |ms[0]| <= |fs|
      && CutsMessage(fs[..|ms[0]|], ms[0])
      && |Concat(ms[0])| <= MAX_WS_MESSAGE
      && Carries(fs[|ms[0]|..], ms[1..])
  }

  function Payloads(ms: seq<seq<Bytes>>): Bytes {
    if ms == [] then [] else Concat(ms[0]) + Payloads(ms[1..])
  }

  predicate SameData(s: Bridge, t: Bridge) {
    s.fragment == t.fragment && s.out == t.out && s.done == t.done
  }

  /** Control frames between the fragments change nothing but the pongs. */
  lemma {:induction false} ControlsDoNotDisturb(s: Bridge, t: Bridge, fs: seq<WsFrame>)
    requires SameData(s, t) && forall i :: 0 <= i < |fs| ==> fs[i].opcode != CLOSE
    ensures SameData(HandleAll(s, fs), HandleAll(t, DataFrames(fs)))
    decreases |fs|
  {
    if fs != [] {
      var rest := DataFrames(fs[1..]);
      if IsData(fs[0]) {
        assert ([fs[0]] + rest)[1..] == rest;
        ControlsDoNotDisturb(Handle(s, fs[0]), Handle(t, fs[0]), fs[1..]);
      } else {
        assert [] + rest == rest;
        ControlsDoNotDisturb(Handle(s, fs[0]), t, fs[1..]);
      }
    }
  }

  lemma {:induction false} ConcatPrefix(parts: seq<Bytes>, k: nat)
    requires k < |parts|
    ensures Concat(parts[..k + 1]) == Concat(parts[..k]) + parts[k]
    ensures |Concat(parts[..k + 1])| <= |Concat(parts)|
  {
    assert parts[..k + 1] == parts[..k] + [parts[k]];
    ConcatAppend(parts[..k], [parts[k]]);
    ConcatOne(parts[k]);
    assert parts == parts[..k + 1] + parts[k + 1..];
    ConcatAppend(parts[..k + 1], parts[k + 1..]);
  }

  /** After `k` fragments the bridge holds their concatenation and wrote nothing. */
  lemma {:induction false} FragmentsAccumulate(s: Bridge, fs: seq<WsFrame>, parts: seq<Bytes>, k: nat)
    requires CutsMessage(fs, parts) && |Concat(parts)| <= MAX_WS_MESSAGE
    requires s.fragment.None? && !s.done && k <= |fs|
    ensures HandleAll(s, fs[..k]) ==
            if k == 0 then s
            else if k < |fs| then s.(fragment := Some(Concat(parts[..k])))
            else s.(out := s.out + Concat(parts))
    decreases k
  {
    if k > 0 {
      var j := k - 1;
      FragmentsAccumulate(s, fs, parts, j);
      ConcatPrefix(parts, j);
      assert fs[..k] == fs[..j] + [fs[j]];
      HandleAppend(s, fs[..j], [fs[j]]);
      assert [fs[j]][1..] == [];
      assert parts[..0] == [] && parts[..|parts|] == parts;
    }
  }

  lemma {:induction false} MessagesReassemble(s: Bridge, fs: seq<WsFrame>, ms: seq<seq<Bytes>>)
    requires Carries(fs, ms) && s.fragment.None? && !s.done
    ensures HandleAll(s, fs) == s.(out := s.out + Payloads(ms))
    decreases |ms|
  {
    if ms == [] {
      assert s.out + [] == s.out;
    } else {
      var k := |ms[0]|;
      assert fs == fs[..k] + fs[k..];
      HandleAppend(s, fs[..k], fs[k..]);
      FragmentsAccumulate(s, fs[..k], ms[0], k);
      assert fs[..k][..k] == fs[..k];
      var t := s.(out := s.out + Concat(ms[0]));
      MessagesReassemble(t, fs[k..], ms[1..]);
      assert (s.out + Concat(ms[0])) + Payloads(ms[1..]) == s.out + Payloads(ms);
    }
  }

  lemma {:induction false} BridgedIsHandleAll(s: Bridge, buf: Bytes, pieces: seq<Bytes>)
    requires !Feed(Reads(), buf, pieces).rejected
    ensures Bridged(s, buf, pieces) == HandleAll(s, Feed(Reads(), buf, pieces).items)
    decreases |pieces|
  {
    DoneStays(s, Feed(Reads(), buf, pieces).items);
    if pieces != [] && !s.done {
      var o := ParseAll(Reads(), buf + pieces[0]);
      var rest := Feed(Reads(), o.rest, pieces[1..]);
      HandleAppend(s, o.items, rest.items);
      BridgedIsHandleAll(HandleAll(s, o.items), o.rest, pieces[1..]);
    }
  }

  lemma {:induction false} OutGrows(s: Bridge, fs: seq<WsFrame>)
    ensures s.out <= HandleAll(s, fs).out
    decreases |fs|
  {
    if fs != [] {
      OutGrows(Handle(s, fs[0]), fs[1..]);
    }
  }

  /** Reassembly end to end: a peer cuts binary messages within the cap into frames,
      masks each or not, puts pings, pongs and other non-close frames between them,
      and the network delivers the bytes in arbitrary pieces. What the session has
      received is at all times a prefix of the payloads, and once everything arrived
      it is exactly the payloads. */
  lemma Reassembly(ms: seq<seq<Bytes>>, fs: seq<WsFrame>, pieces: seq<Bytes>)
    requires forall i :: 0 <= i < |fs| ==> FrameOk(fs[i]) && fs[i].opcode != CLOSE
    requires Carries(DataFrames(fs), ms)
    requires Concat(pieces) <= EncodeAll(Writes(), fs)
    ensures var s := Bridged(Fresh(), [], pieces);
            && s.out <= Payloads(ms)
            && (Concat(pieces) == EncodeAll(Writes(), fs) ==> s.out == Payloads(ms) && !s.done && s.fragment.None?)
  {
    var got := Feed(Reads(), [], pieces).items;
    FramesDelivered(fs, pieces);
    BridgedIsHandleAll(Fresh(), [], pieces);
    AllHandled(ms, fs);
    assert fs == got + fs[|got|..];
    HandleAppend(Fresh(), got, fs[|got|..]);
    OutGrows(HandleAll(Fresh(), got), fs[|got|..]);
  }

  lemma FramesDelivered(fs: seq<WsFrame>, pieces: seq<Bytes>)
    requires forall i :: 0 <= i < |fs| ==> FrameOk(fs[i])
    requires Concat(pieces) <= EncodeAll(Writes(), fs)
    ensures var o := Feed(Reads(), [], pieces);
            !o.rejected && o.items <= fs && (Concat(pieces) == EncodeAll(Writes(), fs) ==> o.items == fs)
  {
    ReadsIsStable();
    WritesInvertsReads();
    assert forall i :: 0 <= i < |fs| ==> Sendable()(fs[i]);
    ChunkedDelivery(Reads(), Writes(), Sendable(), fs, pieces);
  }

  lemma AllHandled(ms: seq<seq<Bytes>>, fs: seq<WsFrame>)
    requires forall i :: 0 <= i < |fs| ==> FrameOk(fs[i]) && fs[i].opcode != CLOSE
    requires Carries(DataFrames(fs), ms)
    ensures var s := HandleAll(Fresh(), fs); s.out == Payloads(ms) && !s.done && s.fragment.None?
  {
    ControlsDoNotDisturb(Fresh(), Fresh(), fs);
    MessagesReassemble(Fresh(), DataFrames(fs), ms);
    assert Fresh().out + Payloads(ms) == Payloads(ms);
  }
}
