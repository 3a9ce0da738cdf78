/**
 Framing of the sync protocol and its incremental parser: a 4-byte big-endian
 length, a type byte and the payload. JSON is opaque text; `valid` says which byte
 strings the JSON library accepts.
 */
module SyncWire {
  import opened Bytes
  import opened Incremental

  const MSG_JSON: Byte := 1
  const MSG_BIN: Byte := 2
  const HEADER: nat := 5
  const MAX_MSG: nat := 8 * 1024 * 1024

  datatype Message = Json(payload: Bytes) | Bin(payload: Bytes)

  function Encode(m: Message): Bytes {
    ToBigEndian(|m.payload|, 4) + [if m.Json? then MSG_JSON else MSG_BIN] + m.payload
  }

  predicate WellFormed(valid: Bytes -> bool, m: Message) {
    |m.payload| <= MAX_MSG && (m.Json? ==> valid(m.payload))
  }

  /** What the parser makes of the bytes at its cursor. */
  function FrontMessage(valid: Bytes -> bool, b: Bytes): Front<Message> {
    if |b| < HEADER then More
    else
      var len := FromBigEndian(b[..4]);
      if len > MAX_MSG then Reject
      else if |b| < HEADER + len then More
      else
        var payload := b[HEADER..HEADER + len];
        if b[4] == MSG_JSON then
          if valid(payload) then Item(Json(payload), HEADER + len) else Reject
        else if b[4] == MSG_BIN then Item(Bin(payload), HEADER + len)
        else Reject
  }

  function Reads(valid: Bytes -> bool): Parser<Message> { b => FrontMessage(valid, b) }

  function Writes(): Message -> Bytes { m => Encode(m) }

  function Accepts(valid: Bytes -> bool): Message -> bool { m => WellFormed(valid, m) }

  lemma FrontExtends(valid: Bytes -> bool, b: Bytes, x: Bytes)
    requires !FrontMessage(valid, b).More?
    ensures FrontMessage(valid, b + x) == FrontMessage(valid, b)
  {
    assert (b + x)[..4] == b[..4];
    var len := FromBigEndian(b[..4]);
    if len <= MAX_MSG {
      assert (b + x)[HEADER..HEADER + len] == b[HEADER..HEADER + len];
    }
  }

  lemma ReadsIsStable(valid: Bytes -> bool)
    ensures Stable(Reads(valid)) && Reads(valid)([]).More?
  {
    forall b: Bytes, x: Bytes | !Reads(valid)(b).More?
      ensures Reads(valid)(b + x) == Reads(valid)(b)
    {
      FrontExtends(valid, b, x);
    }
  }

  lemma EncodeDecodes(valid: Bytes -> bool, m: Message, x: Bytes)
    requires WellFormed(valid, m)
    ensures FrontMessage(valid, Encode(m) + x) == Item(m, |Encode(m)|)
  {
    Pow256Values();
    BigEndianRoundTrip(|m.payload|, 4);
    var b := Encode(m) + x;
    assert b[..4] == ToBigEndian(|m.payload|, 4);
    assert b[HEADER..HEADER + |m.payload|] == m.payload;
  }

  lemma WritesInvertsReads(valid: Bytes -> bool)
    ensures Inverts(Reads(valid), Writes(), Accepts(valid))
  {
    forall m: Message, x: Bytes | Accepts(valid)(m)
      ensures Reads(valid)(Writes()(m) + x) == Item(m, |Writes()(m)|)
    {
      EncodeDecodes(valid, m, x);
    }
  }

  /** Only encodings of well-formed messages are read: what the parser takes off the front
      is the encoding of what it returns, of at most 8 MiB. */
  lemma ReadsOnlyEncodings(valid: Bytes -> bool, b: Bytes)
    requires FrontMessage(valid, b).Item?
    ensures var (m, used) := (FrontMessage(valid, b).value, FrontMessage(valid, b).used);
            && used <= |b| && b[..used] == Encode(m) && |m.payload| <= 8388608 && (m.Json? ==> valid(m.payload))
  {
    BytesRoundTrip(b[..4]);
    var (m, used) := (FrontMessage(valid, b).value, FrontMessage(valid, b).used);
    assert b[..used] == b[..4] + [b[4]] + b[5..used];
  }

  /** A stream is rejected for a length above 8 MiB as soon as that is seen, and for an
      unknown type or bad JSON once the message is complete; for nothing else. */
  lemma RejectsIff(valid: Bytes -> bool, b: Bytes)
    ensures FrontMessage(valid, b).Reject? <==>
              && |b| >= 5
              && var len := FromBigEndian(b[..4]);
                 || len > 8388608
                 || (5 + len <= |b| && b[4] != 1 && b[4] != 2)
                 || (5 + len <= |b| && b[4] == 1 && !valid(b[5..5 + len]))
    ensures FrontMessage(valid, b).More? <==>
              |b| < 5 || (FromBigEndian(b[..4]) <= 8388608 && |b| < 5 + FromBigEndian(b[..4]))
  {
  }

  datatype Pushed = Ok(messages: seq<Message>) | Err

  /** The incremental parser: `buf` holds the bytes of the incomplete last frame. */
  class SyncParser {
    var buf: Bytes

    constructor ()
      ensures buf == []
    {
      buf := [];
    }

    /** Feeds bytes and returns every message that became complete. A rejected
        stream loses the messages parsed by the same call, and keeps its buffer. */
    method Push(valid: Bytes -> bool, chunk: Bytes) returns (r: Pushed)
      modifies this
      ensures var o := ParseAll(Reads(valid), old(buf) + chunk);
              if o.rejected then r.Err? && buf == old(buf) + chunk
              else r == Ok(o.items) && buf == o.rest
    {
      buf := buf + chunk;
      var messages, cursor, rejected := Scan(Reads(valid), buf);
      if rejected {
        return Err;
      }
      if cursor > 0 {
        buf := buf[cursor..];
      }
      return Ok(messages);
    }

    /** The messages of a whole connection: one push per socket read. */
    method PushAll(valid: Bytes -> bool, pieces: seq<Bytes>) returns (r: Pushed)
      modifies this
      ensures var o := Feed(Reads(valid), old(buf), pieces);
              if o.rejected then r.Err? else r == Ok(o.items) && buf == o.rest
    {
      var messages: seq<Message> := [];
      ghost var all := Feed(Reads(valid), buf, pieces);
      var i := 0;
      while i < |pieces|
        invariant 0 <= i <= |pieces|
        invariant FedSoFar(Reads(valid), all, messages, buf, pieces[i..])
      {
        assert pieces[i..][0] == pieces[i] && pieces[i..][1..] == pieces[i + 1..];
        FeedOne(Reads(valid), all, messages, buf, pieces[i..]);
        var step := Push(valid, pieces[i]);
        if step.Err? {
          return Err;
        }
        messages := messages + step.messages;
        i := i + 1;
      }
      return Ok(messages);
    }
  }

  /** Incremental parsing of well-formed traffic: however the encoding of a list of
      messages is cut, and wherever the connection stops, the pushes return exactly
      the messages whose last byte arrived, in order; what is left in the buffer is
      a strict prefix of the next frame. */
  lemma ChunkedMessages(valid: Bytes -> bool, ms: seq<Message>, pieces: seq<Bytes>)
    requires forall i :: 0 <= i < |ms| ==> WellFormed(valid, ms[i])
    requires Concat(pieces) <= EncodeAll(Writes(), ms)
    ensures var o := Feed(Reads(valid), [], pieces);
            && !o.rejected && o.items <= ms
            && Concat(pieces) == EncodeAll(Writes(), o.items) + o.rest
            && (if |o.items| < |ms| then o.rest < Encode(ms[|o.items|]) else o.rest == [])
            && (Concat(pieces) == EncodeAll(Writes(), ms) ==> o.items == ms)
  {
    ReadsIsStable(valid);
    WritesInvertsReads(valid);
    assert forall i :: 0 <= i < |ms| ==> Accepts(valid)(ms[i]);
    ChunkedDelivery(Reads(valid), Writes(), Accepts(valid), ms, pieces);
  }

  /** Any traffic at all: cutting it into pieces changes neither whether it is
      rejected nor, if not, what comes out. */
  lemma CuttingIsInvisible(valid: Bytes -> bool, pieces: seq<Bytes>)
    ensures var fed, whole := Feed(Reads(valid), [], pieces), ParseAll(Reads(valid), Concat(pieces));
            && fed.rejected == whole.rejected && fed.items == whole.items
            && (!fed.rejected ==> fed.rest == whole.rest)
  {
    ReadsIsStable(valid);
    FeedIsParseAll(Reads(valid), [], pieces);
    assert [] + Concat(pieces) == Concat(pieces);
  }
}
