/**
 The RPC framing codec.

 A frame is a 4-byte length, a tag, a payload and a 4-byte Adler-32 checksum of
 tag and payload; the length counts everything after itself.  The payload format
 belongs to another library and is a parameter: a serialiser and a parser.
 */
module RpcCodec {
  import opened Shared
  import opened Bytes
  import opened IoBuffers
  import Adler32

  const HEADER_LENGTH: nat := 4
  const CHECKSUM_LENGTH: nat := 4
  const MAX_MESSAGE_LENGTH: nat := 64 * 1024 * 1024

  datatype ErrorCode = InvalidLength | ChecksumError | UnknownMessageType | ParseError

  /** `raw` is the raw-message callback: false means the frame is skipped. */
  datatype Codec<!M> = Codec(
    tag: seq<Byte>,
    serialize: M -> seq<Byte>,
    parse: seq<Byte> -> Option<M>,
    raw: seq<Byte> -> bool)
  {
    function MinMessageLength(): nat { |tag| + CHECKSUM_LENGTH }
  }

  /** The checksum as the signed 32-bit integer that is sent. */
  function Checksum(bs: seq<Byte>): (x: int)
    ensures Fits(x, 4)
  {
    ToSigned(Adler32.Checksum(bs), 4)
  }

  predicate ValidateChecksum(body: seq<Byte>)
    requires CHECKSUM_LENGTH <= |body|
  {
    BytesInt(body[|body| - CHECKSUM_LENGTH..]) == Checksum(body[..|body| - CHECKSUM_LENGTH])
  }

  datatype Parsed<+M> = Message(m: M) | Bad(code: ErrorCode)

  /** The body of a frame: tag, payload, checksum. */
  function Parse<M>(c: Codec<M>, body: seq<Byte>): Parsed<M>
    requires c.MinMessageLength() <= |body|
  {
    if !ValidateChecksum(body) then Bad(ChecksumError)
    else if body[..|c.tag|] != c.tag then Bad(UnknownMessageType)
    else
      match c.parse(body[|c.tag|..|body| - CHECKSUM_LENGTH])
      case None => Bad(ParseError)
      case Some(m) => Message(m)
  }

  /** What one pass over a buffer delivers, the error that ends it, and what stays in the buffer. */
  datatype Reading<+M> = Reading(messages: seq<M>, error: Option<ErrorCode>, rest: seq<Byte>)

  function Prepend<M>(ms: seq<M>, r: Reading<M>): Reading<M> { r.(messages := ms + r.messages) }

  /** What the loop of OnMessage finds at the front of the buffer. */
  datatype Front<+M> =
    | Wait                            // too few bytes for a frame
    | Fault(code: ErrorCode)
    | Skip(size: nat)                 // the raw callback declined the frame
    | Deliver(m: M, size: nat)

  function FrontOf<M>(c: Codec<M>, buf: seq<Byte>): (f: Front<M>)
    ensures f.Skip? || f.Deliver? ==> 0 < f.size <= |buf|
  {
    if |buf| < c.MinMessageLength() + HEADER_LENGTH then Wait
    else
      var len := BytesInt(buf[..HEADER_LENGTH]);
      if len > MAX_MESSAGE_LENGTH || len < c.MinMessageLength() then Fault(InvalidLength)
      else if |buf| < HEADER_LENGTH + len then Wait
      else if !c.raw(buf[..HEADER_LENGTH + len]) then Skip(HEADER_LENGTH + len)
      else
        match Parse(c, buf[HEADER_LENGTH..HEADER_LENGTH + len])
        case Bad(code) => Fault(code)
        case Message(m) => Deliver(m, HEADER_LENGTH + len)
  }

  /** OnMessage on a buffer with these contents. */
  function Scan<M>(c: Codec<M>, buf: seq<Byte>): (r: Reading<M>)
    decreases |buf|
  {
    match FrontOf(c, buf)
    case Wait => Reading([], None, buf)
    case Fault(code) => Reading([], Some(code), buf)
    case Skip(n) => Scan(c, buf[n..])
    case Deliver(m, n) => Prepend([m], Scan(c, buf[n..]))
  }

  /** Successive OnMessage calls, one per received chunk; `error` is the first one reported. */
  function Feed<M>(c: Codec<M>, buf: seq<Byte>, chunks: seq<seq<Byte>>): Reading<M>
    decreases |chunks|
  {
    if chunks == [] then Reading([], None, buf)
    else
      var first := Scan(c, buf + chunks[0]);
      var later := Feed(c, first.rest, chunks[1..]);
      Reading(first.messages + later.messages,
              if first.error.Some? then first.error else later.error,
              later.rest)
  }

  function Flatten(chunks: seq<seq<Byte>>): seq<Byte>
    decreases |chunks|
  {
    if chunks == [] then [] else chunks[0] + Flatten(chunks[1..])
  }

  lemma FlattenFirst(buf: seq<Byte>, chunks: seq<seq<Byte>>)
    requires chunks != []
    ensures buf + chunks[0] + Flatten(chunks[1..]) == buf + Flatten(chunks)
  {
  }

  // ---------------------------------------------------------------------------
  // What is accepted
  // ---------------------------------------------------------------------------

  /** The text followed by its own checksum. */
  function Summed(text: seq<Byte>): seq<Byte> { text + IntBytes(Checksum(text), 4) }

  lemma ValidIffSummed(body: seq<Byte>, text: seq<Byte>)
    requires CHECKSUM_LENGTH <= |body|
    ensures body == Summed(text) <==> ValidateChecksum(body) && text == body[..|body| - CHECKSUM_LENGTH]
  {
    var n := |body| - CHECKSUM_LENGTH;
    if body == Summed(text) {
      assert body[..n] == text && body[n..] == IntBytes(Checksum(text), 4);
      IntRoundTrip(Checksum(text), 4);
    }
    if ValidateChecksum(body) && text == body[..n] {
      BytesRoundTrip(body[n..]);
      assert body == body[..n] + body[n..];
    }
  }

  /** The body is the tag of the codec and this payload, with their checksum. */
  predicate Carries<M>(c: Codec<M>, body: seq<Byte>, payload: seq<Byte>) { body == Summed(c.tag + payload) }

  lemma CarriesIff<M>(c: Codec<M>, body: seq<Byte>, payload: seq<Byte>)
    requires c.MinMessageLength() <= |body|
    ensures Carries(c, body, payload) <==>
              && ValidateChecksum(body) && body[..|c.tag|] == c.tag
              && payload == body[|c.tag|..|body| - CHECKSUM_LENGTH]
  {
    var text := body[..|body| - CHECKSUM_LENGTH];
    ValidIffSummed(body, c.tag + payload);
    assert text == body[..|c.tag|] + body[|c.tag|..|body| - CHECKSUM_LENGTH];
    if text == c.tag + payload { assert text[..|c.tag|] == c.tag && text[|c.tag|..] == payload; }
  }

  /**
   A body is accepted as message `m` if and only if it is the codec's tag and a
   payload that parses to `m`, followed by the checksum of the two.
   */
  lemma ParsesIff<M>(c: Codec<M>, body: seq<Byte>, m: M)
    requires c.MinMessageLength() <= |body|
    ensures Parse(c, body) == Message(m) <==>
              exists payload :: Carries(c, body, payload) && c.parse(payload) == Some(m)
  {
    CarriesIff(c, body, body[|c.tag|..|body| - CHECKSUM_LENGTH]);
    forall payload | Carries(c, body, payload) ensures payload == body[|c.tag|..|body| - CHECKSUM_LENGTH] {
      CarriesIff(c, body, payload);
    }
  }

  /**
   Otherwise the error says why: the checksum is not that of the rest; it is, but
   the codec's tag is not in front; it is, but the payload does not parse.
   */
  lemma ParseErrorIff<M>(c: Codec<M>, body: seq<Byte>)
    requires c.MinMessageLength() <= |body|
    ensures Parse(c, body) == Bad(ChecksumError) <==> forall text :: body != Summed(text)
    ensures Parse(c, body) == Bad(UnknownMessageType) <==> exists text :: body == Summed(text) && !(c.tag <= text)
    ensures Parse(c, body) == Bad(ParseError) <==>
              exists payload :: Carries(c, body, payload) && c.parse(payload) == None
    ensures Parse(c, body) != Bad(InvalidLength)
  {
    var text, payload := body[..|body| - CHECKSUM_LENGTH], body[|c.tag|..|body| - CHECKSUM_LENGTH];
    assert text[..|c.tag|] == body[..|c.tag|];
    forall t ensures body == Summed(t) <==> ValidateChecksum(body) && t == text { ValidIffSummed(body, t); }
    assert ValidateChecksum(body) ==> body == Summed(text);
    CarriesIff(c, body, payload);
    forall q | Carries(c, body, q) ensures q == payload { CarriesIff(c, body, q); }
  }

  /** A length field in range and as many bytes as it says. */
  predicate IsFrame<M>(c: Codec<M>, f: seq<Byte>) {
    && HEADER_LENGTH <= |f| == HEADER_LENGTH + BytesInt(f[..HEADER_LENGTH])
    && c.MinMessageLength() <= BytesInt(f[..HEADER_LENGTH]) <= MAX_MESSAGE_LENGTH
  }

  /** A frame that is declined by the raw callback, or parses. */
  predicate Digestible<M>(c: Codec<M>, f: seq<Byte>) {
    IsFrame(c, f) && (c.raw(f) ==> Parse(c, f[HEADER_LENGTH..]).Message?)
  }

  ghost predicate AllDigestible<M>(c: Codec<M>, frames: seq<seq<Byte>>) {
    forall k :: 0 <= k < |frames| ==> Digestible(c, frames[k])
  }

  /** The message of a frame, unless it is declined. */
  function Delivery<M>(c: Codec<M>, f: seq<Byte>): seq<M>
    requires Digestible(c, f)
  {
    if c.raw(f) then [Parse(c, f[HEADER_LENGTH..]).m] else []
  }

  ghost function Deliveries<M>(c: Codec<M>, frames: seq<seq<Byte>>): seq<M>
    requires AllDigestible(c, frames)
    decreases |frames|
  {
    if frames == [] then []
    else
      assert Digestible(c, frames[0]);
      Delivery(c, frames[0]) + Deliveries(c, frames[1..])
  }

  /** Why a scan stops here: too few bytes, a length out of range, or a frame that does not parse. */
  predicate StopsAt<M>(c: Codec<M>, buf: seq<Byte>, error: Option<ErrorCode>) {
    if |buf| < c.MinMessageLength() + HEADER_LENGTH then error == None
    else
      var len := BytesInt(buf[..HEADER_LENGTH]);
      if len < c.MinMessageLength() || MAX_MESSAGE_LENGTH < len then error == Some(InvalidLength)
      else if |buf| < HEADER_LENGTH + len then error == None
      else
        && c.raw(buf[..HEADER_LENGTH + len])
        && error.Some? && Parse(c, buf[HEADER_LENGTH..HEADER_LENGTH + len]) == Bad(error.value)
  }

  lemma FrontIsFrame<M>(c: Codec<M>, buf: seq<Byte>)
    ensures var f := FrontOf(c, buf);
            if f.Skip? || f.Deliver? then
              && Digestible(c, buf[..f.size])
              && Delivery(c, buf[..f.size]) == (if f.Deliver? then [f.m] else [])
            else StopsAt(c, buf, if f.Fault? then Some(f.code) else None)
  {
    var f := FrontOf(c, buf);
    if f.Skip? || f.Deliver? {
      var frame := buf[..f.size];
      assert frame[..HEADER_LENGTH] == buf[..HEADER_LENGTH];
      assert frame[HEADER_LENGTH..] == buf[HEADER_LENGTH..f.size];
    }
  }

  /** A reading of a buffer that takes exactly these frames out of it and delivers what they hold. */
  ghost predicate TakesFrames<M>(c: Codec<M>, buf: seq<Byte>, frames: seq<seq<Byte>>, r: Reading<M>) {
    && AllDigestible(c, frames)
    && buf == Flatten(frames) + r.rest
    && r.messages == Deliveries(c, frames)
    && StopsAt(c, r.rest, r.error)
  }

  lemma TakesFirst<M>(c: Codec<M>, f: seq<Byte>, buf: seq<Byte>, frames: seq<seq<Byte>>, r: Reading<M>)
    requires Digestible(c, f) && TakesFrames(c, buf, frames, r)
    ensures TakesFrames(c, f + buf, [f] + frames, Prepend(Delivery(c, f), r))
  {
    assert ([f] + frames)[1..] == frames;
    assert f + (Flatten(frames) + r.rest) == f + Flatten(frames) + r.rest;
  }

  lemma StopTakesNothing<M>(c: Codec<M>, buf: seq<Byte>, r: Reading<M>)
    requires r.messages == [] && r.rest == buf && StopsAt(c, buf, r.error)
    ensures TakesFrames(c, buf, [], r)
  {
    assert Flatten([]) + buf == buf;
  }

  /** One turn of the scan: it stops, or takes the frame `head` and goes on with `tail`. */
  lemma ScanTurn<M>(c: Codec<M>, buf: seq<Byte>) returns (stops: bool, head: seq<Byte>, tail: seq<Byte>)
    ensures stops ==> TakesFrames(c, buf, [], Scan(c, buf))
    ensures !stops ==> buf == head + tail && |tail| < |buf| && Digestible(c, head)
    ensures !stops ==> Scan(c, buf) == Prepend(Delivery(c, head), Scan(c, tail))
  {
    FrontIsFrame(c, buf);
    var f := FrontOf(c, buf);
    stops := !f.Skip? && !f.Deliver?;
    head, tail := [], buf;
    if stops {
      StopTakesNothing(c, buf, Scan(c, buf));
    } else {
      head, tail := buf[..f.size], buf[f.size..];
      PrependNothing(Scan(c, tail));
    }
  }

  /**
   What a scan takes out of any buffer is a series of whole frames; it delivers the
   messages of those that the raw callback lets through, in order, and stops in
   front of the first bytes that are not such a frame.
   */
  lemma {:induction false} ScanTakesFrames<M>(c: Codec<M>, buf: seq<Byte>) returns (frames: seq<seq<Byte>>)
    ensures TakesFrames(c, buf, frames, Scan(c, buf))
    decreases |buf|
  {
    var stops, head, tail := ScanTurn(c, buf);
    frames := [];
    if !stops {
      var rest := ScanTakesFrames(c, tail);
      frames := [head] + rest;
      TakesFirst(c, head, tail, rest, Scan(c, tail));
    }
  }

  // ---------------------------------------------------------------------------
  // Chunking does not matter
  // ---------------------------------------------------------------------------

  lemma FrontExtends<M>(c: Codec<M>, buf: seq<Byte>, more: seq<Byte>)
    ensures FrontOf(c, buf).Wait? || FrontOf(c, buf + more) == FrontOf(c, buf)
  {
    var all := buf + more;
    if c.MinMessageLength() + HEADER_LENGTH <= |buf| {
      assert all[..HEADER_LENGTH] == buf[..HEADER_LENGTH];
      var len := BytesInt(buf[..HEADER_LENGTH]);
      if c.MinMessageLength() <= len && HEADER_LENGTH + len <= |buf| {
        assert all[..HEADER_LENGTH + len] == buf[..HEADER_LENGTH + len];
        assert all[HEADER_LENGTH..HEADER_LENGTH + len] == buf[HEADER_LENGTH..HEADER_LENGTH + len];
      }
    }
  }

  function Continue<M>(c: Codec<M>, r: Reading<M>, more: seq<Byte>): Reading<M> {
    if r.error.None? then Prepend(r.messages, Scan(c, r.rest + more)) else r.(rest := r.rest + more)
  }

  lemma ContinueFirst<M>(c: Codec<M>, m: M, r: Reading<M>, more: seq<Byte>)
    ensures Continue(c, Prepend([m], r), more) == Prepend([m], Continue(c, r, more))
  {
    var later := Scan(c, r.rest + more).messages;
    assert [m] + (r.messages + later) == [m] + r.messages + later;
  }

  lemma PrependNothing<M>(r: Reading<M>)
    ensures Prepend([], r) == r
  {
    assert [] + r.messages == r.messages;
  }

  /** More input behind a buffer does not change what the buffer already yields. */
  lemma {:induction false} ScanExtends<M>(c: Codec<M>, buf: seq<Byte>, more: seq<Byte>)
    ensures Scan(c, buf + more) == Continue(c, Scan(c, buf), more)
    decreases |buf|
  {
    FrontExtends(c, buf, more);
    match FrontOf(c, buf)
    case Wait => PrependNothing(Scan(c, buf + more));
    case Fault(_) =>
    case Skip(n) =>
      assert (buf + more)[n..] == buf[n..] + more;
      ScanExtends(c, buf[n..], more);
    case Deliver(m, n) =>
      assert (buf + more)[n..] == buf[n..] + more;
      ScanExtends(c, buf[n..], more);
      ContinueFirst(c, m, Scan(c, buf[n..]), more);
  }

  /** A scan stops where another scan of what is left would deliver nothing. */
  lemma {:induction false} ScanSettles<M>(c: Codec<M>, buf: seq<Byte>)
    ensures var r := Scan(c, buf); Scan(c, r.rest) == Reading([], r.error, r.rest)
    decreases |buf|
  {
    var f := FrontOf(c, buf);
    if f.Skip? || f.Deliver? { ScanSettles(c, buf[f.size..]); }
  }

  lemma StuckExtends<M>(c: Codec<M>, buf: seq<Byte>, e: ErrorCode, more: seq<Byte>)
    requires Scan(c, buf) == Reading([], Some(e), buf)
    ensures Scan(c, buf + more) == Reading([], Some(e), buf + more)
  {
    ScanExtends(c, buf, more);
  }

  /** Once a buffer is stuck on an error, no later chunk delivers anything. */
  lemma {:induction false} NothingAfterError<M>(c: Codec<M>, buf: seq<Byte>, e: ErrorCode, chunks: seq<seq<Byte>>)
    requires Scan(c, buf) == Reading([], Some(e), buf)
    ensures Feed(c, buf, chunks) == Reading([], if chunks == [] then None else Some(e), buf + Flatten(chunks))
    decreases |chunks|
  {
    if chunks == [] {
      assert buf + [] == buf;
    } else {
      StuckExtends(c, buf, e, chunks[0]);
      NothingAfterError(c, buf + chunks[0], e, chunks[1..]);
      FlattenFirst(buf, chunks);
    }
  }

  lemma {:induction false} FeedIsScan<M>(c: Codec<M>, buf: seq<Byte>, chunks: seq<seq<Byte>>)
    requires Scan(c, buf) == Reading([], None, buf)
    ensures Feed(c, buf, chunks) == Scan(c, buf + Flatten(chunks))
    decreases |chunks|
  {
    if chunks == [] {
      assert buf + Flatten(chunks) == buf;
    } else {
      var head, tail := buf + chunks[0], Flatten(chunks[1..]);
      var first := Scan(c, head);
      assert head + tail == buf + Flatten(chunks);
      ScanExtends(c, head, tail);
      ScanSettles(c, head);
      if first.error.None? {
        FeedIsScan(c, first.rest, chunks[1..]);
      } else {
        NothingAfterError(c, first.rest, first.error.value, chunks[1..]);
        assert first.messages + [] == first.messages;
      }
    }
  }

  /** Any cutting of a stream delivers what the whole stream delivers in one piece. */
  lemma ChunkingIsIrrelevant<M>(c: Codec<M>, chunks: seq<seq<Byte>>)
    ensures Feed(c, [], chunks) == Scan(c, Flatten(chunks))
  {
    assert [] + Flatten(chunks) == Flatten(chunks);
    FeedIsScan(c, [], chunks);
  }

  /** Two cuttings of the same stream: same messages, same first error, same leftover. */
  lemma CuttingsAgree<M>(c: Codec<M>, chunks: seq<seq<Byte>>, chunks': seq<seq<Byte>>)
    requires Flatten(chunks) == Flatten(chunks')
    ensures Feed(c, [], chunks) == Feed(c, [], chunks')
  {
    ChunkingIsIrrelevant(c, chunks);
    ChunkingIsIrrelevant(c, chunks');
  }

  // ---------------------------------------------------------------------------
  // Encoding
  // ---------------------------------------------------------------------------

  function Body<M>(c: Codec<M>, m: M): (body: seq<Byte>)
    ensures |body| == |c.tag| + |c.serialize(m)| + CHECKSUM_LENGTH
  {
    Summed(c.tag + c.serialize(m))
  }

  /** The frame; its length field holds the body length cut to 32 bits. */
  function Encode<M>(c: Codec<M>, m: M): (frame: seq<Byte>)
    ensures |frame| == HEADER_LENGTH + |Body(c, m)|
  {
    BeEncode(|Body(c, m)| % Pow256(4), 4) + Body(c, m)
  }

  function EncodeAll<M>(c: Codec<M>, ms: seq<M>): seq<Byte>
    decreases |ms|
  {
    if ms == [] then [] else Encode(c, ms[0]) + EncodeAll(c, ms[1..])
  }

  /** The payload library reads back what it writes, and no raw callback swallows the frame. */
  predicate Faithful<M(==)>(c: Codec<M>, m: M) {
    c.parse(c.serialize(m)) == Some(m) && c.raw(Encode(c, m))
  }

  predicate WithinLimit<M>(c: Codec<M>, m: M) { |Body(c, m)| <= MAX_MESSAGE_LENGTH }

  /** A body as the sender builds it is accepted, as the message that was sent. */
  lemma BodyParses<M>(c: Codec<M>, m: M)
    requires Faithful(c, m)
    ensures Parse(c, Body(c, m)) == Message(m)
  {
    assert Carries(c, Body(c, m), c.serialize(m));
    ParsesIff(c, Body(c, m), m);
  }

  lemma SmallRemainder(n: nat)
    requires n < Pow256(4)
    ensures n % Pow256(4) == n
  {
  }

  lemma HeaderReads<M>(c: Codec<M>, m: M, more: seq<Byte>)
    requires |Body(c, m)| < Pow256(4)
    ensures var len := |Body(c, m)|;
            var x := BytesInt((Encode(c, m) + more)[..HEADER_LENGTH]);
            if 2 * len < Pow256(4) then x == len else x < 0
  {
    var body := Body(c, m);
    assert Encode(c, m) == BeEncode(|body|, 4) + body by { SmallRemainder(|body|); }
    assert (Encode(c, m) + more)[..HEADER_LENGTH] == BeEncode(|body|, 4);
    DecodeEncode(|body|, 4);
  }

  /** What the front of a stream that begins with a frame looks like. */
  lemma FrontOfFrame<M>(c: Codec<M>, m: M, more: seq<Byte>)
    requires Faithful(c, m) && |Body(c, m)| < Pow256(4)
    ensures FrontOf(c, Encode(c, m) + more) ==
            if WithinLimit(c, m) then Deliver(m, |Encode(c, m)|) else Fault(InvalidLength)
  {
    var buf, len := Encode(c, m) + more, |Body(c, m)|;
    HeaderReads(c, m, more);
    assert Pow256(4) == 0x1_0000_0000;
    if WithinLimit(c, m) {
      assert buf[..HEADER_LENGTH + len] == Encode(c, m);
      assert buf[HEADER_LENGTH..HEADER_LENGTH + len] == Body(c, m);
      BodyParses(c, m);
    }
  }

  /** A frame in front of any further input is delivered exactly when its length is within the limit. */
  lemma FrameIsDeliveredIff<M>(c: Codec<M>, m: M, more: seq<Byte>)
    requires Faithful(c, m) && |Body(c, m)| < Pow256(4)
    ensures WithinLimit(c, m) ==> Scan(c, Encode(c, m) + more) == Prepend([m], Scan(c, more))
    ensures !WithinLimit(c, m) ==>
              Scan(c, Encode(c, m) + more) == Reading([], Some(InvalidLength), Encode(c, m) + more)
  {
    FrontOfFrame(c, m, more);
    assert (Encode(c, m) + more)[|Encode(c, m)|..] == more;
  }

  /** The limit is far below the 32-bit range of the length field. */
  lemma LimitFits<M>(c: Codec<M>, m: M)
    requires WithinLimit(c, m)
    ensures 2 * |Body(c, m)| < Pow256(4)
  {
    assert Pow256(4) == 0x1_0000_0000;
  }

  ghost predicate AllGood<M>(c: Codec<M>, ms: seq<M>) {
    forall k :: 0 <= k < |ms| ==> Faithful(c, ms[k]) && WithinLimit(c, ms[k])
  }

  lemma PrependFirst<M>(ms: seq<M>, r: Reading<M>)
    requires ms != []
    ensures Prepend([ms[0]], Prepend(ms[1..], r)) == Prepend(ms, r)
  {
    assert [ms[0]] + (ms[1..] + r.messages) == ms + r.messages;
  }

  lemma {:induction false} ScanEncodeAll<M>(c: Codec<M>, ms: seq<M>, more: seq<Byte>)
    requires AllGood(c, ms)
    ensures Scan(c, EncodeAll(c, ms) + more) == Prepend(ms, Scan(c, more))
    decreases |ms|
  {
    if ms == [] {
      assert EncodeAll(c, ms) + more == more;
    } else {
      var tail := EncodeAll(c, ms[1..]) + more;
      assert EncodeAll(c, ms) + more == Encode(c, ms[0]) + tail;
      LimitFits(c, ms[0]);
      FrameIsDeliveredIff(c, ms[0], tail);
      ScanEncodeAll(c, ms[1..], more);
      PrependFirst(ms, Scan(c, more));
    }
  }

  /** Round trip: encoded messages come out as they went in, however the stream is cut. */
  lemma RoundTrip<M>(c: Codec<M>, ms: seq<M>, chunks: seq<seq<Byte>>)
    requires AllGood(c, ms) && Flatten(chunks) == EncodeAll(c, ms)
    ensures Feed(c, [], chunks) == Reading(ms, None, [])
  {
    ChunkingIsIrrelevant(c, chunks);
    ScanEncodeAll(c, ms, []);
    assert EncodeAll(c, ms) + [] == EncodeAll(c, ms);
    assert ms + [] == ms;
  }

  /** A proper prefix of a frame delivers nothing and reports nothing. */
  lemma PartialFrameWaits<M>(c: Codec<M>, m: M, cut: nat)
    requires WithinLimit(c, m) && cut < |Encode(c, m)|
    ensures Scan(c, Encode(c, m)[..cut]) == Reading([], None, Encode(c, m)[..cut])
  {
    var buf := Encode(c, m)[..cut];
    LimitFits(c, m);
    if c.MinMessageLength() + HEADER_LENGTH <= |buf| {
      HeaderReads(c, m, []);
      assert buf[..HEADER_LENGTH] == (Encode(c, m) + [])[..HEADER_LENGTH];
    }
  }

  /** `k` messages are out and what is left is a proper prefix of the frame of the next one. */
  predicate CaughtUp<M(==)>(c: Codec<M>, ms: seq<M>, k: nat, r: Reading<M>)
    requires k <= |ms|
  {
    && r.messages == ms[..k] && r.error == None
    && if k == |ms| then r.rest == [] else r.rest < Encode(c, ms[k])
  }

  lemma CaughtUpFirst<M>(c: Codec<M>, ms: seq<M>, j: nat, r: Reading<M>)
    requires ms != [] && j < |ms| && CaughtUp(c, ms[1..], j, r)
    ensures CaughtUp(c, ms, j + 1, Prepend([ms[0]], r))
  {
    assert ms[..j + 1] == [ms[0]] + ms[1..][..j];
  }

  lemma CaughtUpWithin<M>(c: Codec<M>, ms: seq<M>, cut: nat)
    requires ms != [] && WithinLimit(c, ms[0]) && cut < |Encode(c, ms[0])|
    ensures cut <= |EncodeAll(c, ms)| && CaughtUp(c, ms, 0, Scan(c, EncodeAll(c, ms)[..cut]))
  {
    assert EncodeAll(c, ms)[..cut] == Encode(c, ms[0])[..cut];
    PartialFrameWaits(c, ms[0], cut);
  }

  /** After any part of the stream, the leftover is a proper prefix of the next frame. */
  lemma {:induction false} LeftoverIsPartialFrame<M>(c: Codec<M>, ms: seq<M>, cut: nat) returns (k: nat)
    requires AllGood(c, ms) && cut <= |EncodeAll(c, ms)|
    ensures k <= |ms| && CaughtUp(c, ms, k, Scan(c, EncodeAll(c, ms)[..cut]))
    decreases |ms|
  {
    if ms == [] {
      k := 0;
    } else if cut < |Encode(c, ms[0])| {
      k := 0;
      CaughtUpWithin(c, ms, cut);
    } else {
      var j := LeftoverIsPartialFrame(c, ms[1..], cut - |Encode(c, ms[0])|);
      k := j + 1;
      LeftoverStep(c, ms, cut, j);
    }
  }

  lemma LeftoverStep<M>(c: Codec<M>, ms: seq<M>, cut: nat, j: nat)
    requires ms != [] && Faithful(c, ms[0]) && WithinLimit(c, ms[0])
    requires |Encode(c, ms[0])| <= cut <= |EncodeAll(c, ms)| && j < |ms|
    requires CaughtUp(c, ms[1..], j, Scan(c, EncodeAll(c, ms[1..])[..cut - |Encode(c, ms[0])|]))
    ensures CaughtUp(c, ms, j + 1, Scan(c, EncodeAll(c, ms)[..cut]))
  {
    var frame, tail := Encode(c, ms[0]), EncodeAll(c, ms[1..]);
    var part := tail[..cut - |frame|];
    assert EncodeAll(c, ms)[..cut] == frame + part;
    LimitFits(c, ms[0]);
    FrameIsDeliveredIff(c, ms[0], part);
    CaughtUpFirst(c, ms, j, Scan(c, part));
  }

  // ---------------------------------------------------------------------------
  // Corruption
  // ---------------------------------------------------------------------------

  /** Changing one byte of a well-formed body makes Parse report a checksum error. */
  lemma OneByteCorruptionIsDetected<M>(c: Codec<M>, body: seq<Byte>, i: nat, x: Byte)
    requires c.MinMessageLength() <= |body| && ValidateChecksum(body)
    requires i < |body| && x != body[i]
    ensures Parse(c, body[i := x]) == Bad(ChecksumError)
  {
    var n := |body| - CHECKSUM_LENGTH;
    var bad := body[i := x];
    var u, u' := Adler32.Checksum(body[..n]), Adler32.Checksum(bad[..n]);
    if i < n {
      assert bad[..n] == body[..n][i := x] && bad[n..] == body[n..];
      Adler32.OneByteChangesChecksum(body[..n], i, x);
    } else {
      assert bad[..n] == body[..n];
      assert bad[n..] != body[n..] by { assert bad[n..][i - n] != body[n..][i - n]; }
      BytesRoundTrip(bad[n..]);
      BytesRoundTrip(body[n..]);
    }
  }

  // ---------------------------------------------------------------------------
  // The loops over an IoBuffer
  // ---------------------------------------------------------------------------

  lemma SliceOfSlice(s: seq<Byte>, lo: nat, hi: nat, i: nat, j: nat)
    requires lo <= hi <= |s| && i <= j <= hi - lo
    ensures s[lo..hi][i..j] == s[lo + i..lo + j]
  {
    var x, y := s[lo..hi][i..j], s[lo + i..lo + j];
    forall k | 0 <= k < j - i ensures x[k] == y[k] {}
    assert x == y;
  }

  /** The decision in the loop of OnMessage: what is at the front of the buffer. */
  method LookAtFront<M>(c: Codec<M>, b: IoBuffer) returns (f: Front<M>)
    requires b.Valid() && c.MinMessageLength() + HEADER_LENGTH <= b.writing - b.reading
    ensures f == FrontOf(c, b.Contents())
  {
    var readable := b.buffer[b.reading..b.writing];
    var len := b.GetReadableInt(HEADER_LENGTH);
    if len > MAX_MESSAGE_LENGTH || len < c.MinMessageLength() { return Fault(InvalidLength); }
    if |readable| < HEADER_LENGTH + len { return Wait; }
    if !c.raw(readable[..HEADER_LENGTH + len]) { return Skip(HEADER_LENGTH + len); }
    var body := readable[HEADER_LENGTH..HEADER_LENGTH + len];
    match Parse(c, body) {
      case Bad(code) => return Fault(code);
      case Message(m) => return Deliver(m, HEADER_LENGTH + len);
    }
  }

  /** Where the write index is at most after any dropping of contents. */
  function Top(writing: nat): nat { if writing < RESERVED then RESERVED else writing }

  /** Deliver every complete frame at the front of the buffer; stop at an error or an incomplete frame. */
  method OnMessage<M>(c: Codec<M>, b: IoBuffer) returns (messages: seq<M>, error: Option<ErrorCode>)
    requires b.Valid()
    modifies b
    ensures b.Valid() && b.writing <= Top(old(b.writing))
    ensures Reading(messages, error, b.Contents()) == Scan(c, old(b.Contents()))
  {
    messages := [];
    error := None;
    while b.writing - b.reading >= c.MinMessageLength() + HEADER_LENGTH
      invariant b.Valid() && error == None && b.writing <= Top(old(b.writing))
      invariant Prepend(messages, Scan(c, b.Contents())) == Scan(c, old(b.Contents()))
      decreases b.writing - b.reading
    {
      var f := LookAtFront(c, b);
      match f {
        case Wait => break;
        case Fault(code) =>
          error := Some(code);
          break;
        case Skip(size) => b.Refresh(size);
        case Deliver(m, size) =>
          PrependOne(messages, m, Scan(c, b.Contents()[size..]));
          messages := messages + [m];
          b.Refresh(size);
      }
    }
  }

  lemma PrependOne<M>(ms: seq<M>, m: M, r: Reading<M>)
    ensures Prepend(ms, Prepend([m], r)) == Prepend(ms + [m], r)
  {
    assert ms + ([m] + r.messages) == ms + [m] + r.messages;
  }

  function ChunkBytes(chunks: seq<seq<Byte>>): nat
    decreases |chunks|
  {
    if chunks == [] then 0 else |chunks[0]| + ChunkBytes(chunks[1..])
  }

  lemma {:induction false} FeedOneMore<M>(c: Codec<M>, buf: seq<Byte>, chunks: seq<seq<Byte>>, chunk: seq<Byte>)
    ensures var r := Feed(c, buf, chunks);
            var f := Scan(c, r.rest + chunk);
            Feed(c, buf, chunks + [chunk]) ==
              Reading(r.messages + f.messages, if r.error.Some? then r.error else f.error, f.rest)
    decreases |chunks|
  {
    if chunks == [] {
      assert chunks + [chunk] == [chunk] && [chunk][1..] == [];
      var f := Scan(c, buf + chunk);
      assert f.messages + [] == [] + f.messages;
    } else {
      var first := Scan(c, buf + chunks[0]);
      assert (chunks + [chunk])[0] == chunks[0] && (chunks + [chunk])[1..] == chunks[1..] + [chunk];
      FeedOneMore(c, first.rest, chunks[1..], chunk);
      var later := Feed(c, first.rest, chunks[1..]);
      var f := Scan(c, later.rest + chunk);
      assert first.messages + (later.messages + f.messages) == first.messages + later.messages + f.messages;
    }
  }

  /**
   Chunks arrive on a real buffer, one completed read each.  As long as no copy
   overruns, the messages, the first error and the leftover are those of `Feed`;
   `last` is the buffer that the failing chunk met.
   */
  method ReceiveChunks<M>(c: Codec<M>, b: IoBuffer, chunks: seq<seq<Byte>>)
    returns (messages: seq<M>, error: Option<ErrorCode>, overrun: bool, n: nat, ghost last: Buf)
    requires b.Valid() && Top(b.writing) + ChunkBytes(chunks) <= PTRDIFF_MAX
    modifies b
    ensures n <= |chunks|
    ensures !overrun ==> n == |chunks| && b.Valid() && last == b.View()
    ensures last.Valid() && Reading(messages, error, last.Contents()) == Feed(c, old(b.Contents()), chunks[..n])
    ensures overrun ==> n < |chunks| && !ReceiveGuard(last, |chunks[n]|)
  {
    messages, error, overrun, n, last := [], None, false, 0, b.View();
    ghost var left := ChunkBytes(chunks);
    assert chunks[0..] == chunks;
    while n < |chunks|
      invariant 0 <= n <= |chunks| && b.Valid() && last == b.View()
      invariant Reading(messages, error, b.Contents()) == Feed(c, old(b.Contents()), chunks[..n])
      invariant left == ChunkBytes(chunks[n..]) && Top(b.writing) + left <= PTRDIFF_MAX
    {
      FeedOneMore(c, old(b.Contents()), chunks[..n], chunks[n]);
      OneMoreChunk(chunks, n);
      overrun := b.Receive(chunks[n]);
      if overrun { return; }
      var ms, e := OnMessage(c, b);
      messages := messages + ms;
      error := if error.Some? then error else e;
      left := left - |chunks[n]|;
      n := n + 1;
      last := b.View();
    }
  }

  lemma OneMoreChunk(chunks: seq<seq<Byte>>, n: nat)
    requires n < |chunks|
    ensures chunks[..n + 1] == chunks[..n] + [chunks[n]]
    ensures ChunkBytes(chunks[n..]) == |chunks[n]| + ChunkBytes(chunks[n + 1..])
  {
    assert chunks[n..][1..] == chunks[n + 1..];
  }

  /** Put the payload behind the contents; it ends up there exactly when room for it and a checksum is there or made. */
  method Serialize2Buffer<M>(c: Codec<M>, m: M, b: IoBuffer) returns (overrun: bool)
    requires b.Valid() && b.writing + |c.serialize(m)| + CHECKSUM_LENGTH <= PTRDIFF_MAX
    modifies b
    ensures (!overrun && b.Valid() && b.Contents() == old(b.Contents()) + c.serialize(m)) <==>
              RoomGuard(old(b.View()), |c.serialize(m)| + CHECKSUM_LENGTH)
    ensures RoomGuard(old(b.View()), |c.serialize(m)| + CHECKSUM_LENGTH) ==>
              b.reading == old(b.reading) && b.writing == old(b.writing) + |c.serialize(m)|
  {
    var payload := c.serialize(m);
    SerializedIff(b.View(), payload);
    overrun := b.EnsureWritableSpace(|payload| + CHECKSUM_LENGTH);
    if overrun { return; }
    if b.reading > b.writing || |b.buffer| - b.writing < |payload| { return true; }
    b.buffer := Copied(b.buffer, b.writing, payload);
    b.writing := b.writing + |payload|;
  }

  /** The payload written where EnsureWritableSpace has made room. */
  function Serialized(b: Buf, payload: seq<Byte>): Outcome
    requires b.Valid()
  {
    match Ensured(b, |payload| + CHECKSUM_LENGTH)
    case Overrun => Overrun
    case Done(d) => if !d.Valid() || d.Writable() < |payload| then Overrun else Done(Filled(d, payload))
  }

  lemma SerializedIff(b: Buf, payload: seq<Byte>)
    requires b.Valid() && |b.bytes| <= PTRDIFF_MAX && |payload| + CHECKSUM_LENGTH <= PTRDIFF_MAX
    ensures var o := Serialized(b, payload);
            && (RoomGuard(b, |payload| + CHECKSUM_LENGTH) <==>
                  o.Done? && o.buf.Valid() && o.buf.Contents() == b.Contents() + payload)
            && (RoomGuard(b, |payload| + CHECKSUM_LENGTH) ==>
                  o.buf.reading == b.reading && o.buf.writing == b.writing + |payload|)
  {
    var len := |payload| + CHECKSUM_LENGTH;
    EnsuredIff(b, len);
    SlackCases(b);
    var d := Ensured(b, len);
    if d.Done? && d.buf.Valid() && |payload| <= d.buf.Writable() { FilledContents(d.buf, payload); }
    if !RoomGuard(b, len) { CompactionMovesHead(b, len); }
  }

  /** Where room is not made, the contents change their length. */
  lemma CompactionMovesHead(b: Buf, len: nat)
    requires b.Valid() && |b.bytes| <= PTRDIFF_MAX && len <= PTRDIFF_MAX && !RoomGuard(b, len)
    ensures var o := Ensured(b, len); o.Done? && o.buf.Valid() ==> |o.buf.Contents()| != |b.Contents()|
  {
    SlackCases(b);
  }

  /** How much of a text of this length a 32-bit length reaches. */
  function Reach(length: nat): (n: nat)
    ensures n <= length
  {
    length % Pow256(4)
  }

  /** The frame as it is built: the checksum call cuts its length to 32 bits, so a longer text is checked in part. */
  function Built<M>(c: Codec<M>, m: M): seq<Byte> {
    var text := c.tag + c.serialize(m);
    BeEncode(|Body(c, m)| % Pow256(4), 4) + (text + IntBytes(Checksum(text[..Reach(|text|)]), 4))
  }

  /** That is the frame of the format if and only if the checksum of the checked part is that of the whole text. */
  lemma BuiltIsFrameIff<M>(c: Codec<M>, m: M)
    ensures var text := c.tag + c.serialize(m);
            && (Built(c, m) == Encode(c, m) <==> Checksum(text[..Reach(|text|)]) == Checksum(text))
            && (|text| < Pow256(4) ==> Built(c, m) == Encode(c, m))
  {
    var text := c.tag + c.serialize(m);
    var sum, sum' := Checksum(text), Checksum(text[..Reach(|text|)]);
    var n := HEADER_LENGTH + |text|;
    assert Encode(c, m)[n..] == IntBytes(sum, 4) && Built(c, m)[n..] == IntBytes(sum', 4);
    IntRoundTrip(sum, 4);
    IntRoundTrip(sum', 4);
    if |text| < Pow256(4) {
      SmallRemainder(|text|);
      assert text[..|text|] == text;
    }
  }

  /** It is not for a text of 4 GiB of zeros, of which nothing at all is checked. */
  lemma LongTextIsMischecked<M>(c: Codec<M>, m: M)
    requires c.tag + c.serialize(m) == Adler32.Zeros(Pow256(4))
    ensures Built(c, m) != Encode(c, m)
  {
    var text := c.tag + c.serialize(m);
    assert Pow256(4) == 0x1_0000_0000;
    assert Reach(|text|) == 0 && text[..0] == Adler32.Zeros(0);
    Adler32.ZeroSums(0);
    Adler32.ZeroSums(0x1_0000_0000);
    assert 0x1_0000_0000 % Adler32.BASE == 225;
    BuiltIsFrameIff(c, m);
  }

  /** The tag and the payload, in a fresh buffer. */
  method FillText<M>(c: Codec<M>, m: M, b: IoBuffer)
    requires b.Valid() && b.Contents() == [] && b.reading == RESERVED
    requires RESERVED + |Body(c, m)| <= PTRDIFF_MAX
    modifies b
    ensures b.Valid() && b.reading == RESERVED && b.Contents() == c.tag + c.serialize(m)
  {
    HeadAlignedMakesRoom(b.View(), |c.tag|);
    var overrun := b.Append(c.tag);
    HeadAlignedMakesRoom(b.View(), |c.serialize(m)| + CHECKSUM_LENGTH);
    overrun := Serialize2Buffer(c, m, b);
  }

  /** The checksum behind the text, of as much of it as a 32-bit length reaches. */
  method AppendChecksum(b: IoBuffer)
    requires b.Valid() && b.reading == RESERVED && b.writing + CHECKSUM_LENGTH <= PTRDIFF_MAX
    modifies b
    ensures b.Valid() && b.reading == RESERVED
    ensures var text := old(b.Contents()); b.Contents() == text + IntBytes(Checksum(text[..Reach(|text|)]), 4)
  {
    HeadAlignedMakesRoom(b.View(), 4);
    var length := Reach(b.writing - b.reading);
    SliceOfSlice(b.buffer, b.reading, b.writing, 0, length);
    var overrun := b.AppendInt(Checksum(b.buffer[b.reading..b.reading + length]), 4);
  }

  /** Build the frame of a message in a fresh buffer, length field last, in the reserved head. */
  method FillEmptyBuffer<M>(c: Codec<M>, m: M, b: IoBuffer)
    requires b.Valid() && b.Contents() == [] && b.reading == RESERVED
    requires RESERVED + |Body(c, m)| <= PTRDIFF_MAX
    modifies b
    ensures b.Valid() && b.Contents() == Built(c, m)
    ensures |c.tag| + |c.serialize(m)| < Pow256(4) ==> b.Contents() == Encode(c, m)
  {
    BuiltIsFrameIff(c, m);
    FillText(c, m, b);
    AppendChecksum(b);
    b.SetHeadContent(BeEncode((b.writing - b.reading) % Pow256(4), 4));
  }
}
