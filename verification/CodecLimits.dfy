/** What the decoders accept and refuse, stated of the bytes: the meaning of every chunk, and the
    limit on its length. */
module CodecLimits {
  import opened Methods
  import opened Protocols
  import opened SnappyFrame
  import opened CodecModel
  import opened CodecProofs
  import opened CodecRoundTrips
  import Varint

  /* ---- the meaning of a chunk ---- */

  /** What a chunk of code `code` with payload `x` is on a stream of protocol `p`, if anything. */
  function ChunkMeans(p: Protocol, code: byte, x: Bytes, lossy: Bytes -> Bytes): Option<RPCCodedResponse> {
    match code as int
    case 0 =>
      if x == [] then None
      else if p == StatusProtocol then Some(Success(Status(x)))
      else if p == PingProtocol then Some(Success(Pong(x)))
      else if p == MetaDataProtocol then Some(Success(MetaData(x)))
      else None
    case 1 => Some(InvalidRequest(lossy(x)))
    case 2 => Some(ServerError(lossy(x)))
    case _ => Some(Unknown(lossy(x)))
  }

  function RequestMeans(p: Protocol, x: Bytes): Option<RPCRequest> {
    if p == MetaDataProtocol then (if x == [] then Some(MetaDataRequest) else None)
    else if x == [] then None
    else if p == StatusProtocol then Some(StatusRequest(x))
    else if p == GoodbyeProtocol then Some(GoodbyeRequest(x))
    else Some(PingRequest(x))
  }

  /** Every chunk whose length is within the limit is read as what it means, whatever its code and
      whatever follows, or refused as invalid if it means nothing. */
  lemma ChunkIsRead(c: Config, code: byte, x: Bytes, t: Bytes)
    requires Usable(c) && |x| <= c.maxPacketSize
    ensures
      var e, means := [code] + EncodeBody(c, x), ChunkMeans(c.protocol, code, x, c.lossy);
      ParseResponse(c, e + t) == if means.Some? then Item(means.value, |e|) else Fail(InvalidData)
  {
    hide ParseBody, EncodeBody;
    var e := [code] + EncodeBody(c, x);
    assert (e + t)[1..] == EncodeBody(c, x) + t;
    BodyRoundTrip(c, x, t);
  }

  lemma RequestIsRead(c: Config, x: Bytes, t: Bytes)
    requires Usable(c) && |x| <= c.maxPacketSize
    ensures
      var e, means := EncodeBody(c, x), RequestMeans(c.protocol, x);
      ParseRequest(c, e + t) == if means.Some? then Item(means.value, |e|) else Fail(InvalidData)
  {
    hide ParseBody, EncodeBody;
    BodyRoundTrip(c, x, t);
  }

  /** The first byte of an encoded response: 0 for a success, 1 for an invalid request, 2 for a
      server error, 255 for any other error. */
  lemma FirstByte(c: Config, r: RPCCodedResponse)
    requires Lawful(c.block)
    ensures
      EncodeResponse(c, r)[0] as int
      == if r.Success? then 0 else if r.InvalidRequest? then 1 else if r.ServerError? then 2 else 255
    ensures EncodeResponse(c, r)[1..] == EncodeBody(c, r.Payload())
  {
    hide EncodeBody;
    assert ([r.Code()] + EncodeBody(c, r.Payload()))[1..] == EncodeBody(c, r.Payload());
  }

  /* ---- lengths ---- */

  /** The number whose digits to the base 128 are these, the least significant first. */
  function Digits(s: Bytes): nat { if s == [] then 0 else s[0] as nat % 128 + 128 * Digits(s[1..]) }

  /** A number is written in digits to the base 128, the least significant first; every byte but the
      last has its highest bit set. */
  lemma {:induction false} LengthDigits(n: nat)
    ensures
      var s := Varint.Encode(n);
      Digits(s) == n && s[|s| - 1] < 128 && forall i | 0 <= i < |s| - 1 :: s[i] >= 128
  {
    if n >= 128 {
      LengthDigits(n / 128);
      var s, rest := Varint.Encode(n), Varint.Encode(n / 128);
      assert s[1..] == rest && forall i | 1 <= i < |s| :: s[i] == rest[i - 1];
    }
  }

  /** A malformed length: nine bytes that all say that more follow, or a last byte that adds nothing. */
  predicate BadLength(s: Bytes) {
    || (|s| >= 9 && forall i | 0 <= i < 9 :: s[i] >= 128)
    || exists k | 0 < k < |s| && k < 9 :: s[k] == 0 && forall i | 0 <= i < k :: s[i] >= 128
  }

  /** What a length still waits for: some bytes, fewer than nine, that all say that more follow. */
  predicate OpenLength(s: Bytes) { |s| < 9 && forall i | 0 <= i < |s| :: s[i] >= 128 }

  /** The same for a length of which `i` bytes were read before. */
  predicate BadFrom(s: Bytes, i: nat)
    requires i < 9
  {
    || (|s| >= 9 - i && forall j | 0 <= j < 9 - i :: s[j] >= 128)
    || exists k | 0 <= k < |s| && k < 9 - i :: i + k > 0 && s[k] == 0 && forall j | 0 <= j < k :: s[j] >= 128
  }

  predicate OpenFrom(s: Bytes, i: nat)
    requires i < 9
  {
    |s| < 9 - i && forall j | 0 <= j < |s| :: s[j] >= 128
  }

  lemma {:induction false} LengthReadFrom(s: Bytes, i: nat)
    requires i < 9
    ensures Varint.DecodeAt(s, i).Malformed? <==> BadFrom(s, i)
    ensures Varint.DecodeAt(s, i).Need? <==> OpenFrom(s, i)
    decreases |s|
  {
    if s != [] && s[0] >= 128 && i < 8 {
      LengthReadFrom(s[1..], i + 1);
      var r := s[1..];
      assert forall j | 0 <= j < |r| :: r[j] == s[j + 1];
      if BadFrom(r, i + 1) { BadTail(s, i); }
      if BadFrom(s, i) { BadHead(s, i); }
      if OpenFrom(r, i + 1) {
        forall j | 0 <= j < |s| ensures s[j] >= 128 { if j > 0 { assert s[j] == r[j - 1]; } }
      }
    } else if s != [] && s[0] >= 128 {
      assert i == 8;
    } else if s != [] {
      if s[0] == 0 && i > 0 { assert 0 < |s| && 0 < 9 - i; }
    }
  }

  lemma BadTail(s: Bytes, i: nat)
    requires s != [] && s[0] >= 128 && i < 8 && BadFrom(s[1..], i + 1)
    ensures BadFrom(s, i)
  {
    var r := s[1..];
    if |r| >= 8 - i && (forall j | 0 <= j < 8 - i :: r[j] >= 128) {
      forall j | 0 <= j < 9 - i ensures s[j] >= 128 { if j > 0 { assert s[j] == r[j - 1]; } }
    } else {
      var k :| 0 <= k < |r| && k < 8 - i && r[k] == 0 && forall j | 0 <= j < k :: r[j] >= 128;
      assert s[k + 1] == 0;
      forall j | 0 <= j < k + 1 ensures s[j] >= 128 { if j > 0 { assert s[j] == r[j - 1]; } }
    }
  }

  lemma BadHead(s: Bytes, i: nat)
    requires s != [] && s[0] >= 128 && i < 8 && BadFrom(s, i)
    ensures BadFrom(s[1..], i + 1)
  {
    var r := s[1..];
    if |s| >= 9 - i && (forall j | 0 <= j < 9 - i :: s[j] >= 128) {
      forall j | 0 <= j < 8 - i ensures r[j] >= 128 { assert r[j] == s[j + 1]; }
    } else {
      var k :| 0 <= k < |s| && k < 9 - i && s[k] == 0 && forall j | 0 <= j < k :: s[j] >= 128;
      assert r[k - 1] == 0;
      forall j | 0 <= j < k - 1 ensures r[j] >= 128 { assert r[j] == s[j + 1]; }
    }
  }

  /** When a length is malformed, and when it is not complete yet. */
  lemma LengthRead(s: Bytes)
    ensures Varint.Decode(s).Malformed? <==> BadLength(s)
    ensures Varint.Decode(s).Need? <==> OpenLength(s)
  {
    LengthReadFrom(s, 0);
    if BadFrom(s, 0) && !(|s| >= 9 && forall j | 0 <= j < 9 :: s[j] >= 128) {
      var k :| 0 <= k < |s| && k < 9 && k > 0 && s[k] == 0 && forall j | 0 <= j < k :: s[j] >= 128;
      assert 0 < k < |s|;
    }
    if BadLength(s) && !(|s| >= 9 && forall j | 0 <= j < 9 :: s[j] >= 128) {
      var k :| 0 < k < |s| && k < 9 && s[k] == 0 && forall i | 0 <= i < k :: s[i] >= 128;
      assert 0 + k > 0;
    }
  }

  /** A body whose length is malformed is an error, and one whose length is not complete waits. */
  lemma LengthOutcome(c: Config, s: Bytes)
    ensures BadLength(s) ==> ParseBody(c, s) == Fail(IoError("varint"))
    ensures OpenLength(s) ==> ParseBody(c, s) == More
  {
    LengthRead(s);
  }

  /** Behind a length within the limit the frame decides. */
  lemma FrameOutcome(c: Config, n: nat, t: Bytes)
    requires Usable(c) && n <= c.maxPacketSize
    ensures
      var v := Varint.Encode(n);
      ParseBody(c, v + t)
      == match Read(c.block, t, false, n)
         case Data(x, used) => Item(x, |v| + used)
         case Eof => More
         case Corrupt => Fail(IoError("snappy"))
  {
    EncodeMonotone(n, c.maxPacketSize);
    Varint.RoundTrip(n, 0, t);
    assert (Varint.Encode(n) + t)[|Varint.Encode(n)|..] == t;
  }

  /* ---- the limit ---- */

  lemma LengthRefused(c: Config, n: nat, t: Bytes)
    requires n > c.maxPacketSize && |Varint.Encode(n)| <= 9
    ensures ParseBody(c, Varint.Encode(n) + t) == Fail(InvalidData)
  {
    Varint.RoundTrip(n, 0, t);
    assert (Varint.Encode(n) + t)[|Varint.Encode(n)|..] == t;
  }

  /** A chunk, or a request, that announces more bytes than the limit is refused as soon as its
      length is there, whatever follows. */
  lemma TooLongRefused(c: Config, code: byte, n: nat, t: Bytes)
    requires n > c.maxPacketSize && |Varint.Encode(n)| <= 9
    ensures ParseResponse(c, [code] + Varint.Encode(n) + t) == Fail(InvalidData)
    ensures ParseRequest(c, Varint.Encode(n) + t) == Fail(InvalidData)
  {
    hide ParseBody;
    LengthRefused(c, n, t);
    assert ([code] + Varint.Encode(n) + t)[1..] == Varint.Encode(n) + t;
  }

  /** Faithful responses in front do not change how the rest is read. */
  lemma {:induction false} ParsedBehind(c: Config, rs: seq<RPCCodedResponse>, s: Bytes)
    requires Usable(c) && forall r <- rs :: |r.Payload()| <= c.maxPacketSize && Faithful(c, r)
    ensures var p := ParseAll(c, s); ParseAll(c, EncodeAll(c, rs) + s) == p.(items := rs + p.items)
  {
    hide ParseResponse, Faithful, EncodeResponse;
    if rs == [] {
      assert [] + s == s && [] + ParseAll(c, s).items == ParseAll(c, s).items;
    } else {
      var e, t := EncodeResponse(c, rs[0]), EncodeAll(c, rs[1..]) + s;
      ResponseRoundTrip(c, rs[0], t);
      ParsedBehind(c, rs[1..], s);
      ParsedHead(c, e + t);
      assert EncodeAll(c, rs) + s == e + t && (e + t)[|e|..] == t;
      var p := ParseAll(c, s);
      assert [rs[0]] + (rs[1..] + p.items) == rs + p.items;
    }
  }

  /** Over all cuts of the bytes: the responses in front of a chunk that is too long are yielded,
      nothing is yielded for the chunk itself, and the stream fails as invalid. */
  lemma OversizedChunkIsRefused(
    c: Config, rs: seq<RPCCodedResponse>, code: byte, n: nat, t: Bytes, pieces: seq<Bytes>)
    requires Usable(c) && forall r <- rs :: |r.Payload()| <= c.maxPacketSize && Faithful(c, r)
    requires n > c.maxPacketSize && |Varint.Encode(n)| <= 9
    requires Concat(pieces) == EncodeAll(c, rs) + ([code] + Varint.Encode(n) + t)
    ensures var f := Feed(c, FRESH, [], pieces); f.items == rs && f.failed == Some(InvalidData)
  {
    hide Faithful, ParseResponse, EncodeAll, Feed, Concat, Varint.Encode;
    var s := [code] + Varint.Encode(n) + t;
    TooLongRefused(c, code, n, t);
    ParsedHead(c, s);
    ParsedBehind(c, rs, s);
    FragmentationIndependence(c, pieces);
    assert rs + [] == rs;
  }

  lemma OversizedRequestIsRefused(c: Config, n: nat, t: Bytes, pieces: seq<Bytes>)
    requires Usable(c) && n > c.maxPacketSize && |Varint.Encode(n)| <= 9
    requires Concat(pieces) == Varint.Encode(n) + t
    ensures FeedRequest(c, FRESH, [], pieces).result == Err(InvalidData)
  {
    hide ParseRequest, FeedRequest, Concat, Varint.Encode;
    TooLongRefused(c, 0, n, t);
    RequestFragmentation(c, pieces);
  }

  lemma OnePiece(s: Bytes)
    ensures Concat([s]) == s
  {
    assert [s][1..] == [] && s + [] == s;
  }

  /** The code and the length may be all that has arrived. */
  lemma RefusedAtOnce(c: Config, code: byte, n: nat)
    requires Usable(c) && n > c.maxPacketSize && |Varint.Encode(n)| <= 9
    ensures Feed(c, FRESH, [], [[code] + Varint.Encode(n)]).failed == Some(InvalidData)
    ensures FeedRequest(c, FRESH, [], [Varint.Encode(n)]).result == Err(InvalidData)
  {
    hide Feed, FeedRequest, Varint.Encode;
    var s, v := [code] + Varint.Encode(n), Varint.Encode(n);
    assert [s][1..] == [] && s + [] == s && [v][1..] == [] && v + [] == v;
    OnePiece(s);
    OnePiece(v);
    assert EncodeAll(c, []) + (s + []) == s;
    OversizedChunkIsRefused(c, [], code, n, [], [s]);
    OversizedRequestIsRefused(c, n, [], [v]);
  }

  /** A response that was made of a payload within the limit. */
  ghost predicate Within(c: Config, r: RPCCodedResponse) {
    exists code: byte, x: Bytes :: MadeOf(c, r, code, x)
  }

  ghost predicate MadeOf(c: Config, r: RPCCodedResponse, code: byte, x: Bytes) {
    |x| <= c.maxPacketSize && ChunkMeans(c.protocol, code, x, c.lossy) == Some(r)
  }

  lemma BodyWithin(c: Config, s: Bytes)
    ensures ParseBody(c, s).Item? ==> |ParseBody(c, s).value| <= c.maxPacketSize
  {
    match Varint.Decode(s)
    case Done(length, k) =>
      if length <= c.maxPacketSize && Read(c.block, s[k..], false, length).Data? {
        ReadSize(c.block, s[k..], false, length);
      }
    case _ =>
  }

  lemma ResponseWithin(c: Config, s: Bytes)
    ensures ParseResponse(c, s).Item? ==> Within(c, ParseResponse(c, s).value)
  {
    if ParseResponse(c, s).Item? {
      BodyWithin(c, s[1..]);
      assert MadeOf(c, ParseResponse(c, s).value, s[0], ParseBody(c, s[1..]).value) by { hide ParseBody; }
    }
  }

  lemma {:induction false} ParsedWithin(c: Config, s: Bytes)
    ensures forall r <- ParseAll(c, s).items :: Within(c, r)
    decreases |s|
  {
    hide ParseResponse, Within;
    ParsedHead(c, s);
    ResponseWithin(c, s);
    if ParseResponse(c, s).Item? {
      ParseResponseStable(c, s, []);
      ParsedWithin(c, s[ParseResponse(c, s).used..]);
    }
  }

  /** No decoder ever yields anything made of more bytes than the limit, whatever arrives. */
  lemma NothingLargerThanTheLimit(c: Config, pieces: seq<Bytes>)
    requires Usable(c)
    ensures forall r <- Feed(c, FRESH, [], pieces).items :: Within(c, r)
    ensures
      var r := FeedRequest(c, FRESH, [], pieces).result;
      r.Ok? && r.value.Some? ==>
        exists x: Bytes :: |x| <= c.maxPacketSize && RequestMeans(c.protocol, x) == Some(r.value.value)
  {
    hide ParseResponse, FeedRequest, Concat, Within, Feed, ParseAll;
    var s := Concat(pieces);
    FragmentationIndependence(c, pieces);
    ParsedWithin(c, s);
    RequestFragmentation(c, pieces);
    RequestWithin(c, s);
    hide ParseRequest;
  }

  lemma RequestWithin(c: Config, s: Bytes)
    ensures
      var p := ParseRequest(c, s);
      p.Item? ==> exists x: Bytes :: |x| <= c.maxPacketSize && RequestMeans(c.protocol, x) == Some(p.value)
  {
    BodyWithin(c, s);
    hide ParseBody;
    if ParseRequest(c, s).Item? {
      var x := ParseBody(c, s).value;
      assert |x| <= c.maxPacketSize && RequestMeans(c.protocol, x) == Some(ParseRequest(c, s).value);
    }
  }
}
