/** What was encoded is decoded: single messages, lists of responses and requests, in whatever
    pieces the bytes arrive. */
module CodecRoundTrips {
  import opened Methods
  import opened Protocols
  import opened SnappyFrame
  import opened CodecModel
  import opened CodecProofs
  import Varint

  lemma BodyRoundTrip(c: Config, x: Bytes, t: Bytes)
    requires Usable(c) && |x| <= c.maxPacketSize
    ensures ParseBody(c, EncodeBody(c, x) + t) == Item(x, |EncodeBody(c, x)|)
  {
    hide Write, Read, Varint.Encode, Varint.DecodeAt, Lawful;
    var v, w := Varint.Encode(|x|), Write(c.block, x);
    var s := EncodeBody(c, x) + t;
    assert s == v + (w + t);
    EncodeMonotone(|x|, c.maxPacketSize);
    Varint.RoundTrip(|x|, 0, w + t);
    assert s[|v|..] == w + t;
    WriteRead(c.block, x, t);
  }

  /* ---- responses ---- */

  predicate FitsProtocol(p: Protocol, r: RPCResponse) {
    match r
    case Status(_) => p.StatusProtocol?
    case Pong(_) => p.PingProtocol?
    case MetaData(_) => p.MetaDataProtocol?
  }

  /** The responses that survive the wire: non-empty success payloads of the stream's own
      protocol, and error texts that are valid UTF-8. */
  predicate Faithful(c: Config, r: RPCCodedResponse) {
    match r
    case Success(resp) => resp.data != [] && FitsProtocol(c.protocol, resp)
    case _ => c.lossy(r.Payload()) == r.Payload()
  }

  /** A response the encoder accepts is decoded to itself, using up its bytes and no more, exactly
      if it is faithful. */
  lemma ResponseRoundTrip(c: Config, r: RPCCodedResponse, t: Bytes)
    requires Usable(c) && |r.Payload()| <= c.maxPacketSize
    ensures
      var e := EncodeResponse(c, r);
      var p := ParseResponse(c, e + t);
      && (p == Item(r, |e|) <==> Faithful(c, r))
      && (!Faithful(c, r) ==> p.Fail? || (p.Item? && p.value != r))
  {
    hide ParseBody, EncodeBody;
    var body := EncodeBody(c, r.Payload());
    var s := EncodeResponse(c, r) + t;
    assert s[1..] == body + t;
    BodyRoundTrip(c, r.Payload(), t);
    CodeRoundTrip(r);
  }

  function EncodeAll(c: Config, rs: seq<RPCCodedResponse>): Bytes
    requires Lawful(c.block)
  {
    if rs == [] then [] else EncodeResponse(c, rs[0]) + EncodeAll(c, rs[1..])
  }

  /** A list of responses, written back to back, is read back as that list with nothing left over
      exactly if every one of them is faithful. */
  lemma {:induction false} ListRoundTrip(c: Config, rs: seq<RPCCodedResponse>)
    requires Usable(c) && forall r <- rs :: |r.Payload()| <= c.maxPacketSize
    ensures ParseAll(c, EncodeAll(c, rs)) == Parsed(rs, [], None) <==> forall r <- rs :: Faithful(c, r)
  {
    hide ParseResponse, Faithful, EncodeResponse;
    if rs != [] {
      var e, t := EncodeResponse(c, rs[0]), EncodeAll(c, rs[1..]);
      ResponseRoundTrip(c, rs[0], t);
      ListRoundTrip(c, rs[1..]);
      ParsedHead(c, e + t);
      assert rs == [rs[0]] + rs[1..];
      assert forall r :: r in rs <==> r == rs[0] || r in rs[1..];
      if Faithful(c, rs[0]) {
        assert (e + t)[|e|..] == t;
        var p := ParseAll(c, t);
        assert ([rs[0]] + p.items)[1..] == p.items;
      }
    } else {
      NothingParsed(c);
    }
  }

  lemma NothingParsed(c: Config)
    ensures ParseResponse(c, []) == More
  {
  }

  lemma ParsedHead(c: Config, s: Bytes)
    ensures
      var p, q := ParseAll(c, s), ParseResponse(c, s);
      && (q.Item? ==>
            && q.used <= |s|
            && p == ParseAll(c, s[q.used..]).(items := [q.value] + ParseAll(c, s[q.used..]).items))
      && (q.Fail? ==> p == Parsed([], s, Some(q.error)))
      && (q.More? ==> p == Parsed([], s, None))
  {
    if ParseResponse(c, s).Item? { ParseResponseStable(c, s, []); }
  }

  /** Faithful responses reach the other side whatever the cuts, and leave the decoder as new. */
  lemma ResponsesArrive(c: Config, rs: seq<RPCCodedResponse>, pieces: seq<Bytes>)
    requires Usable(c) && forall r <- rs :: |r.Payload()| <= c.maxPacketSize && Faithful(c, r)
    requires Concat(pieces) == EncodeAll(c, rs)
    ensures Feed(c, FRESH, [], pieces) == Fed(rs, FRESH, [], None)
  {
    hide Faithful, ParseAll, Feed, EncodeAll, Concat;
    FragmentationIndependence(c, pieces);
    ListRoundTrip(c, rs);
    var f := Feed(c, FRESH, [], pieces);
    NothingPending(f.st, f.rest);
  }

  lemma NothingPending(st: DecoderState, src: Bytes)
    requires Pending(st, src) == []
    ensures st == FRESH && src == []
  {
    assert |Pending(st, src)| == |Taken(st)| + |src|;
  }

  /* ---- requests ---- */

  /** The requests that survive the wire. A metadata request is an empty stream: the protocol name
      alone announces it, and the decoder never sees it. */
  predicate FaithfulRequest(c: Config, r: RPCRequest) {
    !r.MetaDataRequest? && r.data != [] && r.Proto() == c.protocol
  }

  predicate Accepted(c: Config, r: RPCRequest) { r.MetaDataRequest? || |r.data| <= c.maxPacketSize }

  lemma RequestRoundTrip(c: Config, r: RPCRequest, t: Bytes)
    requires Usable(c) && Accepted(c, r)
    ensures
      var e := EncodeRequest(c, r);
      ParseRequest(c, e + t) == Item(r, |e|) <==> FaithfulRequest(c, r)
  {
    hide ParseBody, EncodeBody;
    if r.MetaDataRequest? {
      if ParseRequest(c, t).Item? { ParseRequestStable(c, t, []); }
      assert [] + t == t;
    } else {
      BodyRoundTrip(c, r.data, t);
    }
  }

  /** The length in front of any payload the RPC may carry takes at most three bytes. */
  lemma LengthPrefix(payload: Bytes)
    requires |payload| <= MAX_RPC_SIZE
    ensures 1 <= |Varint.Encode(|payload|)| <= 3
  {
    assert Varint.Pow128(3) == 2_097_152 by { assert Varint.Pow128(1) == 128 && Varint.Pow128(2) == 16_384; }
    Varint.Size(|payload|, 3);
  }

  /** Reading one request: what came out, what is left in the buffer, and the pieces not looked at. */
  datatype FedRequest = FedRequest(
    st: DecoderState, result: Result<Option<RPCRequest>, RPCError>, rest: Bytes, later: seq<Bytes>)

  function FeedRequest(c: Config, st: DecoderState, src: Bytes, pieces: seq<Bytes>): FedRequest
    decreases |pieces|
  {
    if pieces == [] then FedRequest(st, Ok(None), src, [])
    else
      var d := DecodeRequest(c, st, src + pieces[0]);
      if d.result == Ok(None) then FeedRequest(c, d.st, d.rest, pieces[1..])
      else FedRequest(d.st, d.result, d.rest, pieces[1..])
  }

  ghost predicate RequestRead(all: Bytes, p: Parse<RPCRequest>, f: FedRequest) {
    match p
    case Item(x, used) =>
      f.result == Ok(Some(x)) && f.st == FRESH && used <= |all| && f.rest + Concat(f.later) == all[used..]
    case Fail(e) => f.result == Err(e)
    case More => f.result == Ok(None) && Pending(f.st, f.rest) == all
  }

  ghost predicate RequestStepped(c: Config, all: Bytes, p: Parse<RPCRequest>, d: Decoded<RPCRequest>) {
    match p
    case Item(x, used) => d.result == Ok(Some(x)) && d.st == FRESH && used <= |all| && d.rest == all[used..]
    case Fail(e) => d.result == Err(e)
    case More => d.result == Ok(None) && d.st.code == None && Pending(d.st, d.rest) == all && BodyRest(c, d.st, d.rest)
  }

  lemma RequestStep(c: Config, st: DecoderState, src: Bytes)
    requires Usable(c) && st.code == None && (st.len.Some? ==> st.len.value <= c.maxPacketSize)
    ensures RequestStepped(c, Pending(st, src), ParseRequest(c, Pending(st, src)), DecodeRequest(c, st, src))
  {
    hide DecodeBody, ParseBody, BodyRest, MakeRequest, Lawful, Varint.Encode;
    BodyRefines(c, st, src);
    assert Pending(st, src) == LenBytes(st) + src;
    var d := DecodeBody(c, st, src);
    assert d.st.code == None ==> Pending(d.st, d.rest) == LenBytes(d.st) + d.rest;
  }

  lemma {:induction false} RequestFeed(c: Config, st: DecoderState, src: Bytes, pieces: seq<Bytes>)
    requires Usable(c) && st.code == None && BodyRest(c, st, src)
    ensures
      var all := Pending(st, src) + Concat(pieces);
      RequestRead(all, ParseRequest(c, all), FeedRequest(c, st, src, pieces))
    decreases |pieces|
  {
    hide ParseRequest, DecodeRequest, BodyRest, Lawful, Pending, RequestRead;
    if pieces == [] {
      NothingFed(c, st, src);
    } else {
      var now, rest := src + pieces[0], pieces[1..];
      var all := Pending(st, now);
      PendingMore(st, src, pieces[0]);
      assert Pending(st, src) + Concat(pieces) == all + Concat(rest);
      LengthKnown(c, st, src);
      RequestStep(c, st, now);
      var d := DecodeRequest(c, st, now);
      if ParseRequest(c, all) == More {
        RequestFeed(c, d.st, d.rest, rest);
      } else {
        LastFed(c, all, d, rest);
      }
    }
  }

  lemma LengthKnown(c: Config, st: DecoderState, src: Bytes)
    requires BodyRest(c, st, src)
    ensures st.len.Some? ==> st.len.value <= c.maxPacketSize
  {
  }

  lemma PendingMore(st: DecoderState, src: Bytes, t: Bytes)
    ensures Pending(st, src + t) == Pending(st, src) + t
  {
  }

  lemma NothingFed(c: Config, st: DecoderState, src: Bytes)
    requires Usable(c) && st.code == None && BodyRest(c, st, src)
    ensures
      var all := Pending(st, src) + [];
      RequestRead(all, ParseRequest(c, all), FedRequest(st, Ok(None), src, []))
  {
    hide ParseRequest, BodyRest, Lawful, Pending;
    BodyWaits(c, st, src);
    assert Pending(st, src) + [] == Pending(st, src);
  }

  /** The call that settles the outcome. */
  lemma LastFed(c: Config, all: Bytes, d: Decoded<RPCRequest>, rest: seq<Bytes>)
    requires RequestStepped(c, all, ParseRequest(c, all), d) && ParseRequest(c, all) != More
    ensures
      var whole := all + Concat(rest);
      RequestRead(whole, ParseRequest(c, whole), FedRequest(d.st, d.result, d.rest, rest))
  {
    hide ParseRequest, BodyRest, Pending, Concat;
    ParseRequestStable(c, all, Concat(rest));
    if ParseRequest(c, all).Item? {
      var used := ParseRequest(c, all).used;
      assert (all + Concat(rest))[used..] == all[used..] + Concat(rest);
    }
  }

  lemma BodyWaits(c: Config, st: DecoderState, src: Bytes)
    requires Usable(c) && st.code == None && BodyRest(c, st, src)
    ensures ParseRequest(c, Pending(st, src)) == More
  {
    hide ParseBody, BodyRest, Lawful;
    BodyRestIsMore(c, st, src);
    assert Pending(st, src) == LenBytes(st) + src;
  }

  /** In whatever pieces the bytes of a request arrive, the decoder finds the request, or the error,
      that one look at all of them finds, and leaves what follows untouched. */
  lemma RequestFragmentation(c: Config, pieces: seq<Bytes>)
    requires Usable(c)
    ensures RequestRead(Concat(pieces), ParseRequest(c, Concat(pieces)), FeedRequest(c, FRESH, [], pieces))
  {
    RequestFeed(c, FRESH, [], pieces);
    assert Pending(FRESH, []) + Concat(pieces) == Concat(pieces);
  }

  /** Every non-empty request of the stream's protocol arrives, under any fragmentation, and the
      bytes behind it stay where they are. */
  lemma RequestArrives(c: Config, r: RPCRequest, pieces: seq<Bytes>, t: Bytes)
    requires Usable(c) && Accepted(c, r) && FaithfulRequest(c, r)
    requires Concat(pieces) == EncodeRequest(c, r) + t
    ensures
      var f := FeedRequest(c, FRESH, [], pieces);
      f.result == Ok(Some(r)) && f.st == FRESH && f.rest + Concat(f.later) == t
  {
    hide ParseRequest, FeedRequest, EncodeRequest, Concat;
    RequestRoundTrip(c, r, t);
    RequestFragmentation(c, pieces);
    var e := EncodeRequest(c, r);
    assert (e + t)[|e|..] == t;
  }

  /** The limit of the network itself is such a configuration. */
  lemma NetworkLimitUsable(c: Config)
    requires Lawful(c.block) && c.maxPacketSize == MAX_RPC_SIZE
    ensures Usable(c)
  {
    LengthPrefix(seq(MAX_RPC_SIZE, _ => 0));
  }
}
