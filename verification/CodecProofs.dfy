/** The incremental decoders refine the one-shot parsers: in whatever pieces the bytes arrive, the
    same items come out. And what is encoded is decoded. */
module CodecProofs {
  import opened Methods
  import opened Protocols
  import opened SnappyFrame
  import opened CodecModel
  import Varint

  /* ---- parsers ---- */

  lemma ParseFrameStable(c: Config, length: nat, s: Bytes, t: Bytes)
    requires ParseFrame(c, length, s) != More
    ensures ParseFrame(c, length, s + t) == ParseFrame(c, length, s)
    ensures ParseFrame(c, length, s).Item? ==> ParseFrame(c, length, s).used <= |s|
  {
    if length <= c.maxPacketSize {
      ReadStable(c.block, s, t, false, length);
      if Read(c.block, s, false, length).Data? { ReadSize(c.block, s, false, length); }
    }
  }

  lemma ParseBodyStable(c: Config, s: Bytes, t: Bytes)
    requires ParseBody(c, s) != More
    ensures ParseBody(c, s + t) == ParseBody(c, s)
    ensures ParseBody(c, s).Item? ==> 0 < ParseBody(c, s).used <= |s|
  {
    Varint.Stable(s, t, 0);
    match Varint.Decode(s)
    case Done(length, k) =>
      Varint.Canonical(s, 0);
      assert (s + t)[k..] == s[k..] + t;
      ParseFrameStable(c, length, s[k..], t);
    case _ =>
  }

  /** Once a response, or an error, is recognised, bytes that come later do not change it. */
  lemma ParseResponseStable(c: Config, s: Bytes, t: Bytes)
    requires ParseResponse(c, s) != More
    ensures ParseResponse(c, s + t) == ParseResponse(c, s)
    ensures ParseResponse(c, s).Item? ==> 0 < ParseResponse(c, s).used <= |s|
  {
    assert (s + t)[1..] == s[1..] + t;
    ParseBodyStable(c, s[1..], t);
  }

  lemma ParseRequestStable(c: Config, s: Bytes, t: Bytes)
    requires ParseRequest(c, s) != More
    ensures ParseRequest(c, s + t) == ParseRequest(c, s)
    ensures ParseRequest(c, s).Item? ==> 0 < ParseRequest(c, s).used <= |s|
  {
    ParseBodyStable(c, s, t);
  }

  /* ---- one call of an incremental decoder ---- */

  /** A decoder that waits for the rest of a body. */
  ghost predicate BodyRest(c: Config, st: DecoderState, src: Bytes) {
    match st.len
    case None => Varint.Decode(src) == Varint.Need
    case Some(length) =>
      0 < length <= c.maxPacketSize && Read(c.block, src, false, length) == Eof
  }

  function LenBytes(st: DecoderState): Bytes {
    if st.len.Some? then Varint.Encode(st.len.value) else []
  }

  /** A step of a decoder against the parser on everything it has: either the item and nothing
      more is taken, or the error is reported, or all bytes are kept. */
  ghost predicate BodyStep(c: Config, st: DecoderState, src: Bytes, p: Parse<Bytes>, d: Decoded<Bytes>) {
    match p
    case Item(x, used) =>
      && d.result == Ok(Some(x)) && d.st == st.(len := None)
      && used <= |LenBytes(st) + src| && d.rest == (LenBytes(st) + src)[used..]
    case Fail(e) => d.result == Err(e)
    case More =>
      && d.result == Ok(None) && d.st.code == st.code
      && LenBytes(d.st) + d.rest == LenBytes(st) + src && BodyRest(c, d.st, d.rest)
  }

  lemma FrameStep(c: Config, st: DecoderState, length: nat, src: Bytes)
    requires st.len == Some(length)
    ensures BodyStep(c, st, src, Used(|Varint.Encode(length)|, ParseFrame(c, length, src)),
                     DecodeFrame(c, st, length, src))
  {
    var v := Varint.Encode(length);
    if length <= c.maxPacketSize && Read(c.block, src, false, length).Data? {
      ReadSize(c.block, src, false, length);
      var used := Read(c.block, src, false, length).used;
      assert (v + src)[|v| + used..] == src[used..];
    }
  }

  /** The length may have been read in an earlier call: the outcome is as if it were read now. */
  lemma BodyRefines(c: Config, st: DecoderState, src: Bytes)
    requires st.len.Some? ==> st.len.value <= c.maxPacketSize && |Varint.Encode(c.maxPacketSize)| <= Varint.MAX_BYTES
    ensures BodyStep(c, st, src, ParseBody(c, LenBytes(st) + src), DecodeBody(c, st, src))
  {
    match st.len {
      case Some(length) =>
        var v := Varint.Encode(length);
        EncodeMonotone(length, c.maxPacketSize);
        Varint.RoundTrip(length, 0, src);
        assert (v + src)[|v|..] == src;
        FrameStep(c, st, length, src);
      case None =>
        assert LenBytes(st) + src == src;
        match Varint.Decode(src) {
          case Done(length, k) =>
            Varint.Canonical(src, 0);
            assert src[..k] + src[k..] == src;
            FrameStep(c, st.(len := Some(length)), length, src[k..]);
          case _ =>
        }
    }
  }

  /** While a decoder waits for the rest of a body, there is nothing to parse either. */
  lemma BodyRestIsMore(c: Config, st: DecoderState, src: Bytes)
    requires Usable(c) && BodyRest(c, st, src)
    ensures ParseBody(c, LenBytes(st) + src) == More
  {
    BodyRefines(c, st, src);
    assert DecodeBody(c, st, src).result == Ok(None);
    hide ParseBody, Read, Varint.Decode, Varint.Encode, LenBytes;
  }

  lemma {:induction false} EncodeMonotone(m: nat, n: nat)
    requires m <= n
    ensures |Varint.Encode(m)| <= |Varint.Encode(n)|
  {
    if m >= 128 { EncodeMonotone(m / 128, n / 128); }
  }

  /* ---- responses: one call ---- */

  /** The states in which the response decoder waits for more bytes. */
  ghost predicate ResponseRest(c: Config, st: DecoderState, src: Bytes) {
    match st.code
    case None => st.len == None && |src| <= 1
    case Some(_) => BodyRest(c, st, src) && (st.len == None ==> src != [])
  }

  ghost predicate ResponseStep(c: Config, all: Bytes, p: Parse<RPCCodedResponse>, d: Decoded<RPCCodedResponse>) {
    match p
    case Item(x, used) => d.result == Ok(Some(x)) && d.st == FRESH && used <= |all| && d.rest == all[used..]
    case Fail(e) => d.result == Err(e)
    case More => d.result == Ok(None) && Pending(d.st, d.rest) == all && ResponseRest(c, d.st, d.rest)
  }

  /** From the body of a chunk to the chunk with its response code. */
  lemma CodedStep(c: Config, code: byte, st: DecoderState, body: Bytes, p: Parse<Bytes>, d: Decoded<Bytes>)
    requires st.code == Some(code) && body != [] && BodyStep(c, st, body, p, d)
    ensures
      ResponseStep(c, [code] + (LenBytes(st) + body), CodedMeaning(c, code, p), FinishResponse(c, code, d))
  {
    hide MakeCoded, BodyRest;
    var v := LenBytes(st) + body;
    var all := [code] + v;
    match p
    case Item(_, used) => assert all[1 + used..] == v[used..];
    case Fail(_) =>
    case More => assert Pending(d.st, d.rest) == [code] + (LenBytes(d.st) + d.rest);
  }

  /** One call after more bytes arrived does what the parser does with all bytes of the chunk,
      although the decoder refuses to look at a single byte. */
  lemma ResponseRefines(c: Config, st: DecoderState, src: Bytes, t: Bytes)
    requires Usable(c) && ResponseRest(c, st, src)
    ensures
      var all := Pending(st, src) + t;
      ResponseStep(c, all, ParseResponse(c, all), DecodeResponse(c, st, src + t))
  {
    if |src + t| <= 1 {
      ShortWaits(c, st, src, t);
    } else if st.code.Some? {
      KnownCodeRefines(c, st, src + t);
      assert Pending(st, src) + t == Pending(st, src + t);
    } else {
      NewCodeRefines(c, src + t);
      assert Pending(st, src) + t == src + t;
    }
    hide DecodeResponse, ParseResponse, ResponseStep;
  }

  lemma KnownCodeRefines(c: Config, st: DecoderState, now: Bytes)
    requires Usable(c) && st.code.Some? && |now| > 1 && (st.len.Some? ==> st.len.value <= c.maxPacketSize)
    ensures
      var all := Pending(st, now);
      ResponseStep(c, all, ParseResponse(c, all), DecodeResponse(c, st, now))
  {
    hide DecodeBody, ParseBody, FinishResponse, CodedMeaning, ResponseStep, BodyStep, Lawful, Varint.Encode;
    var code, v := st.code.value, LenBytes(st) + now;
    BodyRefines(c, st, now);
    CodedStep(c, code, st, now, ParseBody(c, v), DecodeBody(c, st, now));
    hide LenBytes;
    PendingSplit(st, now);
    assert ([code] + v)[1..] == v;
  }

  lemma PendingSplit(st: DecoderState, src: Bytes)
    requires st.code.Some?
    ensures Pending(st, src) == [st.code.value] + (LenBytes(st) + src)
  {
  }

  lemma NewCodeRefines(c: Config, now: Bytes)
    requires Usable(c) && |now| > 1
    ensures ResponseStep(c, now, ParseResponse(c, now), DecodeResponse(c, FRESH, now))
  {
    var code, body, st := now[0], now[1..], DecoderState(Some(now[0]), None);
    BodyRefines(c, st, body);
    assert LenBytes(st) + body == body && [code] + body == now;
    CodedStep(c, code, st, body, ParseBody(c, body), DecodeBody(c, st, body));
    hide DecodeBody, ParseBody, FinishResponse, CodedMeaning, ResponseStep, BodyStep;
  }

  lemma RestIsMore(c: Config, st: DecoderState, src: Bytes)
    requires Usable(c) && ResponseRest(c, st, src)
    ensures ParseResponse(c, Pending(st, src)) == More
  {
    hide ParseBody, BodyRest, Lawful, Varint.Encode;
    var all := Pending(st, src);
    match st.code
    case None =>
      if all != [] {
        assert all[1..] == [];
        NothingToParse(c);
      }
    case Some(code) =>
      BodyRestIsMore(c, st, src);
      assert all == [code] + (LenBytes(st) + src);
      assert all[1..] == LenBytes(st) + src;
  }

  /** At most one byte: nothing is taken, and nothing could be parsed. */
  lemma ShortWaits(c: Config, st: DecoderState, src: Bytes, t: Bytes)
    requires Usable(c) && ResponseRest(c, st, src) && |src + t| <= 1
    ensures
      var all := Pending(st, src) + t;
      ParseResponse(c, all) == More && all == Pending(st, src + t) && ResponseRest(c, st, src + t)
  {
    hide ParseBody, Read, Varint.Decode, Varint.Encode, Lawful;
    var all := Pending(st, src) + t;
    assert all == Taken(st) + (src + t);
    match st.code
    case None =>
      if all != [] {
        assert all[1..] == [];
        NothingToParse(c);
      }
    case Some(code) =>
      if t == [] {
        assert src + t == src && all == Pending(st, src);
        RestIsMore(c, st, src);
      } else {
        assert src == [] && src + t == t && st.len.Some?;
        ShortRest(c, st, src, t);
        RestIsMore(c, st, t);
      }
  }

  lemma NothingToParse(c: Config)
    ensures ParseBody(c, []) == More
  {
  }

  /** A single byte is no frame. */
  lemma ShortRest(c: Config, st: DecoderState, src: Bytes, t: Bytes)
    requires BodyRest(c, st, src) && st.len.Some? && |t| < 4
    ensures BodyRest(c, st, t)
  {
  }

  /* ---- responses: whole streams ---- */

  /** What came out of a stream: the responses, what is left, and the error that ended it. */
  datatype Fed = Fed(items: seq<RPCCodedResponse>, st: DecoderState, rest: Bytes, failed: Option<RPCError>)

  datatype Parsed = Parsed(items: seq<RPCCodedResponse>, rest: Bytes, failed: Option<RPCError>)

  lemma DecodeProgress(c: Config, st: DecoderState, src: Bytes)
    ensures
      var d := DecodeResponse(c, st, src);
      d.result.Ok? && d.result.value.Some? ==>
        d.st.code == None && |d.rest| < |src| + (if st.code.Some? then 1 else 0)
  {
  }

  /** The reader calls the decoder as long as it yields responses. */
  function Drain(c: Config, st: DecoderState, src: Bytes): Fed
    decreases |src| + (if st.code.Some? then 1 else 0)
  {
    DecodeProgress(c, st, src);
    var d := DecodeResponse(c, st, src);
    match d.result
    case Err(e) => Fed([], d.st, d.rest, Some(e))
    case Ok(None) => Fed([], d.st, d.rest, None)
    case Ok(Some(x)) => var f := Drain(c, d.st, d.rest); f.(items := [x] + f.items)
  }

  /** The pieces in which the bytes arrive, up to the first error. */
  function Feed(c: Config, st: DecoderState, src: Bytes, pieces: seq<Bytes>): Fed
    decreases |pieces|
  {
    if pieces == [] then Fed([], st, src, None)
    else
      var f := Drain(c, st, src + pieces[0]);
      if f.failed.Some? then f
      else var r := Feed(c, f.st, f.rest, pieces[1..]); r.(items := f.items + r.items)
  }

  function Concat(pieces: seq<Bytes>): Bytes {
    if pieces == [] then [] else pieces[0] + Concat(pieces[1..])
  }

  /** All responses at the front of `s`, read at once. */
  function ParseAll(c: Config, s: Bytes): Parsed
    decreases |s|
  {
    match ParseResponse(c, s)
    case More => Parsed([], s, None)
    case Fail(e) => Parsed([], s, Some(e))
    case Item(x, used) =>
      ParseResponseStable(c, s, []);
      var p := ParseAll(c, s[used..]);
      p.(items := [x] + p.items)
  }

  ghost predicate Agrees(c: Config, f: Fed, p: Parsed) {
    && f.items == p.items && f.failed == p.failed
    && (f.failed == None ==> Pending(f.st, f.rest) == p.rest && ResponseRest(c, f.st, f.rest))
  }

  lemma {:induction false} DrainRefines(c: Config, st: DecoderState, src: Bytes, t: Bytes)
    requires Usable(c) && ResponseRest(c, st, src)
    ensures Agrees(c, Drain(c, st, src + t), ParseAll(c, Pending(st, src) + t))
    decreases |Pending(st, src) + t|
  {
    hide DecodeResponse, ParseResponse, ResponseRest;
    var all := Pending(st, src) + t;
    ResponseRefines(c, st, src, t);
    match ParseResponse(c, all)
    case Item(x, used) =>
      ParseResponseStable(c, all, []);
      FreshRests(c);
      DrainRefines(c, FRESH, [], all[used..]);
      assert [] + all[used..] == all[used..] && Pending(FRESH, []) + all[used..] == all[used..];
    case _ =>
  }

  lemma FreshRests(c: Config)
    ensures ResponseRest(c, FRESH, []) && Pending(FRESH, []) == []
  {
  }

  /** Reading in two goes: what the first leaves is read with the second. */
  lemma {:induction false} ParseAllAppend(c: Config, s: Bytes, t: Bytes)
    ensures
      var p := ParseAll(c, s);
      var q := ParseAll(c, p.rest + t);
      if p.failed.Some? then ParseAll(c, s + t).items == p.items && ParseAll(c, s + t).failed == p.failed
      else ParseAll(c, s + t) == q.(items := p.items + q.items)
    decreases |s|
  {
    hide ParseResponse;
    match ParseResponse(c, s)
    case More =>
    case Fail(e) => ParseResponseStable(c, s, t);
    case Item(x, used) =>
      ParseResponseStable(c, s, t);
      assert (s + t)[used..] == s[used..] + t;
      ParseAllAppend(c, s[used..], t);
      var p := ParseAll(c, s[used..]);
      var q := ParseAll(c, p.rest + t);
      assert [x] + (p.items + q.items) == ([x] + p.items) + q.items;
  }

  lemma {:induction false} FeedRefines(c: Config, st: DecoderState, src: Bytes, pieces: seq<Bytes>)
    requires Usable(c) && ResponseRest(c, st, src)
    ensures
      var f, p := Feed(c, st, src, pieces), ParseAll(c, Pending(st, src) + Concat(pieces));
      && f.items == p.items && f.failed == p.failed
      && (f.failed == None ==> Pending(f.st, f.rest) == p.rest)
    decreases |pieces|
  {
    hide ResponseRest, Drain, ParseResponse;
    var all := Pending(st, src);
    if pieces == [] {
      assert src + [] == src && all + [] == all;
      DrainRefines(c, st, src, []);
      RestIsMore(c, st, src);
    } else {
      var t, rest := pieces[0], pieces[1..];
      DrainRefines(c, st, src, t);
      ParseAllAppend(c, all + t, Concat(rest));
      assert all + t + Concat(rest) == all + Concat(pieces);
      var f := Drain(c, st, src + t);
      if f.failed.None? { FeedRefines(c, f.st, f.rest, rest); }
    }
  }

  /** However the bytes of a response stream are cut into pieces, the decoder yields the responses
      that one look at all of them yields, up to the first error, and that error. */
  lemma FragmentationIndependence(c: Config, pieces: seq<Bytes>)
    requires Usable(c)
    ensures
      var f, p := Feed(c, FRESH, [], pieces), ParseAll(c, Concat(pieces));
      && f.items == p.items && f.failed == p.failed
      && (f.failed == None ==> Pending(f.st, f.rest) == p.rest)
  {
    FreshRests(c);
    FeedRefines(c, FRESH, [], pieces);
    assert Pending(FRESH, []) + Concat(pieces) == Concat(pieces);
  }

  lemma CutsDoNotMatter(c: Config, pieces: seq<Bytes>, others: seq<Bytes>)
    requires Usable(c) && Concat(pieces) == Concat(others)
    ensures
      var f, g := Feed(c, FRESH, [], pieces), Feed(c, FRESH, [], others);
      f.items == g.items && f.failed == g.failed
  {
    FragmentationIndependence(c, pieces);
    FragmentationIndependence(c, others);
  }
}
