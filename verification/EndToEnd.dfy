/** From the handler of the peer that answers, over the bytes of a substream, to the decoder of the
    peer that asked. */
module EndToEnd {
  import opened Methods
  import opened Protocols
  import opened SnappyFrame
  import opened CodecModel
  import opened CodecProofs
  import opened CodecRoundTrips
  import opened CodecLimits
  import opened HandlerModel
  import opened HandlerStreams
  import opened HandlerOutcomes
  import opened HandlerRuns
  import opened HandlerTheorems
  import opened HandlerDelivery
  import Varint

  /** The write side of a substream: what is in its buffer, and what was flushed to the peer. */
  datatype Wire = Wire(buffer: Bytes, out: Bytes)

  const FRESH_WIRE: Wire := Wire([], [])

  predicate Fits(c: Config, r: RPCCodedResponse) { |r.Payload()| <= c.maxPacketSize }

  /** What the response encoder leaves in the buffer: it clears it first. */
  function Buffered(c: Config, r: RPCCodedResponse): Bytes
    requires Lawful(c.block)
  {
    if Fits(c, r) then EncodeResponse(c, r) else [r.Code()]
  }

  function Flushed(w: Wire): Wire { Wire([], w.out + w.buffer) }

  /** The substream `sid` after the attempts in `sends`, each of which may be followed by a flush. */
  ghost function After(c: Config, sends: seq<Send>, sid: SubstreamId, flushes: nat -> bool): Wire
    requires Lawful(c.block)
    decreases |sends|
  {
    if sends == [] then FRESH_WIRE
    else
      var n := |sends| - 1;
      var w := After(c, sends[..n], sid, flushes);
      var w := if sends[n].sid == sid then w.(buffer := Buffered(c, sends[n].message)) else w;
      if flushes(n) then Flushed(w) else w
  }

  /** A sink takes a message exactly if the encoder does. */
  ghost predicate Encodes(c: Config, sends: seq<Send>, sid: SubstreamId) {
    forall send <- sends | send.sid == sid :: send.accepted <==> Fits(c, send.message)
  }

  lemma {:induction false} Untouched(c: Config, sends: seq<Send>, sid: SubstreamId, flushes: nat -> bool)
    requires Lawful(c.block) && forall send <- sends :: send.sid != sid
    ensures After(c, sends, sid, flushes) == FRESH_WIRE
    decreases |sends|
  {
    if sends != [] { Untouched(c, sends[..|sends| - 1], sid, flushes); }
  }

  /** Clearing the buffer loses nothing: whenever the handler starts a message on a substream,
      nothing was written to that substream before. */
  lemma NothingIsOverwritten(w: World, c: Config, i: nat, flushes: nat -> bool)
    requires Reachable(w) && Lawful(c.block) && i < |w.hist.sends|
    ensures After(c, w.hist.sends[..i], w.hist.sends[i].sid, flushes) == FRESH_WIRE
  {
    OneMessagePerInboundStream(w);
    Untouched(c, w.hist.sends[..i], w.hist.sends[i].sid, flushes);
  }

  /** After its message only flushes happen to a substream: once one does, all of the message is out. */
  lemma {:induction false} OnlyMessage(c: Config, sends: seq<Send>, i: nat, flushes: nat -> bool)
    requires Lawful(c.block) && i < |sends|
    requires forall j, k | 0 <= j < k < |sends| :: sends[j].sid != sends[k].sid
    ensures
      Flushed(After(c, sends, sends[i].sid, flushes)) == Wire([], Buffered(c, sends[i].message))
    decreases |sends|
  {
    hide Buffered;
    var n, sid := |sends| - 1, sends[i].sid;
    var front := sends[..n];
    if i == n {
      Untouched(c, front, sid, flushes);
      assert [] + Buffered(c, sends[i].message) == Buffered(c, sends[i].message);
    } else {
      OnlyMessage(c, front, i, flushes);
      var w := After(c, front, sid, flushes);
      assert (w.out + w.buffer) + [] == w.out + w.buffer;
    }
  }

  /** An answer on its way: over all runs of the handler that answers, all flushes and all cuts of
      the bytes, the decoder of the peer that asked yields exactly the one message of the substream,
      which is the first answer the application gave or the timeout error. This holds exactly if the
      message is faithful. */
  lemma TheAnswerArrives(w: World, c: Config, i: nat, flushes: nat -> bool, pieces: seq<Bytes>)
    requires Reachable(w) && Usable(c) && i < |w.hist.sends| && Encodes(c, w.hist.sends, w.hist.sends[i].sid)
    requires w.hist.sends[i].accepted
    requires Concat(pieces) == Flushed(After(c, w.hist.sends, w.hist.sends[i].sid, flushes)).out
    ensures
      var send := w.hist.sends[i];
      && Expected(send.sid, send.message, w.hist.answers)
      && (Feed(c, FRESH, [], pieces) == Fed([send.message], FRESH, [], None) <==> Faithful(c, send.message))
  {
    hide Reachable, After, Feed, Concat, Lawful, EncodeResponse, Faithful, Expected, MessagesFrom;
    var send := w.hist.sends[i];
    OneMessagePerInboundStream(w);
    OnlyMessage(c, w.hist.sends, i, flushes);
    OneDecoded(c, send.message, pieces);
  }

  lemma OneDecoded(c: Config, r: RPCCodedResponse, pieces: seq<Bytes>)
    requires Usable(c) && Fits(c, r) && Concat(pieces) == EncodeResponse(c, r)
    ensures Feed(c, FRESH, [], pieces) == Fed([r], FRESH, [], None) <==> Faithful(c, r)
  {
    hide Feed, Concat, ParseAll, Lawful, EncodeResponse, EncodeAll, Faithful;
    OneEncoded(c, r);
    ListRoundTrip(c, [r]);
    FragmentationIndependence(c, pieces);
    if Faithful(c, r) { ResponsesArrive(c, [r], pieces); }
  }

  lemma OneEncoded(c: Config, r: RPCCodedResponse)
    requires Lawful(c.block)
    ensures EncodeAll(c, [r]) == EncodeResponse(c, r)
  {
    assert [r][1..] == [] && EncodeResponse(c, r) + [] == EncodeResponse(c, r);
  }

  /** The timeout error arrives if its text is valid UTF-8 to the peer and fits. */
  lemma TimeoutsAreFaithful(c: Config)
    ensures Faithful(c, ServerError(TIMED_OUT)) <==> c.lossy(TIMED_OUT) == TIMED_OUT
  {
  }

  /** A message the encoder refuses leaves its response code on the wire, from which the peer that
      asked decodes nothing, not even an error: it waits for the rest until the substream ends. */
  lemma RefusedAnswersDoNotArrive(w: World, c: Config, i: nat, flushes: nat -> bool, pieces: seq<Bytes>)
    requires Reachable(w) && Usable(c) && i < |w.hist.sends| && Encodes(c, w.hist.sends, w.hist.sends[i].sid)
    requires !w.hist.sends[i].accepted
    requires Concat(pieces) == Flushed(After(c, w.hist.sends, w.hist.sends[i].sid, flushes)).out
    ensures
      var f := Feed(c, FRESH, [], pieces);
      f.items == [] && f.failed == None && CodecModel.Pending(f.st, f.rest) == [w.hist.sends[i].message.Code()]
  {
    var send := w.hist.sends[i];
    hide Reachable, After, Feed, Concat, Lawful, EncodeResponse;
    OneMessagePerInboundStream(w);
    OnlyMessage(c, w.hist.sends, i, flushes);
    FragmentationIndependence(c, pieces);
    LoneCode(c, send.message.Code());
  }

  lemma LoneCode(c: Config, code: byte)
    ensures ParseAll(c, [code]) == Parsed([], [code], None)
  {
    assert [code][1..] == [];
    NothingToParse(c);
    hide ParseBody;
  }

  /* ---- what the application that asked is told ---- */

  /** What an outbound substream yields first, once `f` came out of its decoder. */
  function Yielded(f: Fed, ended: bool): NextItem {
    if f.items != [] then NextItem.Item(f.items[0])
    else if f.failed.Some? then ItemErr(f.failed.value)
    else if ended then End
    else NotReady
  }

  /** The poll gets to stream `t` first, of all streams that have something for the application. */
  predicate HearsFrom(v: World, env: PollEnv, t: SubstreamId) {
    && !v.closed && Distinct(env.inboundOrder) && DrivesStreams(v.h, env) && !DeadAt(v.h, env.now)
    && ReadyStream(v.h, env) == Some(t)
  }

  /** What the application is told about request `d` when that much came out of the bytes. */
  ghost predicate ToldOfAll(
    d: Dial, items: seq<RPCCodedResponse>, failed: Option<RPCError>, ended: bool, r: PollResult)
  {
    && (items != [] && items[0].Success? ==> r == Custom(Ok(ReceivedResponse(d.id, items[0].resp))))
    && (items != [] && items[0].IsError() ==>
          r == FailedWith(d, ErrorResponse(items[0].CodeOfError().value, items[0].Payload())))
    && (items == [] && failed.Some? ==> r == FailedWith(d, failed.value))
    && (items == [] && failed.None? ==> ended && r == FailedWith(d, IncompleteStream))
  }

  lemma YieldedIsTold(d: Dial, f: Fed, ended: bool)
    requires !Yielded(f, ended).NotReady?
    ensures ToldOfAll(d, f.items, f.failed, ended, ToldAbout(d, Yielded(f, ended)))
  {
  }

  /** What the decoder makes of the bytes of a stream, in whatever pieces they come, is what the
      application is told about the request the stream was opened for. */
  lemma WhatIsFedIsTold(v: World, env: PollEnv, t: SubstreamId, c: Config, pieces: seq<Bytes>, ended: bool)
    requires Reachable(v) && Usable(c) && HearsFrom(v, env, t)
    requires env.outboundIo(t).next == Yielded(Feed(c, FRESH, [], pieces), ended)
    ensures t in v.hist.lives
    ensures
      var p := ParseAll(c, Concat(pieces));
      ToldOfAll(v.hist.lives[t].dial, p.items, p.failed, ended, Poll(v.h, env).result)
  {
    hide Reachable, Poll, Feed, ParseAll, Concat, Lawful, DrivesStreams, ToldAbout, Yielded, ToldOfAll;
    AnswersAreReported(v, env, t);
    FragmentationIndependence(c, pieces);
    YieldedIsTold(v.hist.lives[t].dial, Feed(c, FRESH, [], pieces), ended);
  }

  /** The answer of the peer, from the call in which its application gave it, or from the timer that
      expired, to the result of the poll that tells ours: for every run on both sides, all flushes and
      all cuts, if the message is faithful. */
  lemma TheAnswerIsTold(w: World, i: nat, flushes: nat -> bool, c: Config, pieces: seq<Bytes>,
                        v: World, env: PollEnv, t: SubstreamId, ended: bool)
    requires Reachable(w) && Usable(c) && i < |w.hist.sends| && Encodes(c, w.hist.sends, w.hist.sends[i].sid)
    requires w.hist.sends[i].accepted && Faithful(c, w.hist.sends[i].message)
    requires Concat(pieces) == Flushed(After(c, w.hist.sends, w.hist.sends[i].sid, flushes)).out
    requires Reachable(v) && HearsFrom(v, env, t)
    requires env.outboundIo(t).next == Yielded(Feed(c, FRESH, [], pieces), ended)
    ensures t in v.hist.lives
    ensures
      var m, result, d := w.hist.sends[i].message, Poll(v.h, env).result, v.hist.lives[t].dial;
      && Expected(w.hist.sends[i].sid, m, w.hist.answers)
      && (m.Success? ==> result == Custom(Ok(ReceivedResponse(d.id, m.resp))))
      && (m.IsError() ==> result == FailedWith(d, ErrorResponse(m.CodeOfError().value, m.Payload())))
  {
    hide Reachable, Poll, Feed, ParseAll, Concat, Lawful, Faithful, After, Expected, HearsFrom, Encodes;
    TheAnswerArrives(w, c, i, flushes, pieces);
    FragmentationIndependence(c, pieces);
    WhatIsFedIsTold(v, env, t, c, pieces, ended);
  }

  /** A response that announces more bytes than the limit is told as invalid data. */
  lemma OversizedIsTold(v: World, env: PollEnv, t: SubstreamId, c: Config, pieces: seq<Bytes>,
                        code: byte, n: nat, rest: Bytes, ended: bool)
    requires Reachable(v) && Usable(c) && HearsFrom(v, env, t)
    requires n > c.maxPacketSize && |Varint.Encode(n)| <= 9 && Concat(pieces) == [code] + Varint.Encode(n) + rest
    requires env.outboundIo(t).next == Yielded(Feed(c, FRESH, [], pieces), ended)
    ensures t in v.hist.lives && Poll(v.h, env).result == FailedWith(v.hist.lives[t].dial, InvalidData)
  {
    hide Reachable, Poll, Feed, ParseResponse, Concat, Lawful, HearsFrom, Varint.Encode;
    TooLongRefused(c, code, n, rest);
    ParsedHead(c, Concat(pieces));
    WhatIsFedIsTold(v, env, t, c, pieces, ended);
  }

  /** A message the encoder refused is told as an incomplete stream, once the stream ends. */
  lemma RefusedIsTold(w: World, i: nat, flushes: nat -> bool, c: Config, pieces: seq<Bytes>,
                      v: World, env: PollEnv, t: SubstreamId, ended: bool)
    requires Reachable(w) && Usable(c) && i < |w.hist.sends| && Encodes(c, w.hist.sends, w.hist.sends[i].sid)
    requires !w.hist.sends[i].accepted
    requires Concat(pieces) == Flushed(After(c, w.hist.sends, w.hist.sends[i].sid, flushes)).out
    requires Reachable(v) && HearsFrom(v, env, t)
    requires env.outboundIo(t).next == Yielded(Feed(c, FRESH, [], pieces), ended)
    ensures t in v.hist.lives && ended && Poll(v.h, env).result == FailedWith(v.hist.lives[t].dial, IncompleteStream)
  {
    hide Reachable, Poll, Feed, ParseAll, Concat, Lawful, After, HearsFrom, Encodes;
    RefusedAnswersDoNotArrive(w, c, i, flushes, pieces);
    FragmentationIndependence(c, pieces);
    WhatIsFedIsTold(v, env, t, c, pieces, ended);
  }
}
