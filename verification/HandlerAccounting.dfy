/** Where the requests are: for every request identifier, how many dials, waiting streams and
    queued errors carry it, and how each method moves them. Identifiers need not be unique. */
module HandlerAccounting {
  import opened Methods
  import opened Protocols
  import opened DelayQueues
  import opened HandlerModel
  import opened HandlerInvariant

  function One(b: bool): nat { if b then 1 else 0 }

  function DialCount(s: seq<Dial>, x: RequestId): nat {
    if s == [] then 0 else DialCount(s[..|s| - 1], x) + One(s[|s| - 1].id == x)
  }

  function ErrCount(s: seq<HandlerErr>, x: RequestId): nat {
    if s == [] then 0 else ErrCount(s[..|s| - 1], x) + ErrOf(s[|s| - 1], x)
  }

  function ErrOf(e: HandlerErr, x: RequestId): nat { One(e.OutboundErr? && e.id == x) }

  /** Streams below `n` for request `x` that still wait for a response, or that do not any more. */
  function StreamCount(m: map<SubstreamId, OutboundInfo>, n: nat, x: RequestId, waiting: bool): nat {
    if n == 0 then 0
    else StreamCount(m, n - 1, x, waiting) + StreamOf(m, n - 1, x, waiting)
  }

  function StreamOf(m: map<SubstreamId, OutboundInfo>, s: SubstreamId, x: RequestId, waiting: bool): nat {
    One(s in m && m[s].id == x && m[s].state.PendingResponse? == waiting)
  }

  function Waiting(h: HState, x: RequestId): nat { StreamCount(h.outbound, h.nextOut, x, true) }

  function Ending(h: HState, x: RequestId): nat { StreamCount(h.outbound, h.nextOut, x, false) }

  /** The unfinished requests `x` that are in the handler's hands. */
  function Load(h: HState, x: RequestId): nat {
    DialCount(h.dialQueue, x) + Waiting(h, x) + ErrCount(h.pendingErrors, x)
  }

  /* ---- counting ---- */

  lemma DialAppend(s: seq<Dial>, d: Dial, x: RequestId)
    ensures DialCount(s + [d], x) == DialCount(s, x) + One(d.id == x)
  {
    assert (s + [d])[..|s|] == s;
  }

  lemma DialSingle(d: Option<Dial>, x: RequestId)
    ensures DialCount(if d.Some? then [d.value] else [], x) == One(d.Some? && d.value.id == x)
  {
    if d.Some? { DialAppend([], d.value, x); assert [] + [d.value] == [d.value]; }
  }

  lemma {:induction false} DialHead(s: seq<Dial>, x: RequestId)
    requires s != []
    ensures DialCount(s, x) == One(s[0].id == x) + DialCount(s[1..], x)
  {
    if |s| > 1 {
      DialHead(s[..|s| - 1], x);
      assert s[1..][..|s| - 2] == s[..|s| - 1][1..];
    }
  }

  lemma ErrAppend(s: seq<HandlerErr>, e: HandlerErr, x: RequestId)
    ensures ErrCount(s + [e], x) == ErrCount(s, x) + ErrOf(e, x)
  {
    assert (s + [e])[..|s|] == s;
  }

  lemma {:induction false} ErrConcat(s: seq<HandlerErr>, t: seq<HandlerErr>, x: RequestId)
    ensures ErrCount(s + t, x) == ErrCount(s, x) + ErrCount(t, x)
  {
    if t == [] {
      assert s + t == s;
    } else {
      ErrConcat(s, t[..|t| - 1], x);
      assert (s + t)[..|s + t| - 1] == s + t[..|t| - 1];
    }
  }

  lemma ErrHead(s: seq<HandlerErr>, x: RequestId)
    requires s != []
    ensures ErrCount(s, x) == ErrOf(s[0], x) + ErrCount(s[1..], x)
  {
    ErrConcat([s[0]], s[1..], x);
    assert s == [s[0]] + s[1..];
    assert [s[0]][..0] == [];
  }

  lemma {:induction false} RejectionsCount(dials: seq<Dial>, x: RequestId)
    ensures ErrCount(Rejections(dials), x) == DialCount(dials, x)
  {
    if dials != [] {
      RejectionsCount(dials[..|dials| - 1], x);
      ErrHead(Rejections(dials), x);
    }
  }

  /** Maps that agree except at `s` count the same except for `s`. */
  lemma {:induction false} StreamChange(
    m: map<SubstreamId, OutboundInfo>, m': map<SubstreamId, OutboundInfo>,
    n: nat, s: SubstreamId, x: RequestId, waiting: bool)
    requires forall t: nat | t < n && t != s :: StreamOf(m, t, x, waiting) == StreamOf(m', t, x, waiting)
    ensures s < n ==>
      StreamCount(m', n, x, waiting) + StreamOf(m, s, x, waiting)
      == StreamCount(m, n, x, waiting) + StreamOf(m', s, x, waiting)
    ensures s >= n ==> StreamCount(m', n, x, waiting) == StreamCount(m, n, x, waiting)
  {
    if n > 0 { StreamChange(m, m', n - 1, s, x, waiting); }
  }

  lemma StreamNext(m: map<SubstreamId, OutboundInfo>, n: nat, x: RequestId, waiting: bool)
    ensures StreamCount(m, n + 1, x, waiting) == StreamCount(m, n, x, waiting) + StreamOf(m, n, x, waiting)
  {
  }

  /** Streams change only at `s`, which is below the next identifier. */
  lemma StreamChanges(h: HState, h': HState, s: SubstreamId, x: RequestId)
    requires h'.nextOut == h.nextOut && s < h.nextOut
    requires forall t: nat | t != s :: (t in h'.outbound <==> t in h.outbound)
    requires forall t <- h.outbound | t != s :: h'.outbound[t] == h.outbound[t]
    ensures Waiting(h', x) + StreamOf(h.outbound, s, x, true) == Waiting(h, x) + StreamOf(h'.outbound, s, x, true)
    ensures Ending(h', x) + StreamOf(h.outbound, s, x, false) == Ending(h, x) + StreamOf(h'.outbound, s, x, false)
  {
    StreamChange(h.outbound, h'.outbound, h.nextOut, s, x, true);
    StreamChange(h.outbound, h'.outbound, h.nextOut, s, x, false);
  }

  /* ---- methods called from outside ---- */

  /** How a method called from outside moves the request `x`: by how much the load grows, while
      ending streams stay and queued errors are not lost. */
  ghost predicate Gains(h: HState, h': HState, x: RequestId, n: nat) {
    && Load(h', x) == Load(h, x) + n
    && Ending(h', x) == Ending(h, x)
    && ErrCount(h'.pendingErrors, x) >= ErrCount(h.pendingErrors, x)
  }

  lemma KeepAliveGains(h: HState, now: nat, x: RequestId)
    ensures Gains(h, UpdateKeepAlive(h, now), x, 0)
  {
  }

  lemma PushErrorGains(h: HState, e: HandlerErr, x: RequestId)
    ensures Gains(h, PushError(h, e), x, ErrOf(e, x))
  {
    hide DialCount, ErrCount, StreamCount;
    ErrAppend(h.pendingErrors, e, x);
  }

  lemma ShutdownGains(h: HState, final: Option<Dial>, now: nat, x: RequestId)
    ensures Gains(h, Shutdown(h, final, now), x, One(h.state.Active? && final.Some? && final.value.id == x))
  {
    hide DialCount, ErrCount, StreamCount;
    if h.state.Active? {
      var q := if final.Some? then [final.value] else [];
      var errs := h.pendingErrors + Rejections(h.dialQueue);
      var h1 := h.(pendingErrors := errs, dialQueue := q, state := ShuttingDown(now + SHUTDOWN_TIMEOUT_SECS));
      assert DialCount(q, x) == One(final.Some? && final.value.id == x) by {
        DialSingle(final, x);
      }
      assert ErrCount(errs, x) == ErrCount(h.pendingErrors, x) + DialCount(h.dialQueue, x) by {
        ErrConcat(h.pendingErrors, Rejections(h.dialQueue), x);
        RejectionsCount(h.dialQueue, x);
      }
      assert Gains(h, h1, x, One(final.Some? && final.value.id == x));
      KeepAliveGains(h1, now, x);
    } else {
      KeepAliveGains(h, now, x);
    }
  }

  lemma SendRequestGains(h: HState, d: Dial, now: nat, x: RequestId)
    ensures Gains(h, SendRequest(h, d, now), x, One(d.id == x))
  {
    hide DialCount, ErrCount, StreamCount;
    if h.state.Active? {
      DialAppend(h.dialQueue, d, x);
      var h1 := h.(dialQueue := h.dialQueue + [d]);
      assert Gains(h, h1, x, One(d.id == x));
      KeepAliveGains(h1, now, x);
    } else {
      PushErrorGains(h, Rejection(d), x);
    }
  }

  lemma SendResponseGains(h: HState, sid: SubstreamId, r: RPCCodedResponse, x: RequestId)
    ensures Gains(h, SendResponse(h, sid, r), x, 0)
  {
    hide DialCount, ErrCount, StreamCount, PlaceResponse;
    if sid in h.inbound {
      var h1 := ReportResponse(h, sid, r);
      assert Gains(h, h1, x, 0) by {
        if r.IsError() {
          PushErrorGains(
            h, InboundErr(sid, h.inbound[sid].proto, ErrorResponse(r.CodeOfError().value, r.Payload())), x);
        }
      }
      PlaceResponseFrame(h1, sid, r);
    }
  }

  lemma PlaceResponseFrame(h: HState, sid: SubstreamId, r: RPCCodedResponse)
    requires sid in h.inbound
    ensures
      var h' := PlaceResponse(h, sid, r);
      && h'.dialQueue == h.dialQueue && h'.pendingErrors == h.pendingErrors
      && h'.outbound == h.outbound && h'.nextOut == h.nextOut
  {
  }

  lemma InjectInboundGains(h: HState, req: Request, now: nat, x: RequestId)
    ensures Gains(h, InjectInbound(h, req, now), x, 0)
  {
  }

  lemma AddOutboundGains(h: HState, info: OutboundInfo, q: DelayQueue<SubstreamId>, x: RequestId)
    requires h.nextOut !in h.outbound && info.state.PendingResponse?
    ensures
      var h' := h.(outboundDelay := q, outbound := h.outbound[h.nextOut := info], nextOut := h.nextOut + 1);
      Gains(h, h', x, One(info.id == x))
  {
    hide DialCount, ErrCount, StreamCount;
    var m := h.outbound[h.nextOut := info];
    StreamChange(h.outbound, m, h.nextOut, h.nextOut, x, true);
    StreamChange(h.outbound, m, h.nextOut, h.nextOut, x, false);
    StreamNext(m, h.nextOut, x, true);
    StreamNext(m, h.nextOut, x, false);
  }

  /** A negotiated request waits on its stream, is rejected, or is done if it expects nothing. */
  lemma InjectOutboundGains(h: HState, d: Dial, now: nat, x: RequestId)
    requires h.nextOut !in h.outbound && h.dialNegotiated > 0
    ensures Gains(h, InjectOutbound(h, d, now), x,
                  One(d.id == x && (h.state.Deactivated? || d.req.expected > 0)))
  {
    hide DialCount, ErrCount, StreamCount, UpdateKeepAlive;
    var h1 := h.(dialNegotiated := h.dialNegotiated - 1);
    if h.state.Deactivated? {
      PushErrorGains(h1, Rejection(d), x);
    } else if d.req.expected > 0 {
      var info := OutboundInfo(PendingResponse(d.req), h1.outboundDelay.NewKey(), d.req.body.Proto(),
        if d.req.expected > 1 then Some(d.req.expected) else None, d.id);
      AddOutboundGains(h1, info, h1.outboundDelay.Insert(h1.nextOut, now + RESPONSE_TIMEOUT), x);
    }
  }

  lemma InjectDialErrorGains(h: HState, d: Dial, e: DialError, now: nat, x: RequestId)
    requires h.dialNegotiated > 0
    ensures Gains(h, InjectDialError(h, d, e, now), x, One(d.id == x))
  {
    hide DialCount, ErrCount, StreamCount, UpdateKeepAlive, SendRequest;
    if Retries(h, e) {
      SendRequestGains(h.(ioRetries := h.ioRetries + 1), d, now, x);
    } else {
      var h1 := h.(dialNegotiated := h.dialNegotiated - 1);
      KeepAliveGains(h1, now, x);
      PushErrorGains(
        UpdateKeepAlive(h1, now).(ioRetries := 0), OutboundErr(d.id, d.req.body.Proto(), e.ToRPCError()), x);
    }
  }

  /* ---- poll ---- */

  function FinalOf(r: Report, x: RequestId): nat { One(r.Final? && r.id == x) }

  function LateOf(r: Report, x: RequestId): nat { One(r.Late? && r.id == x) }

  function DialOf(r: Option<PollResult>, x: RequestId): nat {
    One(r.Some? && r.value.OutboundSubstreamRequest? && r.value.dial.id == x)
  }

  /** A stage hands out what it takes from the load, by reporting or by dialing; and streams
      come to wait no more only if a final report is made or queued. */
  ghost predicate Balanced(h: HState, h': HState, r: Option<PollResult>, report: Report, x: RequestId) {
    && Load(h', x) + FinalOf(report, x) + DialOf(r, x) == Load(h, x)
    && (r.None? ==> report.NoReport?)
    && LateOf(report, x) + Ending(h', x) + ErrCount(h.pendingErrors, x)
       <= Ending(h, x) + ErrCount(h'.pendingErrors, x) + FinalOf(report, x)
  }

  /** Stages that change neither dials nor streams, and queue errors about inbound streams only. */
  ghost predicate Untouched(h: HState, h': HState, x: RequestId) {
    && h'.dialQueue == h.dialQueue && h'.outbound == h.outbound && h'.nextOut == h.nextOut
    && ErrCount(h'.pendingErrors, x) == ErrCount(h.pendingErrors, x)
  }

  lemma FireInboundUntouched(h: HState, k: Key, x: RequestId)
    requires k in h.inboundDelay.items
    ensures Untouched(h, FireInbound(h, k), x)
  {
    hide DialCount, ErrCount, StreamCount;
    var sid := h.inboundDelay.items[k].value;
    if sid in h.inbound { ErrAppend(h.pendingErrors, InboundErr(sid, h.inbound[sid].proto, StreamTimeout), x); }
  }

  lemma {:induction false} FireInboundsUntouched(h: HState, expired: seq<Key>, x: RequestId)
    ensures Untouched(h, FireInbounds(h, expired), x)
    decreases |expired|
  {
    hide DialCount, ErrCount, StreamCount;
    if expired != [] {
      if expired[0] in h.inboundDelay.items { FireInboundUntouched(h, expired[0], x); }
      FireInboundsUntouched(
        if expired[0] in h.inboundDelay.items then FireInbound(h, expired[0]) else h, expired[1..], x);
    }
  }

  /** The parts of the handler that driving inbound streams leaves alone. */
  ghost predicate OutboundSide(h: HState, h': HState) {
    && h'.dialQueue == h.dialQueue && h'.dialNegotiated == h.dialNegotiated && h'.ioRetries == h.ioRetries
    && h'.outbound == h.outbound && h'.outboundDelay == h.outboundDelay && h'.nextOut == h.nextOut
    && h'.state == h.state && h'.nextIn == h.nextIn
  }

  lemma RespondSide(h: HState, sid: SubstreamId, r: RPCCodedResponse)
    ensures OutboundSide(h, SendResponse(h, sid, r))
  {
  }

  /** Only the inbound stream `sid` is different. */
  ghost predicate OnlyAt(h: HState, h': HState, sid: SubstreamId) {
    OutboundSide(h, h') && h'.inbound - {sid} == h.inbound - {sid}
  }

  lemma SetInFrame(h: HState, sid: SubstreamId, s: InboundState)
    requires sid in h.inbound
    ensures OnlyAt(h, SetIn(h, sid, s), sid) && SetIn(h, sid, s).pendingErrors == h.pendingErrors
  {
  }

  lemma ApplyQueuedFrame(h: HState, sid: SubstreamId, sends: seq<Send>)
    requires sid in h.inbound
    ensures var h' := ApplyQueued(h, sid, sends).h; OnlyAt(h, h', sid) && h'.pendingErrors == h.pendingErrors
  {
  }

  lemma DropInboundFrame(h: HState, sid: SubstreamId, now: nat)
    requires sid in h.inbound
    ensures var h' := DropInbound(h, sid, now); OnlyAt(h, h', sid) && h'.pendingErrors == h.pendingErrors
  {
  }

  lemma CloseAfterFrame(h: HState, sid: SubstreamId, closing: bool)
    requires sid in h.inbound
    ensures
      var h' := CloseAfter(h, sid, closing, []).h;
      && OnlyAt(h, h', sid)
      && h'.pendingErrors
         == h.pendingErrors + (if closing then [] else [InboundErr(sid, h.inbound[sid].proto, HandlerRejected)])
  {
  }

  lemma DriveOnceFrame(h: HState, sid: SubstreamId, io: InboundIo, now: nat)
    requires sid in h.inbound
    ensures
      var h' := DriveOnce(h, sid, io, now).h;
      && OnlyAt(h, h', sid)
      && (|| h'.pendingErrors == h.pendingErrors
          || h'.pendingErrors == h.pendingErrors + [InboundErr(sid, h.inbound[sid].proto, HandlerRejected)])
  {
    hide UpdateKeepAlive, ApplyQueued, DropInbound, CloseAfter, SetIn;
    var info := h.inbound[sid];
    ApplyQueuedFrame(h, sid, []);
    DropInboundFrame(h, sid, now);
    if info.state.PendingSend? {
      CloseAfterFrame(h, sid, info.state.closing);
      ApplyQueuedFrame(h, sid, [Send(sid, info.state.message, io.sendOk)]);
    } else if info.state.PendingFlush? {
      CloseAfterFrame(h, sid, info.state.closing);
    }
    SetInFrame(h, sid, Closing);
    if info.state.PendingSend? { SetInFrame(h, sid, PendingFlush(info.state.closing)); }
  }

  lemma DriveOnceUntouched(h: HState, sid: SubstreamId, io: InboundIo, now: nat, x: RequestId)
    requires sid in h.inbound
    ensures Untouched(h, DriveOnce(h, sid, io, now).h, x)
  {
    hide DialCount, ErrCount, StreamCount, DriveOnce;
    DriveOnceFrame(h, sid, io, now);
    ErrAppend(h.pendingErrors, InboundErr(sid, h.inbound[sid].proto, HandlerRejected), x);
  }

  /** Driving a stream leaves all others where they are. */
  lemma {:induction false} DriveStreamOnly(
    h: HState, sid: SubstreamId, io: (SubstreamId, nat) -> InboundIo, i: nat, now: nat)
    requires sid in h.inbound
    ensures
      var h' := DriveStream(h, sid, io, i, now).h;
      && OnlyAt(h, h', sid)
      && forall s: SubstreamId | s != sid :: s in h'.inbound <==> s in h.inbound
    decreases |QueueOf(h.queued, sid)|, Rank(h.inbound[sid].state)
  {
    DriveOnceFrame(h, sid, io(sid, i), now);
    DriveOnceProgress(h, sid, io(sid, i), now);
    hide DriveOnce, QueueOf, Rank;
    var d := DriveOnce(h, sid, io(sid, i), now);
    assert forall s: SubstreamId | s != sid :: s in d.h.inbound <==> s in d.h.inbound - {sid};
    assert forall s: SubstreamId | s != sid :: s in h.inbound <==> s in h.inbound - {sid};
    if d.further { DriveStreamOnly(d.h, sid, io, i + 1, now); }
  }

  lemma {:induction false} DriveStreamUntouched(
    h: HState, sid: SubstreamId, io: (SubstreamId, nat) -> InboundIo, i: nat, now: nat, x: RequestId)
    requires sid in h.inbound
    ensures Untouched(h, DriveStream(h, sid, io, i, now).h, x)
    decreases |QueueOf(h.queued, sid)|, Rank(h.inbound[sid].state)
  {
    hide DialCount, ErrCount, StreamCount;
    DriveOnceUntouched(h, sid, io(sid, i), now, x);
    DriveOnceProgress(h, sid, io(sid, i), now);
    var d := DriveOnce(h, sid, io(sid, i), now);
    if d.further { DriveStreamUntouched(d.h, sid, io, i + 1, now, x); }
  }

  lemma {:induction false} DriveStreamsOutbound(
    h: HState, order: seq<SubstreamId>, io: (SubstreamId, nat) -> InboundIo, now: nat)
    ensures OutboundSide(h, DriveStreams(h, order, io, now).h)
    decreases |order|
  {
    hide DriveStream;
    if order == [] {
    } else if order[0] !in h.inbound {
      DriveStreamsOutbound(h, order[1..], io, now);
    } else {
      DriveStreamOnly(h, order[0], io, 0, now);
      var d := DriveStream(h, order[0], io, 0, now);
      if d.close.None? { DriveStreamsOutbound(d.h, order[1..], io, now); }
    }
  }

  lemma {:induction false} DriveStreamsUntouched(
    h: HState, order: seq<SubstreamId>, io: (SubstreamId, nat) -> InboundIo, now: nat, x: RequestId)
    ensures Untouched(h, DriveStreams(h, order, io, now).h, x)
    decreases |order|
  {
    hide DialCount, ErrCount, StreamCount;
    if order != [] {
      if order[0] !in h.inbound { DriveStreamsUntouched(h, order[1..], io, now, x); }
      else {
        DriveStreamUntouched(h, order[0], io, 0, now, x);
        DriveStreamsUntouched(DriveStream(h, order[0], io, 0, now).h, order[1..], io, now, x);
      }
    }
  }

  /** Expiries of inbound timers do not touch the outbound side, nor do they remove a stream. */
  lemma {:induction false} FireInboundsKeys(h: HState, expired: seq<Key>)
    ensures
      var h' := FireInbounds(h, expired);
      h'.outbound == h.outbound && h'.outboundDelay == h.outboundDelay && h'.inbound.Keys == h.inbound.Keys
    decreases |expired|
  {
    if expired != [] {
      var h1 := if expired[0] in h.inboundDelay.items then FireInbound(h, expired[0]) else h;
      assert h1.inbound.Keys == h.inbound.Keys;
      FireInboundsKeys(h1, expired[1..]);
    }
  }

  /** If no outbound timer makes `poll` return, no stream was removed. */
  lemma {:induction false} FireOutboundsKeys(h: HState, expired: seq<Key>, now: nat)
    ensures
      var s := FireOutbounds(h, expired, now);
      s.result.None? ==> s.h.outbound == h.outbound && s.h.inbound == h.inbound
    decreases |expired|
  {
    hide UpdateKeepAlive;
    if expired != [] {
      if expired[0] in h.outboundDelay.items {
        FireOutboundsKeys(FireOutbound(h, expired[0], now).h, expired[1..], now);
      } else {
        FireOutboundsKeys(h, expired[1..], now);
      }
    }
  }

  lemma {:induction false} FireOutboundsErrors(h: HState, expired: seq<Key>, now: nat)
    ensures FireOutbounds(h, expired, now).h.pendingErrors == h.pendingErrors
    decreases |expired|
  {
    hide UpdateKeepAlive;
    if expired != [] {
      if expired[0] in h.outboundDelay.items {
        FireOutboundsErrors(FireOutbound(h, expired[0], now).h, expired[1..], now);
      } else {
        FireOutboundsErrors(h, expired[1..], now);
      }
    }
  }

  lemma FireOutboundBalanced(h: HState, k: Key, now: nat, x: RequestId)
    requires Inv(h) && k in h.outboundDelay.items
    ensures var s := FireOutbound(h, k, now); Balanced(h, s.h, s.result, s.report, x)
  {
    hide DialCount, ErrCount, StreamCount;
    StreamChanges(h, FireOutbound(h, k, now).h, h.outboundDelay.items[k].value, x);
  }

  lemma {:induction false} FireOutboundsBalanced(h: HState, expired: seq<Key>, now: nat, x: RequestId)
    requires Inv(h)
    ensures var s := FireOutbounds(h, expired, now); Balanced(h, s.h, s.result, s.report, x)
    decreases |expired|
  {
    hide DialCount, ErrCount, StreamCount;
    if expired != [] {
      if expired[0] in h.outboundDelay.items {
        FireOutboundBalanced(h, expired[0], now, x);
        FireOutboundInv(h, expired[0], now);
      } else {
        FireOutboundsBalanced(h, expired[1..], now, x);
      }
    }
  }

  lemma DriveOutboundFrame(h: HState, sid: SubstreamId, io: OutboundIo, now: nat)
    requires sid in h.outbound
    ensures
      var s, info := DriveOutbound(h, sid, io, now), h.outbound[sid];
      var rejected := info.state.PendingResponse? && h.state.Deactivated?;
      var waits := sid in s.h.outbound && s.h.outbound[sid].state.PendingResponse?;
      && s.h.dialQueue == h.dialQueue && s.h.nextOut == h.nextOut
      && s.h.outbound - {sid} == h.outbound - {sid}
      && (sid in s.h.outbound ==> s.h.outbound[sid].id == info.id)
      && s.h.pendingErrors
         == h.pendingErrors + (if rejected then [OutboundErr(info.id, info.proto, HandlerRejected)] else [])
      && (s.result.None? ==> s.report == NoReport)
      && (s.result.Some? ==> s.result.value.Custom?)
      && (s.report.Final? ==> s.report.id == info.id)
      && !s.report.Late?
      && (info.state.PendingResponse? <==> (waits || rejected || s.report.Final?))
      && !(waits && rejected) && !(waits && s.report.Final?) && !(rejected && s.report.Final?)
      && (!info.state.PendingResponse? && sid in s.h.outbound ==> s.h.outbound[sid].state == info.state)
  {
    hide UpdateKeepAlive;
  }

  /** Driving an outbound stream leaves all others where they are. */
  lemma DriveOutboundOnly(h: HState, sid: SubstreamId, io: OutboundIo, now: nat)
    requires sid in h.outbound
    ensures
      var h' := DriveOutbound(h, sid, io, now).h;
      forall s: SubstreamId | s != sid :: s in h'.outbound <==> s in h.outbound
  {
    DriveOutboundFrame(h, sid, io, now);
    hide DriveOutbound;
    var h' := DriveOutbound(h, sid, io, now).h;
    assert forall s: SubstreamId | s != sid :: s in h'.outbound <==> s in h'.outbound - {sid};
    assert forall s: SubstreamId | s != sid :: s in h.outbound <==> s in h.outbound - {sid};
  }

  lemma DriveOutboundBalanced(h: HState, sid: SubstreamId, io: OutboundIo, now: nat, x: RequestId)
    requires Inv(h) && sid in h.outbound
    ensures var s := DriveOutbound(h, sid, io, now); Balanced(h, s.h, s.result, s.report, x)
  {
    hide DialCount, ErrCount, StreamCount, DriveOutbound;
    DriveOutboundFrame(h, sid, io, now);
    var s, info := DriveOutbound(h, sid, io, now), h.outbound[sid];
    var rejected := OutboundErr(info.id, info.proto, HandlerRejected);
    assert ErrCount(s.h.pendingErrors, x)
        == ErrCount(h.pendingErrors, x)
           + if info.state.PendingResponse? && h.state.Deactivated? then ErrOf(rejected, x) else 0 by
    {
      ErrAppend(h.pendingErrors, rejected, x);
      assert h.pendingErrors + [] == h.pendingErrors;
    }
    assert forall t: nat | t != sid :: (t in s.h.outbound <==> t in s.h.outbound - {sid});
    assert forall t: nat | t != sid :: (t in h.outbound <==> t in h.outbound - {sid});
    assert forall t <- h.outbound | t != sid :: s.h.outbound[t] == (s.h.outbound - {sid})[t];
    StreamChanges(h, s.h, sid, x);
  }

  lemma {:induction false} DriveOutboundsBalanced(
    h: HState, order: seq<SubstreamId>, io: SubstreamId -> OutboundIo, now: nat, x: RequestId)
    requires Inv(h)
    ensures var s := DriveOutbounds(h, order, io, now); Balanced(h, s.h, s.result, s.report, x)
    decreases |order|
  {
    hide DialCount, ErrCount, StreamCount;
    if order != [] {
      if order[0] !in h.outbound { DriveOutboundsBalanced(h, order[1..], io, now, x); }
      else {
        DriveOutboundBalanced(h, order[0], io(order[0]), now, x);
        DriveOutboundInv(h, order[0], io(order[0]), now);
        var s := DriveOutbound(h, order[0], io(order[0]), now);
        if s.result.None? { DriveOutboundsBalanced(s.h, order[1..], io, now, x); }
      }
    }
  }

  lemma EstablishBalanced(h: HState, now: nat, x: RequestId)
    ensures var s := Establish(h, now); Balanced(h, s.h, s.result, s.report, x)
  {
    hide DialCount, ErrCount, StreamCount;
    var s := Establish(h, now);
    if h.dialQueue != [] { DialHead(h.dialQueue, x); }
    assert s.h.outbound == h.outbound && s.h.nextOut == h.nextOut && s.h.pendingErrors == h.pendingErrors;
  }

  lemma PollStreamsBalanced(h: HState, env: PollEnv, x: RequestId)
    requires Inv(h)
    ensures var p := PollStreams(h, env); Balanced(h, p.h, Some(p.result), p.report, x)
  {
    hide DialCount, ErrCount, StreamCount, Inv, DriveStreams, DriveOutbounds, UpdateKeepAlive;
    DriveStreamsUntouched(h, env.inboundOrder, env.inboundIo, env.now, x);
    DriveStreamsInv(h, env.inboundOrder, env.inboundIo, env.now);
    var d := DriveStreams(h, env.inboundOrder, env.inboundIo, env.now);
    if d.close.None? {
      DriveOutboundsBalanced(d.h, env.outboundOrder, env.outboundIo, env.now, x);
      EstablishBalanced(DriveOutbounds(d.h, env.outboundOrder, env.outboundIo, env.now).h, env.now, x);
    }
  }

  /** The load is seen through the outbound side and the queued errors alone. */
  lemma BalancedFrom(h: HState, h1: HState, h': HState, r: Option<PollResult>, report: Report, x: RequestId)
    requires Untouched(h, h1, x) && Balanced(h1, h', r, report, x)
    ensures Balanced(h, h', r, report, x)
  {
    hide DialCount, ErrCount, StreamCount;
  }

  lemma BalancedTrans(h: HState, h1: HState, h': HState, r: Option<PollResult>, report: Report, x: RequestId)
    requires Balanced(h, h1, None, NoReport, x) && Balanced(h1, h', r, report, x)
    ensures Balanced(h, h', r, report, x)
  {
    hide DialCount, ErrCount, StreamCount;
  }

  /** Closing the connection reports nothing. */
  lemma BalancedClose(h: HState, h': HState, e: RPCError, x: RequestId)
    requires Balanced(h, h', None, NoReport, x)
    ensures Balanced(h, h', Some(Close(e)), NoReport, x)
  {
    hide DialCount, ErrCount, StreamCount;
  }

  lemma PollTimersBalanced(h: HState, env: PollEnv, x: RequestId)
    requires Inv(h)
    ensures var p := PollTimers(h, env); Balanced(h, p.h, Some(p.result), p.report, x)
  {
    hide Balanced, Untouched, FireInbounds, FireOutbounds, PollStreams, Inv;
    var h1 := CheckShutdown(h, env.now);
    CheckShutdownInv(h, env.now);
    CheckShutdownUntouched(h, env.now, x);
    FireInboundsUntouched(h1, env.inboundExpired, x);
    FireInboundsInv(h1, env.inboundExpired);
    var h2 := FireInbounds(h1, env.inboundExpired);
    BalancedRefl(h2, x);
    FireOutboundsBalanced(h2, env.outboundExpired, env.now, x);
    FireOutboundsInv(h2, env.outboundExpired, env.now);
    var s := FireOutbounds(h2, env.outboundExpired, env.now);
    PollStreamsBalanced(s.h, env, x);
    var p, q := PollTimers(h, env), PollStreams(s.h, env);
    if env.inboundTimerFails {
      BalancedClose(h2, h2, p.result.error, x);
    } else if s.result.None? {
      BalancedNone(h2, s.h, s.report, x);
      BalancedTrans(h2, s.h, q.h, Some(q.result), q.report, x);
      if env.outboundTimerFails { BalancedClose(h2, s.h, p.result.error, x); }
    }
    BalancedFrom(h1, h2, p.h, Some(p.result), p.report, x);
    BalancedFrom(h, h1, p.h, Some(p.result), p.report, x);
  }

  lemma CheckShutdownUntouched(h: HState, now: nat, x: RequestId)
    ensures Untouched(h, CheckShutdown(h, now), x)
  {
  }

  lemma BalancedRefl(h: HState, x: RequestId)
    ensures Balanced(h, h, None, NoReport, x)
  {
    hide DialCount, ErrCount, StreamCount;
  }

  lemma BalancedNone(h: HState, h': HState, report: Report, x: RequestId)
    requires Balanced(h, h', None, report, x)
    ensures report == NoReport
  {
  }

  /** Each poll reports or dials exactly the requests it lets go of. */
  lemma PollBalanced(h: HState, env: PollEnv, x: RequestId)
    requires Inv(h)
    ensures var p := Poll(h, env); Balanced(h, p.h, Some(p.result), p.report, x)
  {
    hide DialCount, ErrCount, StreamCount;
    if h.pendingErrors != [] { ErrHead(h.pendingErrors, x); }
    else if h.eventsOut == [] { PollTimersBalanced(h, env, x); }
  }
}
