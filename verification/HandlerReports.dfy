/** What `poll` hands to the application, compared with the report the model notes beside it; and
    what becomes of the streams that stop waiting for a response. */
module HandlerReports {
  import opened Methods
  import opened Protocols
  import opened DelayQueues
  import opened HandlerModel
  import opened HandlerInvariant
  import opened HandlerAccounting
  import opened HandlerStreams

  /* ---- results and reports ---- */

  /** The request a result of `poll` tells the application about. */
  function ToldOf(r: PollResult): Option<RequestId> {
    match r
    case Custom(Ok(ReceivedResponse(id, _))) => Some(id)
    case Custom(Err(OutboundErr(id, _, _))) => Some(id)
    case _ => None
  }

  function ReportOf(r: Report): Option<RequestId> {
    match r
    case NoReport => None
    case Final(id, _) => Some(id)
    case Chunk(id, _) => Some(id)
    case Late(id, _) => Some(id)
  }

  /** The report says which request the result is about, and a late one is a timeout. */
  ghost predicate Matches(r: Option<PollResult>, report: Report) {
    && ReportOf(report) == (if r.Some? then ToldOf(r.value) else None)
    && (report.Late? ==> r.Some? && IsTimeout(r.value))
    && (report.Chunk? ==> IsChunk(r))
  }

  lemma {:induction false} FireOutboundsMatch(h: HState, expired: seq<Key>, now: nat)
    ensures var s := FireOutbounds(h, expired, now); Matches(s.result, s.report)
    decreases |expired|
  {
    hide UpdateKeepAlive;
    if expired != [] {
      if expired[0] in h.outboundDelay.items {
        FireOutboundsMatch(FireOutbound(h, expired[0], now).h, expired[1..], now);
      } else {
        FireOutboundsMatch(h, expired[1..], now);
      }
    }
  }

  lemma DriveOutboundMatches(h: HState, sid: SubstreamId, io: OutboundIo, now: nat)
    requires Inv(h) && sid in h.outbound
    ensures var s := DriveOutbound(h, sid, io, now); Matches(s.result, s.report)
  {
    InvOutboundOk(h, sid);
    hide UpdateKeepAlive, Inv;
  }

  lemma {:induction false} DriveOutboundsMatch(
    h: HState, order: seq<SubstreamId>, io: SubstreamId -> OutboundIo, now: nat)
    requires Inv(h)
    ensures var s := DriveOutbounds(h, order, io, now); Matches(s.result, s.report)
    decreases |order|
  {
    hide Inv, DriveOutbound;
    if order == [] {
    } else if order[0] !in h.outbound {
      DriveOutboundsMatch(h, order[1..], io, now);
    } else {
      DriveOutboundMatches(h, order[0], io(order[0]), now);
      DriveOutboundInv(h, order[0], io(order[0]), now);
      DriveOutboundsMatch(DriveOutbound(h, order[0], io(order[0]), now).h, order[1..], io, now);
    }
  }

  lemma PollStreamsMatch(h: HState, env: PollEnv)
    requires Inv(h)
    ensures var p := PollStreams(h, env); Matches(Some(p.result), p.report)
  {
    hide Inv, UpdateKeepAlive, DriveStreams, DriveOutbounds;
    DriveStreamsInv(h, env.inboundOrder, env.inboundIo, env.now);
    var d := DriveStreams(h, env.inboundOrder, env.inboundIo, env.now);
    if d.close.None? { DriveOutboundsMatch(d.h, env.outboundOrder, env.outboundIo, env.now); }
  }

  /** `poll` hands out a response to a request, or an error about it, exactly when the model notes
      a report for that request; and a late report is a timeout. */
  lemma PollReports(h: HState, env: PollEnv)
    requires Inv(h)
    ensures var p := Poll(h, env); Matches(Some(p.result), p.report)
  {
    if h.pendingErrors == [] && h.eventsOut == [] {
      hide Inv, FireInbounds, FireOutbounds, PollStreams;
      var h1 := CheckShutdown(h, env.now);
      CheckShutdownInv(h, env.now);
      FireInboundsInv(h1, env.inboundExpired);
      var h2 := FireInbounds(h1, env.inboundExpired);
      FireOutboundsMatch(h2, env.outboundExpired, env.now);
      FireOutboundsInv(h2, env.outboundExpired, env.now);
      PollStreamsMatch(FireOutbounds(h2, env.outboundExpired, env.now).h, env);
    }
  }

  /** In terms of what is handed out: apart from chunks that leave their stream waiting and from
      late timeouts, a poll takes exactly what it tells, or dials, from the handler's load. */
  lemma PollEmits(h: HState, env: PollEnv, x: RequestId)
    requires Inv(h)
    ensures
      var p := Poll(h, env);
      Load(p.h, x) + One(ToldOf(p.result) == Some(x) && !p.report.Chunk? && !p.report.Late?)
      + DialOf(Some(p.result), x) == Load(h, x)
  {
    hide Inv, Poll, DialCount, ErrCount, StreamCount;
    PollBalanced(h, env, x);
    PollReports(h, env);
  }

  /* ---- streams that stop waiting ---- */

  predicate Waits(h: HState, s: SubstreamId) { s in h.outbound && h.outbound[s].state.PendingResponse? }

  function RejectionOf(info: OutboundInfo): HandlerErr { OutboundErr(info.id, info.proto, HandlerRejected) }

  /** A stream that waited waits on, or its last report is made, or a rejection is queued. */
  ghost predicate StopsAt(h: HState, h': HState, report: Report, s: SubstreamId) {
    Waits(h, s) ==>
      var info := h.outbound[s];
      || (Waits(h', s) && h'.outbound[s].id == info.id && h'.outbound[s].proto == info.proto)
      || report == Final(info.id, Some(s))
      || RejectionOf(info) in h'.pendingErrors
  }

  ghost predicate Stops(h: HState, h': HState, report: Report) {
    h.pendingErrors <= h'.pendingErrors && forall s: SubstreamId :: StopsAt(h, h', report, s)
  }

  lemma StopsTrans(h: HState, h1: HState, h2: HState, report: Report)
    requires Stops(h, h1, NoReport) && Stops(h1, h2, report)
    ensures Stops(h, h2, report)
  {
    forall s: SubstreamId ensures StopsAt(h, h2, report, s) {
      assert StopsAt(h, h1, NoReport, s) && StopsAt(h1, h2, report, s);
    }
  }

  lemma DriveOutboundStops(h: HState, sid: SubstreamId, io: OutboundIo, now: nat)
    requires sid in h.outbound
    ensures var s := DriveOutbound(h, sid, io, now); Stops(h, s.h, s.report)
  {
    hide UpdateKeepAlive;
    DriveOutboundFrame(h, sid, io, now);
    DriveOutboundProto(h, sid, io, now);
    hide DriveOutbound;
    var r := DriveOutbound(h, sid, io, now);
    forall s: SubstreamId ensures StopsAt(h, r.h, r.report, s) {
      if s != sid && s in h.outbound { assert s in h.outbound - {sid} && (r.h.outbound - {sid})[s] == h.outbound[s]; }
    }
  }

  lemma DriveOutboundProto(h: HState, sid: SubstreamId, io: OutboundIo, now: nat)
    requires sid in h.outbound
    ensures
      var s := DriveOutbound(h, sid, io, now);
      && (sid in s.h.outbound ==> s.h.outbound[sid].proto == h.outbound[sid].proto)
      && (s.report.Final? ==> s.report == Final(h.outbound[sid].id, Some(sid)))
  {
    hide UpdateKeepAlive;
  }

  lemma {:induction false} DriveOutboundsStop(
    h: HState, order: seq<SubstreamId>, io: SubstreamId -> OutboundIo, now: nat)
    ensures var s := DriveOutbounds(h, order, io, now); Stops(h, s.h, s.report)
    decreases |order|
  {
    hide DriveOutbound, Stops;
    if order == [] {
      StopsRefl(h);
    } else if order[0] !in h.outbound {
      DriveOutboundsStop(h, order[1..], io, now);
    } else {
      DriveOutboundStops(h, order[0], io(order[0]), now);
      DriveOutboundFrame(h, order[0], io(order[0]), now);
      var s := DriveOutbound(h, order[0], io(order[0]), now);
      if s.result.None? {
        DriveOutboundsStop(s.h, order[1..], io, now);
        var r := DriveOutbounds(s.h, order[1..], io, now);
        StopsTrans(h, s.h, r.h, r.report);
      }
    }
  }

  lemma StopsRefl(h: HState)
    ensures Stops(h, h, NoReport)
  {
  }

  lemma {:induction false} FireOutboundsStop(h: HState, expired: seq<Key>, now: nat)
    ensures var s := FireOutbounds(h, expired, now); Stops(h, s.h, s.report)
    ensures FireOutbounds(h, expired, now).result.None? ==> FireOutbounds(h, expired, now).report == NoReport
    decreases |expired|
  {
    hide UpdateKeepAlive;
    if expired != [] {
      if expired[0] in h.outboundDelay.items {
        var s := FireOutbound(h, expired[0], now);
        assert Stops(h, s.h, s.report);
        hide FireOutbound, Stops;
        if s.result.None? {
          FireOutboundsStop(s.h, expired[1..], now);
          var r := FireOutbounds(s.h, expired[1..], now);
          StopsTrans(h, s.h, r.h, r.report);
        }
      } else {
        FireOutboundsStop(h, expired[1..], now);
      }
    }
  }

  /** As `Stops`, for stages that may queue errors first. */
  ghost predicate Lets(h: HState, p: PollOut) {
    forall s: SubstreamId :: StopsAt(h, p.h, p.report, s)
  }

  lemma PollStreamsStop(h: HState, env: PollEnv)
    ensures Lets(h, PollStreams(h, env))
  {
    hide UpdateKeepAlive, DriveStreams, DriveOutbounds;
    DriveStreamsOutbound(h, env.inboundOrder, env.inboundIo, env.now);
    var d := DriveStreams(h, env.inboundOrder, env.inboundIo, env.now);
    var p := PollStreams(h, env);
    DriveOutboundsStop(d.h, env.outboundOrder, env.outboundIo, env.now);
    DriveOutboundsQuiet(d.h, env.outboundOrder, env.outboundIo, env.now);
    var r := DriveOutbounds(d.h, env.outboundOrder, env.outboundIo, env.now);
    forall s: SubstreamId ensures StopsAt(h, p.h, p.report, s) {
      assert StopsAt(d.h, r.h, r.report, s);
    }
  }

  lemma PollStops(h: HState, env: PollEnv)
    ensures Lets(h, Poll(h, env))
  {
    if h.pendingErrors == [] && h.eventsOut == [] {
      hide FireInbounds, FireOutbounds, PollStreams, UpdateKeepAlive;
      var h1 := CheckShutdown(h, env.now);
      FireInboundsFrame(h1, env.inboundExpired);
      var h2 := FireInbounds(h1, env.inboundExpired);
      FireOutboundsStop(h2, env.outboundExpired, env.now);
      FireOutboundsKeys(h2, env.outboundExpired, env.now);
      var r, p := FireOutbounds(h2, env.outboundExpired, env.now), Poll(h, env);
      PollStreamsStop(r.h, env);
      var q := PollStreams(r.h, env);
      forall s: SubstreamId ensures StopsAt(h, p.h, p.report, s) {
        assert StopsAt(h2, r.h, r.report, s) && StopsAt(r.h, q.h, q.report, s);
      }
    }
  }

  /** A stream stops waiting in a poll that does not report on it. */
  predicate Rejects(h: HState, p: PollOut, s: SubstreamId) {
    Waits(h, s) && !Waits(p.h, s) && !(p.report.Final? && p.report.stream == Some(s))
  }

  /** That leaves the rejection of its request in the queue of errors to be handed out. */
  lemma RejectionIsQueued(h: HState, env: PollEnv, s: SubstreamId)
    requires Rejects(h, Poll(h, env), s)
    ensures RejectionOf(h.outbound[s]) in Poll(h, env).h.pendingErrors
  {
    PollStops(h, env);
    hide Poll;
    assert StopsAt(h, Poll(h, env).h, Poll(h, env).report, s);
  }

  /* ---- late timeouts ---- */

  /** The first of the expired timers that is still in the queue. */
  function FirstLive(q: DelayQueue<SubstreamId>, expired: seq<Key>): Option<Key>
    decreases |expired|
  {
    if expired == [] then None
    else if expired[0] in q.items then Some(expired[0])
    else FirstLive(q, expired[1..])
  }

  /** The guard of the branch that reports a timeout of a request that was reported on before:
      there is nothing left to hand out, the inbound timers did not fail, and the outbound timer
      that expires first belongs to a stream that is closing. */
  predicate LateGuard(h: HState, env: PollEnv) {
    && h.pendingErrors == [] && h.eventsOut == [] && !env.inboundTimerFails
    && var k := FirstLive(h.outboundDelay, env.outboundExpired);
    && k.Some? && k.value in h.outboundDelay.items
    && var s := h.outboundDelay.items[k.value].value;
    && s in h.outbound && h.outbound[s].state.OutClosing?
  }

  lemma {:induction false} FireOutboundsLate(h: HState, expired: seq<Key>, now: nat)
    requires Inv(h)
    ensures
      var s, k := FireOutbounds(h, expired, now), FirstLive(h.outboundDelay, expired);
      && (s.result.Some? <==> k.Some?)
      && (k.Some? ==>
            && k.value in h.outboundDelay.items
            && var sid := h.outboundDelay.items[k.value].value;
            && sid in h.outbound
            && (s.report.Late? <==> h.outbound[sid].state.OutClosing?)
            && (s.report.Late? ==> s.report.sid == sid))
      && (s.report.Late? ==> s.result.Some?)
    decreases |expired|
  {
    hide UpdateKeepAlive;
    if expired != [] {
      if expired[0] in h.outboundDelay.items {
        var sid := h.outboundDelay.items[expired[0]].value;
        assert sid in h.outbound;
        InvOutboundOk(h, sid);
      } else {
        FireOutboundsLate(h, expired[1..], now);
      }
    }
  }

  lemma LateExactly(h: HState, env: PollEnv)
    requires Inv(h)
    ensures Poll(h, env).report.Late? <==> LateGuard(h, env)
  {
    if h.pendingErrors == [] && h.eventsOut == [] {
      hide Inv, FireInbounds, FireOutbounds, PollStreams, UpdateKeepAlive, Evolves;
      var h1 := CheckShutdown(h, env.now);
      CheckShutdownInv(h, env.now);
      FireInboundsFrame(h1, env.inboundExpired);
      FireInboundsInv(h1, env.inboundExpired);
      var h2 := FireInbounds(h1, env.inboundExpired);
      FireOutboundsLate(h2, env.outboundExpired, env.now);
      FireOutboundsInv(h2, env.outboundExpired, env.now);
      PollStreamsEvolve(FireOutbounds(h2, env.outboundExpired, env.now).h, env);
    }
  }
}
