/** What happens to single substreams: an inbound stream only moves towards its end and
    starts at most one message; an outbound stream counts its chunks down. */
module HandlerStreams {
  import opened Methods
  import opened Protocols
  import opened DelayQueues
  import opened HandlerModel
  import opened HandlerInvariant
  import opened HandlerAccounting

  /* ---- inbound: ranks and sends ---- */

  function RankAt(m: map<SubstreamId, InboundInfo>, s: SubstreamId): nat {
    if s in m then Rank(m[s].state) else 0
  }

  /** Inbound streams below `n` have not moved away from their end, and none appeared. */
  ghost predicate Sinks(m: map<SubstreamId, InboundInfo>, m': map<SubstreamId, InboundInfo>) {
    forall s: SubstreamId :: RankAt(m', s) <= RankAt(m, s)
  }

  /** A list of send attempts that started in the streams `m` and left them at `m'`: at most one
      on each stream, of the message that the stream held, and no other can follow. */
  ghost predicate SendsOk(
    m: map<SubstreamId, InboundInfo>, m': map<SubstreamId, InboundInfo>, sends: seq<Send>)
  {
    && (forall i | 0 <= i < |sends| ::
          && sends[i].sid in m && m[sends[i].sid].state == PendingSend(sends[i].message, true)
          && RankAt(m', sends[i].sid) <= Rank(PendingFlush(true)))
    && (forall i, j | 0 <= i < j < |sends| :: sends[i].sid != sends[j].sid)
  }

  /** Messages do not change while a stream waits to send them. */
  ghost predicate KeepsMessages(m: map<SubstreamId, InboundInfo>, m': map<SubstreamId, InboundInfo>) {
    forall s <- m' :: m'[s].state.PendingSend? ==>
      s in m && m[s].state == m'[s].state
  }

  lemma DriveOnceSinks(h: HState, sid: SubstreamId, io: InboundIo, now: nat)
    requires sid in h.inbound && InboundOk(h.inbound[sid], QueueOf(h.queued, sid))
    ensures
      var d, s := DriveOnce(h, sid, io, now), h.inbound[sid].state;
      var m := d.h.inbound;
      && RankAt(m, sid) <= Rank(s)
      && (d.further ==> RankAt(m, sid) < Rank(s))
      && (sid in m && m[sid].state.PendingSend? ==> m[sid].state == s)
      && (d.sends != [] ==>
            && !h.state.Deactivated? && s.PendingSend? && s.closing
            && d.sends == [Send(sid, s.message, io.sendOk)]
            && d.further && RankAt(m, sid) <= 2)
  {
    hide UpdateKeepAlive;
  }

  ghost predicate DrivenAt(h: HState, sid: SubstreamId, d: Drive) {
    && d.h.inbound - {sid} == h.inbound - {sid}
    && RankAt(d.h.inbound, sid) <= RankAt(h.inbound, sid)
    && (sid in d.h.inbound && d.h.inbound[sid].state.PendingSend? ==>
          sid in h.inbound && d.h.inbound[sid].state == h.inbound[sid].state)
    && (d.sends != [] ==>
          && !h.state.Deactivated?
          && |d.sends| == 1 && d.sends[0].sid == sid
          && sid in h.inbound && h.inbound[sid].state == PendingSend(d.sends[0].message, true)
          && RankAt(d.h.inbound, sid) <= 2)
  }

  lemma {:induction false} DriveStreamSinks(
    h: HState, sid: SubstreamId, io: (SubstreamId, nat) -> InboundIo, i: nat, now: nat)
    requires Inv(h) && sid in h.inbound
    ensures DrivenAt(h, sid, DriveStream(h, sid, io, i, now))
    decreases |QueueOf(h.queued, sid)|, Rank(h.inbound[sid].state)
  {
    assert InboundOk(h.inbound[sid], QueueOf(h.queued, sid));
    hide DriveOnce, Inv;
    DriveOnceFrame(h, sid, io(sid, i), now);
    DriveOnceSinks(h, sid, io(sid, i), now);
    DriveOnceInv(h, sid, io(sid, i), now);
    DriveOnceProgress(h, sid, io(sid, i), now);
    var d := DriveOnce(h, sid, io(sid, i), now);
    if d.further {
      DriveOnceOpen(h, sid, io(sid, i), now);
      DriveStreamSinks(d.h, sid, io, i + 1, now);
    }
  }

  lemma {:induction false} DriveStreamState(
    h: HState, sid: SubstreamId, io: (SubstreamId, nat) -> InboundIo, i: nat, now: nat)
    requires sid in h.inbound
    ensures DriveStream(h, sid, io, i, now).h.state == h.state
    decreases |QueueOf(h.queued, sid)|, Rank(h.inbound[sid].state)
  {
    hide DriveOnce;
    DriveOnceOpen(h, sid, io(sid, i), now);
    DriveOnceProgress(h, sid, io(sid, i), now);
    var d := DriveOnce(h, sid, io(sid, i), now);
    if d.further { DriveStreamState(d.h, sid, io, i + 1, now); }
  }

  /** All inbound streams, each driven at most once. */
  lemma {:induction false} DriveStreamsSink(
    h: HState, order: seq<SubstreamId>, io: (SubstreamId, nat) -> InboundIo, now: nat)
    requires Inv(h)
    ensures
      var d := DriveStreams(h, order, io, now);
      && Sinks(h.inbound, d.h.inbound) && KeepsMessages(h.inbound, d.h.inbound)
      && SendsOk(h.inbound, d.h.inbound, d.sends)
      && (h.state.Deactivated? ==> d.sends == [])
    decreases |order|
  {
    hide DriveStream, Inv;
    if order != [] {
      var sid := order[0];
      if sid !in h.inbound { DriveStreamsSink(h, order[1..], io, now); }
      else {
        DriveStreamSinks(h, sid, io, 0, now);
        DriveStreamInv(h, sid, io, 0, now);
        DriveStreamState(h, sid, io, 0, now);
        var d := DriveStream(h, sid, io, 0, now);
        DrivenAtSinks(h, sid, d);
        if d.close.None? {
          DriveStreamsSink(d.h, order[1..], io, now);
          var r := DriveStreams(d.h, order[1..], io, now);
          SendsAppend(h.inbound, d.h.inbound, r.h.inbound, d.sends, r.sends);
        }
      }
    }
  }

  lemma DrivenAtSinks(h: HState, sid: SubstreamId, d: Drive)
    requires DrivenAt(h, sid, d)
    ensures Sinks(h.inbound, d.h.inbound) && KeepsMessages(h.inbound, d.h.inbound)
    ensures SendsOk(h.inbound, d.h.inbound, d.sends)
  {
    hide Rank;
    assert forall s | s != sid :: s in h.inbound <==> s in h.inbound - {sid};
    assert forall s | s != sid :: s in d.h.inbound <==> s in d.h.inbound - {sid};
    assert forall s <- h.inbound | s != sid :: (h.inbound - {sid})[s] == h.inbound[s];
    assert forall s <- d.h.inbound | s != sid :: (d.h.inbound - {sid})[s] == d.h.inbound[s];
    assert Rank(PendingFlush(true)) == 2 by { RankFlush(); }
  }

  lemma RankFlush()
    ensures Rank(PendingFlush(true)) == 2
  {
  }

  lemma SendsAppend(
    m: map<SubstreamId, InboundInfo>, m1: map<SubstreamId, InboundInfo>, m2: map<SubstreamId, InboundInfo>,
    sends: seq<Send>, more: seq<Send>)
    requires SendsOk(m, m1, sends) && SendsOk(m1, m2, more)
    requires Sinks(m1, m2) && KeepsMessages(m, m1) && Sinks(m, m1)
    ensures SendsOk(m, m2, sends + more)
  {
    forall i | 0 <= i < |more|
      ensures more[i].sid in m && m[more[i].sid].state == PendingSend(more[i].message, true)
      ensures forall j | 0 <= j < |sends| :: sends[j].sid != more[i].sid
    {
      var s := more[i].sid;
      assert RankAt(m, s) >= RankAt(m1, s) == 3;
    }
  }

  /* ---- inbound: timers ---- */

  /** Where a message that waits to be sent may come from: the first response the application
      gave for the stream, or the timeout. */
  ghost predicate MessagesFrom(m: map<SubstreamId, InboundInfo>, answers: map<SubstreamId, RPCCodedResponse>) {
    forall s <- m ::
      && (m[s].state.Idle? ==> s !in answers)
      && (m[s].state.PendingSend? ==> Expected(s, m[s].state.message, answers))
  }

  predicate Expected(s: SubstreamId, message: RPCCodedResponse, answers: map<SubstreamId, RPCCodedResponse>) {
    message == ServerError(TIMED_OUT) || (s in answers && answers[s] == message)
  }

  lemma FireInboundSinks(h: HState, k: Key, answers: map<SubstreamId, RPCCodedResponse>)
    requires Inv(h) && k in h.inboundDelay.items && MessagesFrom(h.inbound, answers)
    ensures Sinks(h.inbound, FireInbound(h, k).inbound) && MessagesFrom(FireInbound(h, k).inbound, answers)
  {
    var m := FireInbound(h, k).inbound;
    assert m.Keys == h.inbound.Keys;
  }

  lemma {:induction false} FireInboundsSink(
    h: HState, expired: seq<Key>, answers: map<SubstreamId, RPCCodedResponse>)
    requires Inv(h) && MessagesFrom(h.inbound, answers)
    ensures Sinks(h.inbound, FireInbounds(h, expired).inbound)
    ensures MessagesFrom(FireInbounds(h, expired).inbound, answers)
    ensures FireInbounds(h, expired).state == h.state && FireInbounds(h, expired).nextIn == h.nextIn
    decreases |expired|
  {
    hide Inv, FireInbound, Rank;
    if expired != [] {
      var h1 := if expired[0] in h.inboundDelay.items then FireInbound(h, expired[0]) else h;
      if expired[0] in h.inboundDelay.items {
        FireInboundSinks(h, expired[0], answers);
        FireInboundInv(h, expired[0]);
        FireInboundFrame(h, expired[0]);
      }
      FireInboundsSink(h1, expired[1..], answers);
    }
  }

  /** An expired timer, in whatever state it finds its stream, leaves it closing or about to close
      after its send, and without a timer; the expiry is reported. */
  lemma FireInboundCommits(h: HState, k: Key)
    requires Inv(h) && k in h.inboundDelay.items
    ensures
      var h', sid := FireInbound(h, k), h.inboundDelay.items[k].value;
      && sid in h'.inbound && h'.inbound[sid].key == None && k !in h'.inboundDelay.items
      && (match h'.inbound[sid].state
          case PendingSend(_, closing) => closing
          case PendingFlush(closing) => closing
          case Closing => true
          case _ => false)
      && h'.pendingErrors == h.pendingErrors + [InboundErr(sid, h.inbound[sid].proto, StreamTimeout)]
  {
  }

  lemma FireInboundFrame(h: HState, k: Key)
    requires k in h.inboundDelay.items
    ensures
      var h' := FireInbound(h, k);
      && h'.state == h.state && h'.nextIn == h.nextIn && h'.nextOut == h.nextOut
      && h'.outbound == h.outbound && h'.outboundDelay == h.outboundDelay
      && h'.dialQueue == h.dialQueue && h'.dialNegotiated == h.dialNegotiated && h'.ioRetries == h.ioRetries
  {
  }

  /** What the application's responses do to the streams: the first one for an idle stream becomes
      its message, later ones change no message. */
  lemma SendResponseSinks(
    h: HState, sid: SubstreamId, r: RPCCodedResponse, answers: map<SubstreamId, RPCCodedResponse>)
    requires MessagesFrom(h.inbound, answers)
    ensures
      var h' := SendResponse(h, sid, r);
      var answers' :=
        if sid in h.inbound && !h.state.Deactivated? && sid !in answers then answers[sid := r] else answers;
      && Sinks(h.inbound, h'.inbound) && h'.inbound.Keys == h.inbound.Keys && h'.nextIn == h.nextIn
      && MessagesFrom(h'.inbound, answers')
  {
    if sid in h.inbound {
      var h1, h' := ReportResponse(h, sid, r), SendResponse(h, sid, r);
      assert h1.inbound == h.inbound && h1.nextIn == h.nextIn;
      assert h'.inbound == h.inbound || h'.inbound == h.inbound[sid := h'.inbound[sid]];
    }
  }

  /* ---- outbound: chunks and deadlines ---- */

  /** How a stage changes the stream `s`, if it is still there afterwards. */
  ghost predicate EvolvesAt(h: HState, h': HState, s: SubstreamId, report: Report, now: nat)
    requires s in h'.outbound && h'.outbound[s].key in h'.outboundDelay.items
  {
    && s in h.outbound && h.outbound[s].key in h.outboundDelay.items
    && var i, i' := h.outbound[s], h'.outbound[s];
    && i'.id == i.id && i'.proto == i.proto
    && var t, t' := h.outboundDelay.items[i.key].deadline, h'.outboundDelay.items[i'.key].deadline;
    if report.Chunk? && report.sid == s then
      && i.state.PendingResponse? && i'.state == i.state
      && i.remaining.Some? && i.remaining.value > 1 && i'.remaining == Some(i.remaining.value - 1)
      && t' == now + RESPONSE_TIMEOUT
    else
      && t' == t
      && (i'.state.PendingResponse? ==> i.state == i'.state && i.remaining == i'.remaining)
  }

  ghost predicate AllEvolve(h: HState, h': HState, report: Report, now: nat) {
    forall s <- h'.outbound ::
      h'.outbound[s].key in h'.outboundDelay.items && EvolvesAt(h, h', s, report, now)
  }

  predicate IsChunk(r: Option<PollResult>) {
    r.Some? && r.value.Custom? && r.value.event.Ok? && r.value.event.value.ReceivedResponse?
  }

  /** How a stage changes the outbound streams: a chunk report counts its stream down and renews
      its timer, a final report comes from a stream that waited and now waits no more, a late one
      from a stream that did not wait any more. No other stream gains anything. */
  ghost predicate Evolves(h: HState, h': HState, r: Option<PollResult>, report: Report, now: nat) {
    && h'.nextOut == h.nextOut
    && AllEvolve(h, h', report, now)
    && (report.Chunk? ==> report.sid in h'.outbound && IsChunk(r))
    && (report.Final? && report.stream.Some? ==>
          && var s := report.stream.value;
          && s in h.outbound && h.outbound[s].state.PendingResponse?
          && (s in h'.outbound ==> h'.outbound[s].state.OutClosing?)
          && (IsChunk(r) ==>
                h.outbound[s].remaining.Some? && h.outbound[s].state.req.expected > 1 ==>
                  h.outbound[s].remaining.value == 1))
    && (report.Late? ==>
          report.sid in h.outbound && h.outbound[report.sid].state.OutClosing? && report.sid !in h'.outbound)
    && (IsChunk(r) ==> report.Chunk? || (report.Final? && report.stream.Some?))
  }

  lemma EvolvesRefl(h: HState, now: nat)
    requires Inv(h)
    ensures AllEvolve(h, h, NoReport, now)
  {
    forall s <- h.outbound ensures h.outbound[s].key in h.outboundDelay.items { InvOutboundOk(h, s); }
    hide Inv;
  }

  lemma EvolvesTrans(h: HState, h1: HState, h2: HState, r: Option<PollResult>, report: Report, now: nat)
    requires Evolves(h, h1, None, NoReport, now) && Evolves(h1, h2, r, report, now)
    requires report.Late? ==> h1.outbound == h.outbound
    ensures Evolves(h, h2, r, report, now)
  {
  }

  lemma FireOutboundEvolves(h: HState, k: Key, now: nat)
    requires Inv(h) && k in h.outboundDelay.items
    ensures var s := FireOutbound(h, k, now); Evolves(h, s.h, s.result, s.report, now)
  {
    hide UpdateKeepAlive;
  }

  lemma {:induction false} FireOutboundsEvolve(h: HState, expired: seq<Key>, now: nat)
    requires Inv(h)
    ensures var s := FireOutbounds(h, expired, now); Evolves(h, s.h, s.result, s.report, now)
    decreases |expired|
  {
    if expired == [] {
    } else if expired[0] in h.outboundDelay.items {
      hide UpdateKeepAlive;
      FireOutboundEvolves(h, expired[0], now);
      FireOutboundInv(h, expired[0], now);
    } else {
      FireOutboundsEvolve(h, expired[1..], now);
    }
  }

  lemma DropOutboundEvolves(h: HState, sid: SubstreamId, report: Report, now: nat)
    requires Inv(h) && sid in h.outbound && !report.Chunk?
    ensures AllEvolve(h, DropOutbound(h, sid, now), report, now)
  {
    hide UpdateKeepAlive;
  }

  lemma CloseOutboundEvolves(h: HState, sid: SubstreamId, report: Report, now: nat)
    requires Inv(h) && sid in h.outbound && !report.Chunk?
    ensures AllEvolve(h, SetOut(h, sid, OutClosing), report, now)
  {
  }

  lemma KeepWaitingEvolves(h: HState, sid: SubstreamId, r: RPCCodedResponse, now: nat)
    requires Inv(h) && sid in h.outbound && KeepsWaiting(h.outbound[sid], r)
    ensures var s := ReceiveItem(h, sid, r, now); AllEvolve(h, s.h, s.report, now)
  {
    var s := ReceiveItem(h, sid, r, now);
    assert s.h.outbound.Keys == h.outbound.Keys;
    assert s.h.outboundDelay.items.Keys == h.outboundDelay.items.Keys;
  }

  lemma ReceiveEvolves(h: HState, sid: SubstreamId, r: RPCCodedResponse, now: nat)
    requires Inv(h) && sid in h.outbound && h.outbound[sid].state.PendingResponse?
    ensures var s := ReceiveItem(h, sid, r, now); Evolves(h, s.h, s.result, s.report, now) && !s.report.Late?
  {
    var info := h.outbound[sid];
    assert OutboundOk(info);
    if KeepsWaiting(info, r) { KeepWaitingEvolves(h, sid, r, now); }
    else { CloseOutboundEvolves(h, sid, Final(info.id, Some(sid)), now); }
    hide Inv, AllEvolve;
  }

  lemma DriveOutboundEvolves(h: HState, sid: SubstreamId, io: OutboundIo, now: nat)
    requires Inv(h) && sid in h.outbound
    ensures var s := DriveOutbound(h, sid, io, now); Evolves(h, s.h, s.result, s.report, now) && !s.report.Late?
  {
    var info := h.outbound[sid];
    EvolvesRefl(h, now);
    hide Inv, AllEvolve, UpdateKeepAlive, ReceiveItem;
    DropOutboundEvolves(h, sid, Final(info.id, Some(sid)), now);
    DropOutboundEvolves(h, sid, NoReport, now);
    CloseOutboundEvolves(h, sid, NoReport, now);
    if info.state.PendingResponse? && io.next.Item? { ReceiveEvolves(h, sid, io.next.r, now); }
  }

  lemma {:induction false} DriveOutboundsEvolve(
    h: HState, order: seq<SubstreamId>, io: SubstreamId -> OutboundIo, now: nat)
    requires Inv(h)
    ensures var s := DriveOutbounds(h, order, io, now); Evolves(h, s.h, s.result, s.report, now) && !s.report.Late?
    decreases |order|
  {
    if order == [] {
    } else if order[0] !in h.outbound {
      DriveOutboundsEvolve(h, order[1..], io, now);
    } else {
      DriveOutboundEvolves(h, order[0], io(order[0]), now);
      DriveOutboundInv(h, order[0], io(order[0]), now);
      var s := DriveOutbound(h, order[0], io(order[0]), now);
      if s.result.None? {
        DriveOutboundsEvolve(s.h, order[1..], io, now);
        var r := DriveOutbounds(s.h, order[1..], io, now);
        EvolvesTrans(h, s.h, r.h, r.result, r.report, now);
      }
    }
  }

  /* ---- whole polls ---- */

  /** What one poll does to the inbound streams: they sink, and each message that starts is
      the one its stream was to send, on a stream that can never start another. */
  ghost predicate InboundPolled(h: HState, p: PollOut, answers: map<SubstreamId, RPCCodedResponse>) {
    && Sinks(h.inbound, p.h.inbound) && MessagesFrom(p.h.inbound, answers)
    && p.h.nextIn == h.nextIn
    && (forall i | 0 <= i < |p.sends| ::
          && RankAt(h.inbound, p.sends[i].sid) > 2 >= RankAt(p.h.inbound, p.sends[i].sid)
          && Expected(p.sends[i].sid, p.sends[i].message, answers))
    && (forall i, j | 0 <= i < j < |p.sends| :: p.sends[i].sid != p.sends[j].sid)
    && (p.sends != [] ==> !h.state.Deactivated? && !p.h.state.Deactivated?)
    && (h.state.Deactivated? ==> p.h.state.Deactivated?)
    && (!h.state.Active? ==> !p.h.state.Active?)
  }

  lemma {:induction false} DriveOutboundsSide(
    h: HState, order: seq<SubstreamId>, io: SubstreamId -> OutboundIo, now: nat)
    ensures
      var h' := DriveOutbounds(h, order, io, now).h;
      h'.inbound == h.inbound && h'.nextIn == h.nextIn && h'.state == h.state
    decreases |order|
  {
    if order == [] {
    } else if order[0] !in h.outbound {
      DriveOutboundsSide(h, order[1..], io, now);
    } else {
      DriveOutboundSide(h, order[0], io(order[0]), now);
      hide DriveOutbound;
      DriveOutboundsSide(DriveOutbound(h, order[0], io(order[0]), now).h, order[1..], io, now);
    }
  }

  lemma DriveOutboundSide(h: HState, sid: SubstreamId, io: OutboundIo, now: nat)
    requires sid in h.outbound
    ensures
      var h' := DriveOutbound(h, sid, io, now).h;
      h'.inbound == h.inbound && h'.nextIn == h.nextIn && h'.state == h.state
  {
    hide UpdateKeepAlive;
  }

  lemma {:induction false} FireOutboundsSide(h: HState, expired: seq<Key>, now: nat)
    ensures
      var h' := FireOutbounds(h, expired, now).h;
      && h'.inbound == h.inbound && h'.nextIn == h.nextIn && h'.state == h.state
      && h'.dialNegotiated == h.dialNegotiated && h'.ioRetries == h.ioRetries && h'.dialQueue == h.dialQueue
    decreases |expired|
  {
    hide UpdateKeepAlive;
    if expired != [] {
      if expired[0] in h.outboundDelay.items {
        FireOutboundsSide(FireOutbound(h, expired[0], now).h, expired[1..], now);
      } else {
        FireOutboundsSide(h, expired[1..], now);
      }
    }
  }

  lemma PollOutboundSide(h: HState, env: PollEnv, sends: seq<Send>)
    ensures
      var p := PollOutboundStreams(h, env, sends);
      p.h.inbound == h.inbound && p.h.nextIn == h.nextIn && p.h.state == h.state && p.sends == sends
  {
    DriveOutboundsSide(h, env.outboundOrder, env.outboundIo, env.now);
    hide UpdateKeepAlive, DriveOutbounds;
  }

  lemma MessagesStay(
    m: map<SubstreamId, InboundInfo>, m': map<SubstreamId, InboundInfo>,
    answers: map<SubstreamId, RPCCodedResponse>)
    requires MessagesFrom(m, answers) && Sinks(m, m') && KeepsMessages(m, m')
    requires forall s <- m :: !m[s].state.Poisoned?
    ensures MessagesFrom(m', answers)
  {
    assert forall s <- m' :: m'[s].state.Idle? ==> RankAt(m, s) >= 4;
  }

  lemma PollStreamsInbound(h: HState, env: PollEnv, answers: map<SubstreamId, RPCCodedResponse>)
    requires Inv(h) && MessagesFrom(h.inbound, answers)
    ensures InboundPolled(h, PollStreams(h, env), answers)
  {
    DriveStreamsSink(h, env.inboundOrder, env.inboundIo, env.now);
    DriveStreamsOutbound(h, env.inboundOrder, env.inboundIo, env.now);
    var d := DriveStreams(h, env.inboundOrder, env.inboundIo, env.now);
    assert forall s <- h.inbound :: InboundOk(h.inbound[s], QueueOf(h.queued, s));
    MessagesStay(h.inbound, d.h.inbound, answers);
    PollOutboundSide(d.h, env, d.sends);
    hide Inv, DriveStreams, PollOutboundStreams, Sinks, KeepsMessages;
  }

  lemma PollInbound(h: HState, env: PollEnv, answers: map<SubstreamId, RPCCodedResponse>)
    requires Inv(h) && MessagesFrom(h.inbound, answers)
    ensures InboundPolled(h, Poll(h, env), answers)
  {
    hide Inv, FireInbounds, FireOutbounds, PollStreams, MessagesFrom, Rank;
    if h.pendingErrors == [] && h.eventsOut == [] {
      var h1 := CheckShutdown(h, env.now);
      CheckShutdownInv(h, env.now);
      FireInboundsSink(h1, env.inboundExpired, answers);
      FireInboundsInv(h1, env.inboundExpired);
      var h2 := FireInbounds(h1, env.inboundExpired);
      FireOutboundsSide(h2, env.outboundExpired, env.now);
      FireOutboundsInv(h2, env.outboundExpired, env.now);
      var h3 := FireOutbounds(h2, env.outboundExpired, env.now).h;
      PollStreamsInbound(h3, env, answers);
    }
  }

  lemma {:induction false} FireInboundsFrame(h: HState, expired: seq<Key>)
    ensures
      var h' := FireInbounds(h, expired);
      && h'.nextOut == h.nextOut && h'.outbound == h.outbound && h'.outboundDelay == h.outboundDelay
      && h'.dialQueue == h.dialQueue && h'.dialNegotiated == h.dialNegotiated && h'.ioRetries == h.ioRetries
    decreases |expired|
  {
    hide FireInbound;
    if expired != [] {
      var h1 := if expired[0] in h.inboundDelay.items then FireInbound(h, expired[0]) else h;
      if expired[0] in h.inboundDelay.items { FireInboundFrame(h, expired[0]); }
      FireInboundsFrame(h1, expired[1..]);
    }
  }

  lemma PollStreamsEvolve(h: HState, env: PollEnv)
    requires Inv(h)
    ensures
      var p := PollStreams(h, env);
      Evolves(h, p.h, Some(p.result), p.report, env.now) && !p.report.Late?
  {
    hide Inv, UpdateKeepAlive, DriveStreams, DriveOutbounds, AllEvolve;
    EvolvesRefl(h, env.now);
    DriveStreamsOutbound(h, env.inboundOrder, env.inboundIo, env.now);
    DriveStreamsInv(h, env.inboundOrder, env.inboundIo, env.now);
    var d := DriveStreams(h, env.inboundOrder, env.inboundIo, env.now);
    if d.close.None? {
      DriveOutboundsEvolve(d.h, env.outboundOrder, env.outboundIo, env.now);
      var s := DriveOutbounds(d.h, env.outboundOrder, env.outboundIo, env.now);
      EvolvesFrom(h, d.h, s.h, s.result, s.report, env.now);
      if s.result.None? {
        DriveOutboundsQuiet(d.h, env.outboundOrder, env.outboundIo, env.now);
        EstablishEvolves(h, s.h, env.now);
      }
      hide Evolves, Establish;
    } else {
      SameEvolves(h, h, d.h, env.now);
    }
  }

  lemma {:induction false} DriveOutboundsQuiet(
    h: HState, order: seq<SubstreamId>, io: SubstreamId -> OutboundIo, now: nat)
    ensures var s := DriveOutbounds(h, order, io, now); s.result.None? ==> s.report == NoReport
    decreases |order|
  {
    hide DriveOutbound;
    if order == [] {
    } else if order[0] !in h.outbound {
      DriveOutboundsQuiet(h, order[1..], io, now);
    } else {
      DriveOutboundsQuiet(DriveOutbound(h, order[0], io(order[0]), now).h, order[1..], io, now);
    }
  }

  /** Opening a substream does not concern the streams that exist. */
  lemma EstablishEvolves(h: HState, h1: HState, now: nat)
    requires Evolves(h, h1, None, NoReport, now)
    ensures var s := Establish(h1, now); Evolves(h, s.h, s.result, NoReport, now)
  {
    hide UpdateKeepAlive;
    SameEvolves(h, h1, Establish(h1, now).h, now);
  }

  lemma SameEvolves(h: HState, h1: HState, h2: HState, now: nat)
    requires AllEvolve(h, h1, NoReport, now)
    requires h2.outbound == h1.outbound && h2.outboundDelay == h1.outboundDelay && h2.nextOut == h1.nextOut
    ensures AllEvolve(h, h2, NoReport, now)
  {
    forall s <- h2.outbound
      ensures h2.outbound[s].key in h2.outboundDelay.items && EvolvesAt(h, h2, s, NoReport, now)
    {
      assert EvolvesAt(h, h1, s, NoReport, now);
    }
  }

  lemma PollTimersEvolve(h: HState, env: PollEnv)
    requires Inv(h)
    ensures var p := PollTimers(h, env); Evolves(h, p.h, Some(p.result), p.report, env.now)
  {
    hide Inv, FireInbounds, PollStreams;
    var h1 := CheckShutdown(h, env.now);
    CheckShutdownInv(h, env.now);
    FireInboundsFrame(h1, env.inboundExpired);
    FireInboundsInv(h1, env.inboundExpired);
    var h2 := FireInbounds(h1, env.inboundExpired);
    FireOutboundsEvolve(h2, env.outboundExpired, env.now);
    FireOutboundsInv(h2, env.outboundExpired, env.now);
    var s := FireOutbounds(h2, env.outboundExpired, env.now);
    PollStreamsEvolve(s.h, env);
    var p, q := PollStreams(s.h, env), PollTimers(h, env);
    EvolvesRefl(h2, env.now);
    assert env.inboundTimerFails ==> Evolves(h2, q.h, Some(q.result), q.report, env.now);
    hide FireOutbounds, Evolves;
    if s.result.None? { EvolvesTrans(h2, s.h, p.h, Some(p.result), p.report, env.now); }
    assert Evolves(h2, q.h, Some(q.result), q.report, env.now) by {
      if s.result.Some? && !env.inboundTimerFails { assert q.h == s.h && Some(q.result) == s.result; }
    }
    EvolvesFrom(h, h2, q.h, Some(q.result), q.report, env.now);
  }

  /** Only the outbound side of the first state matters. */
  lemma EvolvesFrom(h: HState, h1: HState, h': HState, r: Option<PollResult>, report: Report, now: nat)
    requires h1.outbound == h.outbound && h1.outboundDelay == h.outboundDelay && h1.nextOut == h.nextOut
    requires Evolves(h1, h', r, report, now)
    ensures Evolves(h, h', r, report, now)
  {
  }

  lemma PollEvolves(h: HState, env: PollEnv)
    requires Inv(h)
    ensures var p := Poll(h, env); Evolves(h, p.h, Some(p.result), p.report, env.now)
  {
    if h.pendingErrors == [] && h.eventsOut == [] {
      PollTimersEvolve(h, env);
    } else {
      var p := Poll(h, env);
      assert AllEvolve(h, p.h, p.report, env.now);
      assert h.pendingErrors == [] ==> h.eventsOut[0] in h.eventsOut;
    }
  }

  /** What one poll does to the dials: it starts at most one, the first of the queue, within the cap. */
  ghost predicate DialsPolled(h: HState, p: PollOut) {
    && p.h.ioRetries == h.ioRetries
    && (if p.result.OutboundSubstreamRequest? then
          && h.dialNegotiated < MAX_DIAL_NEGOTIATED && p.h.dialNegotiated == h.dialNegotiated + 1
          && h.dialQueue == [p.result.dial] + p.h.dialQueue
        else p.h.dialNegotiated == h.dialNegotiated && p.h.dialQueue == h.dialQueue)
  }

  lemma {:induction false} DriveOutboundsDials(
    h: HState, order: seq<SubstreamId>, io: SubstreamId -> OutboundIo, now: nat)
    ensures
      var s := DriveOutbounds(h, order, io, now);
      && s.h.ioRetries == h.ioRetries && s.h.dialNegotiated == h.dialNegotiated && s.h.dialQueue == h.dialQueue
      && (s.result.Some? ==> s.result.value.Custom?)
    decreases |order|
  {
    hide UpdateKeepAlive;
    if order == [] {
    } else if order[0] !in h.outbound {
      DriveOutboundsDials(h, order[1..], io, now);
    } else {
      DriveOutboundDials(h, order[0], io(order[0]), now);
      hide DriveOutbound;
      DriveOutboundsDials(DriveOutbound(h, order[0], io(order[0]), now).h, order[1..], io, now);
    }
  }

  lemma DriveOutboundDials(h: HState, sid: SubstreamId, io: OutboundIo, now: nat)
    requires sid in h.outbound
    ensures
      var s := DriveOutbound(h, sid, io, now);
      && s.h.ioRetries == h.ioRetries && s.h.dialNegotiated == h.dialNegotiated && s.h.dialQueue == h.dialQueue
      && (s.result.Some? ==> s.result.value.Custom?)
  {
    hide UpdateKeepAlive;
  }

  lemma {:induction false} FireOutboundsCustom(h: HState, expired: seq<Key>, now: nat)
    ensures var s := FireOutbounds(h, expired, now); s.result.Some? ==> s.result.value.Custom?
    decreases |expired|
  {
    hide UpdateKeepAlive;
    if expired != [] {
      if expired[0] in h.outboundDelay.items {
        FireOutboundsCustom(FireOutbound(h, expired[0], now).h, expired[1..], now);
      } else {
        FireOutboundsCustom(h, expired[1..], now);
      }
    }
  }

  lemma PollStreamsDials(h: HState, env: PollEnv)
    ensures DialsPolled(h, PollStreams(h, env))
  {
    DriveStreamsOutbound(h, env.inboundOrder, env.inboundIo, env.now);
    var d := DriveStreams(h, env.inboundOrder, env.inboundIo, env.now);
    DriveOutboundsDials(d.h, env.outboundOrder, env.outboundIo, env.now);
    hide UpdateKeepAlive, DriveStreams, DriveOutbounds;
  }

  lemma PollDials(h: HState, env: PollEnv)
    ensures DialsPolled(h, Poll(h, env))
  {
    if h.pendingErrors == [] && h.eventsOut == [] {
      var h1 := CheckShutdown(h, env.now);
      FireInboundsFrame(h1, env.inboundExpired);
      var h2 := FireInbounds(h1, env.inboundExpired);
      FireOutboundsSide(h2, env.outboundExpired, env.now);
      FireOutboundsCustom(h2, env.outboundExpired, env.now);
      PollStreamsDials(FireOutbounds(h2, env.outboundExpired, env.now).h, env);
      hide FireInbounds, FireOutbounds, PollStreams;
    }
  }

  /* ---- timing ---- */

  /** The runtime lets only those timers expire whose time has come. */
  ghost predicate TimersDue(h: HState, env: PollEnv) {
    && (forall k <- env.inboundExpired | k in h.inboundDelay.items :: h.inboundDelay.items[k].deadline <= env.now)
    && (forall k <- env.outboundExpired | k in h.outboundDelay.items :: h.outboundDelay.items[k].deadline <= env.now)
  }

  predicate IsTimeout(r: PollResult) {
    r.Custom? && r.event.Err? && r.event.error.OutboundErr? && r.event.error.error == StreamTimeout
  }

  /** The stream a report is about, if its timer is the reason for the report. */
  predicate TimesOut(p: PollOut, env: PollEnv, s: SubstreamId) {
    || (p.report.Late? && p.report.sid == s)
    || (&& p.report.Final? && p.report.stream == Some(s) && IsTimeout(p.result)
        && env.outboundIo(s).next != ItemErr(StreamTimeout))
  }

  lemma {:induction false} FireOutboundsDue(h: HState, expired: seq<Key>, now: nat, s: SubstreamId)
    requires Inv(h) && s in h.outbound
    requires forall k <- expired | k in h.outboundDelay.items :: h.outboundDelay.items[k].deadline <= now
    ensures
      var r := FireOutbounds(h, expired, now);
      (r.report.Late? && r.report.sid == s) || (r.report.Final? && r.report.stream == Some(s)) ==>
        h.outboundDelay.items[h.outbound[s].key].deadline <= now
    decreases |expired|
  {
    hide UpdateKeepAlive;
    if expired != [] {
      if expired[0] in h.outboundDelay.items {
        FireOutboundInv(h, expired[0], now);
      } else {
        FireOutboundsDue(h, expired[1..], now, s);
      }
    }
  }

  lemma {:induction false} DriveOutboundsTimeout(
    h: HState, order: seq<SubstreamId>, io: SubstreamId -> OutboundIo, now: nat, s: SubstreamId)
    ensures
      var r := DriveOutbounds(h, order, io, now);
      r.result.Some? && IsTimeout(r.result.value) && r.report.Final? && r.report.stream == Some(s) ==>
        io(s).next == ItemErr(StreamTimeout)
    decreases |order|
  {
    if order == [] {
    } else if order[0] !in h.outbound {
      DriveOutboundsTimeout(h, order[1..], io, now, s);
    } else {
      DriveOutboundTimeout(h, order[0], io(order[0]), now);
      hide DriveOutbound;
      DriveOutboundsTimeout(DriveOutbound(h, order[0], io(order[0]), now).h, order[1..], io, now, s);
    }
  }

  lemma DriveOutboundTimeout(h: HState, sid: SubstreamId, io: OutboundIo, now: nat)
    requires sid in h.outbound
    ensures
      var r := DriveOutbound(h, sid, io, now);
      && (r.result.Some? && IsTimeout(r.result.value) ==> io.next == ItemErr(StreamTimeout))
      && (r.report.Final? ==> r.report.stream == Some(sid))
  {
    hide UpdateKeepAlive;
  }

  /** A stream whose timer is the reason for a report has waited out its deadline. */
  lemma PollOnTime(h: HState, env: PollEnv, s: SubstreamId)
    requires Inv(h) && TimersDue(h, env) && s in h.outbound
    requires TimesOut(Poll(h, env), env, s)
    ensures h.outboundDelay.items[h.outbound[s].key].deadline <= env.now
  {
    if h.pendingErrors == [] && h.eventsOut == [] {
      var h1 := CheckShutdown(h, env.now);
      CheckShutdownInv(h, env.now);
      FireInboundsFrame(h1, env.inboundExpired);
      FireInboundsInv(h1, env.inboundExpired);
      var h2 := FireInbounds(h1, env.inboundExpired);
      FireOutboundsDue(h2, env.outboundExpired, env.now, s);
      FireOutboundsInv(h2, env.outboundExpired, env.now);
      var h3 := FireOutbounds(h2, env.outboundExpired, env.now).h;
      PollStreamsEvolve(h3, env);
      var d := DriveStreams(h3, env.inboundOrder, env.inboundIo, env.now);
      DriveOutboundsTimeout(d.h, env.outboundOrder, env.outboundIo, env.now, s);
      hide Inv, FireInbounds, FireOutbounds, DriveStreams, DriveOutbounds, UpdateKeepAlive, Evolves;
    }
  }
}
