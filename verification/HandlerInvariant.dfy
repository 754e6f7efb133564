/** The invariant of the protocol handler, kept by every method. */
module HandlerInvariant {
  import opened Methods
  import opened Protocols
  import opened DelayQueues
  import opened HandlerModel

  /** Each entry that names a timer names a live one of its own, and there are no other timers. */
  ghost predicate InboundTimers(m: map<SubstreamId, InboundInfo>, q: DelayQueue<SubstreamId>) {
    && (forall s <- m :: m[s].key.Some? ==> m[s].key.value in q.items && q.items[m[s].key.value].value == s)
    && (forall k <- q.items :: q.items[k].value in m && m[q.items[k].value].key == Some(k))
  }

  /** Outbound streams and outbound timers are in bijection. */
  ghost predicate OutboundTimers(m: map<SubstreamId, OutboundInfo>, q: DelayQueue<SubstreamId>) {
    && (forall s <- m :: m[s].key in q.items && q.items[m[s].key].value == s)
    && (forall k <- q.items :: q.items[k].value in m && m[q.items[k].value].key == k)
  }

  /** A busy stream closes after its send; an idle one has a timer and nothing queued. */
  ghost predicate InboundOk(info: InboundInfo, queue: seq<RPCCodedResponse>) {
    match info.state
    case PendingSend(_, closing) => closing
    case PendingFlush(closing) => closing
    case Idle => info.key.Some? && queue == []
    case Closing => true
    case Poisoned => false
  }

  ghost predicate InboundStreams(
    m: map<SubstreamId, InboundInfo>, queued: map<SubstreamId, seq<RPCCodedResponse>>, next: SubstreamId)
  {
    && (forall s <- m :: s < next && InboundOk(m[s], QueueOf(queued, s)))
    && (forall s <- queued :: s in m)
  }

  ghost predicate OutboundOk(info: OutboundInfo) {
    match info.state
    case PendingResponse(req) =>
      && info.proto == req.body.Proto()
      && (if req.expected > 1 then info.remaining.Some? && 1 <= info.remaining.value <= req.expected
          else req.expected == 1 && info.remaining == None)
    case OutClosing => true
    case OutPoisoned => false
  }

  ghost predicate OutboundStreams(m: map<SubstreamId, OutboundInfo>, next: SubstreamId) {
    forall s <- m :: s < next && OutboundOk(m[s])
  }

  /** A handler that may be shut down has nothing to do on the network. */
  ghost predicate KeepAliveOk(h: HState) {
    && h.keepAlive != No
    && (h.keepAlive.Until? ==>
          h.dialQueue == [] && |h.inbound| == 0 && |h.outbound| == 0 && h.dialNegotiated == 0)
  }

  ghost predicate LifecycleOk(h: HState) {
    && h.dialNegotiated <= MAX_DIAL_NEGOTIATED
    && h.ioRetries < IO_ERROR_RETRIES
    && (!h.state.Active? ==> |h.dialQueue| <= 1)
    && (forall e <- h.eventsOut :: e.ReceivedRequest?)
  }

  ghost predicate Inv(h: HState) {
    && InboundTimers(h.inbound, h.inboundDelay)
    && OutboundTimers(h.outbound, h.outboundDelay)
    && InboundStreams(h.inbound, h.queued, h.nextIn)
    && OutboundStreams(h.outbound, h.nextOut)
    && KeepAliveOk(h)
    && LifecycleOk(h)
  }

  /** `Inv` without the keep-alive part, which `UpdateKeepAlive` restores. */
  ghost predicate InvButKeepAlive(h: HState) {
    && InboundTimers(h.inbound, h.inboundDelay)
    && OutboundTimers(h.outbound, h.outboundDelay)
    && InboundStreams(h.inbound, h.queued, h.nextIn)
    && OutboundStreams(h.outbound, h.nextOut)
    && LifecycleOk(h)
    && h.keepAlive != No
  }

  lemma UpdateKeepAliveInv(h: HState, now: nat)
    requires InvButKeepAlive(h)
    ensures Inv(UpdateKeepAlive(h, now))
  {
  }

  lemma PushErrorInv(h: HState, e: HandlerErr)
    requires Inv(h)
    ensures Inv(PushError(h, e))
  {
  }

  lemma InvInboundOk(h: HState, sid: SubstreamId)
    requires Inv(h) && sid in h.inbound
    ensures InboundOk(h.inbound[sid], QueueOf(h.queued, sid))
    ensures
      var key := h.inbound[sid].key;
      key.Some? ==> key.value in h.inboundDelay.items && h.inboundDelay.items[key.value].value == sid
  {
  }

  lemma InvOutboundOk(h: HState, sid: SubstreamId)
    requires Inv(h) && sid in h.outbound
    ensures OutboundOk(h.outbound[sid])
    ensures h.outbound[sid].key in h.outboundDelay.items
  {
  }

  lemma InvTimer(h: HState, k: Key)
    requires Inv(h) && k in h.inboundDelay.items
    ensures h.inboundDelay.items[k].value in h.inbound
  {
  }

  lemma FireInboundTimer(h: HState, k: Key)
    requires k in h.inboundDelay.items
    ensures FireInbound(h, k).inboundDelay == h.inboundDelay.Remove(k)
  {
  }

  lemma InvNextOut(h: HState)
    requires Inv(h)
    ensures h.nextOut !in h.outbound
  {
  }

  lemma InvRetry(h: HState)
    requires Inv(h)
    ensures h.ioRetries < IO_ERROR_RETRIES
    ensures h.ioRetries + 1 < IO_ERROR_RETRIES ==> Inv(h.(ioRetries := h.ioRetries + 1))
  {
  }

  /** Replacing the state of one inbound stream, and possibly its queue. */
  lemma SetInInv(h: HState, sid: SubstreamId, s: InboundState)
    requires Inv(h) && sid in h.inbound
    requires InboundOk(h.inbound[sid].(state := s), QueueOf(h.queued, sid))
    ensures Inv(SetIn(h, sid, s))
  {
    var m := SetIn(h, sid, s).inbound;
    assert m.Keys == h.inbound.Keys;
    assert InboundTimers(m, h.inboundDelay);
    assert InboundStreams(m, h.queued, h.nextIn);
  }

  lemma EnqueueInv(h: HState, sid: SubstreamId, r: RPCCodedResponse)
    requires Inv(h) && sid in h.inbound && !h.inbound[sid].state.Idle?
    ensures Inv(EnqueueResponse(h, sid, r))
  {
    assert InboundStreams(h.inbound, EnqueueResponse(h, sid, r).queued, h.nextIn);
  }

  /** Removing an inbound stream together with its timer, if it has one, and its queue. */
  lemma RemoveInbound(m: map<SubstreamId, InboundInfo>, q: DelayQueue<SubstreamId>, sid: SubstreamId)
    requires InboundTimers(m, q) && sid in m
    ensures
      var key := m[sid].key;
      InboundTimers(m - {sid}, if key.Some? then q.Remove(key.value) else q)
  {
  }

  lemma RemoveOutbound(m: map<SubstreamId, OutboundInfo>, q: DelayQueue<SubstreamId>, sid: SubstreamId)
    requires OutboundTimers(m, q) && sid in m
    ensures OutboundTimers(m - {sid}, q.Remove(m[sid].key))
  {
  }

  /** A new idle stream with a fresh timer. */
  lemma AddInbound(h: HState, proto: Protocol, deadline: nat)
    requires InboundTimers(h.inbound, h.inboundDelay) && InboundStreams(h.inbound, h.queued, h.nextIn)
    ensures
      var m := h.inbound[h.nextIn := InboundInfo(Idle, Some(h.inboundDelay.NewKey()), proto)];
      InboundTimers(m, h.inboundDelay.Insert(h.nextIn, deadline)) && InboundStreams(m, h.queued, h.nextIn + 1)
  {
  }

  /* ---- methods called from outside ---- */

  lemma ShutdownInv(h: HState, final: Option<Dial>, now: nat)
    requires Inv(h)
    ensures Inv(Shutdown(h, final, now))
  {
  }

  lemma SendRequestInv(h: HState, d: Dial, now: nat)
    requires Inv(h)
    ensures Inv(SendRequest(h, d, now))
  {
  }

  lemma SendResponseInv(h: HState, sid: SubstreamId, r: RPCCodedResponse)
    requires Inv(h)
    ensures Inv(SendResponse(h, sid, r))
  {
    if sid in h.inbound {
      var h1 := ReportResponse(h, sid, r);
      if r.IsError() { PushErrorInv(h, h1.pendingErrors[|h.pendingErrors|]); }
      if !h.state.Deactivated? {
        match h.inbound[sid].state
        case Idle => SetInInv(h1, sid, PendingSend(r, !r.MultipleResponses() || r.IsError()));
        case PendingSend(m, _) =>
          if r.MultipleResponses() { EnqueueInv(h1, sid, r); } else { SetInInv(h1, sid, PendingSend(m, true)); }
        case PendingFlush(_) =>
          if r.MultipleResponses() { EnqueueInv(h1, sid, r); } else { SetInInv(h1, sid, PendingFlush(true)); }
        case Closing =>
        case Poisoned =>
      }
    }
  }

  lemma InjectInboundInv(h: HState, req: Request, now: nat)
    requires Inv(h)
    ensures Inv(InjectInbound(h, req, now))
  {
    if h.state.Active? {
      AddInbound(h, req.body.Proto(), now + RESPONSE_TIMEOUT);
      var h1 :=
        if req.expected > 0 then
          h.(inboundDelay := h.inboundDelay.Insert(h.nextIn, now + RESPONSE_TIMEOUT),
             inbound := h.inbound[h.nextIn := InboundInfo(Idle, Some(h.inboundDelay.NewKey()), req.body.Proto())])
        else h;
      assert InboundStreams(h1.inbound, h.queued, h.nextIn + 1);
      UpdateKeepAliveInv(
        h1.(eventsOut := h1.eventsOut + [ReceivedRequest(h1.nextIn, req)], nextIn := h1.nextIn + 1), now);
    }
  }

  lemma InjectOutboundInv(h: HState, d: Dial, now: nat)
    requires Inv(h) && h.dialNegotiated > 0
    ensures Inv(InjectOutbound(h, d, now))
  {
    if !h.state.Deactivated? {
      var info := OutboundInfo(
        PendingResponse(d.req), h.outboundDelay.NewKey(), d.req.body.Proto(),
        if d.req.expected > 1 then Some(d.req.expected) else None, d.id);
      var m, q := h.outbound[h.nextOut := info], h.outboundDelay.Insert(h.nextOut, now + RESPONSE_TIMEOUT);
      var h1 := h.(dialNegotiated := h.dialNegotiated - 1);
      if d.req.expected > 0 {
        assert OutboundTimers(m, q);
        assert OutboundStreams(m, h.nextOut + 1);
        UpdateKeepAliveInv(h1.(outboundDelay := q, outbound := m, nextOut := h.nextOut + 1), now);
      } else {
        UpdateKeepAliveInv(h1, now);
      }
    }
  }

  lemma InjectDialErrorInv(h: HState, d: Dial, e: DialError, now: nat)
    requires Inv(h) && h.dialNegotiated > 0
    ensures Inv(InjectDialError(h, d, e, now))
  {
  }

  /* ---- stages of poll ---- */

  lemma CheckShutdownInv(h: HState, now: nat)
    requires Inv(h)
    ensures Inv(CheckShutdown(h, now))
  {
  }

  lemma FireInboundInv(h: HState, k: Key)
    requires Inv(h) && k in h.inboundDelay.items
    ensures Inv(FireInbound(h, k))
  {
  }

  lemma {:induction false} FireInboundsInv(h: HState, expired: seq<Key>)
    requires Inv(h)
    ensures Inv(FireInbounds(h, expired))
    decreases |expired|
  {
    if expired != [] {
      if expired[0] in h.inboundDelay.items { FireInboundInv(h, expired[0]); }
      FireInboundsInv(if expired[0] in h.inboundDelay.items then FireInbound(h, expired[0]) else h, expired[1..]);
    }
  }

  lemma FireOutboundInv(h: HState, k: Key, now: nat)
    requires Inv(h) && k in h.outboundDelay.items
    ensures Inv(FireOutbound(h, k, now).h)
    ensures FireOutbound(h, k, now).result.Some?
  {
  }

  lemma {:induction false} FireOutboundsInv(h: HState, expired: seq<Key>, now: nat)
    requires Inv(h)
    ensures Inv(FireOutbounds(h, expired, now).h)
    decreases |expired|
  {
    if expired != [] {
      if expired[0] in h.outboundDelay.items { FireOutboundInv(h, expired[0], now); }
      else { FireOutboundsInv(h, expired[1..], now); }
    }
  }

  lemma DropInboundInv(h: HState, sid: SubstreamId, now: nat)
    requires Inv(h) && sid in h.inbound
    ensures Inv(DropInbound(h, sid, now))
  {
    RemoveInbound(h.inbound, h.inboundDelay, sid);
    var m, queued := h.inbound - {sid}, h.queued - {sid};
    assert forall s <- m :: QueueOf(queued, s) == QueueOf(h.queued, s);
    assert InboundStreams(m, queued, h.nextIn);
    var key := h.inbound[sid].key;
    UpdateKeepAliveInv(
      h.(inboundDelay := if key.Some? then h.inboundDelay.Remove(key.value) else h.inboundDelay,
         queued := queued, inbound := m), now);
  }

  lemma DriveOnceInv(h: HState, sid: SubstreamId, io: InboundIo, now: nat)
    requires Inv(h) && sid in h.inbound
    ensures DriveOnce(h, sid, io, now).close.None? ==> Inv(DriveOnce(h, sid, io, now).h)
  {
    match h.inbound[sid].state
    case PendingSend(_, _) =>
      SetInInv(h, sid, PendingFlush(true));
      SetInInv(h, sid, Closing);
    case PendingFlush(_) =>
      SetInInv(h, sid, Closing);
      DropInboundInv(h, sid, now);
    case Idle =>
      SetInInv(h, sid, Idle);
      SetInInv(h, sid, Closing);
    case Closing => DropInboundInv(h, sid, now);
  }

  /** What a turn sets does not depend on the state it finds, and sends are passed through. */
  lemma TurnHelpers(h: HState, sid: SubstreamId, s: InboundState, closing: bool, sends: seq<Send>, now: nat)
    requires sid in h.inbound
    ensures ApplyQueued(SetIn(h, sid, s), sid, sends) == ApplyQueued(h, sid, []).(sends := sends)
    ensures ApplyQueued(h, sid, []).close.None?
    ensures CloseAfter(SetIn(h, sid, s), sid, closing, []) == Drive(CloseAfter(h, sid, closing, []).h, true, None, [])
    ensures DropInbound(SetIn(h, sid, s), sid, now) == DropInbound(h, sid, now)
  {
    var m := h.inbound[sid := h.inbound[sid].(state := s)];
    assert m - {sid} == h.inbound - {sid};
    assert forall t: InboundState :: m[sid := m[sid].(state := t)] == h.inbound[sid := h.inbound[sid].(state := t)];
    hide UpdateKeepAlive;
  }

  /** The loop goes on only while the connection stays open, and in the same lifecycle state. */
  lemma DriveOnceOpen(h: HState, sid: SubstreamId, io: InboundIo, now: nat)
    requires sid in h.inbound
    ensures var d := DriveOnce(h, sid, io, now); d.further ==> d.close.None?
    ensures DriveOnce(h, sid, io, now).h.state == h.state
  {
    hide UpdateKeepAlive;
  }

  lemma {:induction false} DriveStreamInv(
    h: HState, sid: SubstreamId, io: (SubstreamId, nat) -> InboundIo, i: nat, now: nat)
    requires Inv(h) && sid in h.inbound
    ensures DriveStream(h, sid, io, i, now).close.None? ==> Inv(DriveStream(h, sid, io, i, now).h)
    decreases |QueueOf(h.queued, sid)|, Rank(h.inbound[sid].state)
  {
    DriveOnceInv(h, sid, io(sid, i), now);
    DriveOnceProgress(h, sid, io(sid, i), now);
    var d := DriveOnce(h, sid, io(sid, i), now);
    if d.further { DriveStreamInv(d.h, sid, io, i + 1, now); }
  }

  lemma {:induction false} DriveStreamsInv(
    h: HState, order: seq<SubstreamId>, io: (SubstreamId, nat) -> InboundIo, now: nat)
    requires Inv(h)
    ensures DriveStreams(h, order, io, now).close.None? ==> Inv(DriveStreams(h, order, io, now).h)
    decreases |order|
  {
    if order != [] {
      if order[0] !in h.inbound { DriveStreamsInv(h, order[1..], io, now); }
      else {
        DriveStreamInv(h, order[0], io, 0, now);
        var d := DriveStream(h, order[0], io, 0, now);
        if d.close.None? { DriveStreamsInv(d.h, order[1..], io, now); }
      }
    }
  }

  lemma DropOutboundInv(h: HState, sid: SubstreamId, now: nat)
    requires Inv(h) && sid in h.outbound
    ensures Inv(DropOutbound(h, sid, now))
  {
    RemoveOutbound(h.outbound, h.outboundDelay, sid);
    var m := h.outbound - {sid};
    assert OutboundStreams(m, h.nextOut);
    UpdateKeepAliveInv(
      h.(outboundDelay := h.outboundDelay.Remove(h.outbound[sid].key), outbound := m), now);
  }

  /** Replacing an outbound stream by one with the same timer, whose deadline may move. */
  lemma SetOutInv(h: HState, sid: SubstreamId, info: OutboundInfo, deadline: nat)
    requires Inv(h) && sid in h.outbound
    requires info.key == h.outbound[sid].key && OutboundOk(info)
    ensures Inv(h.(outbound := h.outbound[sid := info]))
    ensures Inv(h.(outbound := h.outbound[sid := info], outboundDelay := h.outboundDelay.Reset(info.key, deadline)))
  {
    var m, q := h.outbound[sid := info], h.outboundDelay.Reset(info.key, deadline);
    assert m.Keys == h.outbound.Keys && |m| == |m.Keys| && |h.outbound| == |h.outbound.Keys|;
    assert OutboundTimers(m, h.outboundDelay);
    assert OutboundTimers(m, q);
    assert OutboundStreams(m, h.nextOut);
  }

  lemma DriveOutboundInv(h: HState, sid: SubstreamId, io: OutboundIo, now: nat)
    requires Inv(h) && sid in h.outbound
    ensures Inv(DriveOutbound(h, sid, io, now).h)
  {
    InvOutboundOk(h, sid);
    hide Inv, UpdateKeepAlive;
    var info := h.outbound[sid];
    SetOutInv(h, sid, info.(state := OutClosing), 0);
    DropOutboundInv(h, sid, now);
    if info.state.PendingResponse? && io.next.Item? && KeepsWaiting(info, io.next.r) {
      SetOutInv(h, sid, info.(remaining := Some(ChunksLeft(info.remaining))), now + RESPONSE_TIMEOUT);
    }
  }

  /** What driving a stream sets does not depend on the state it finds. */
  lemma OutboundHelpers(h: HState, sid: SubstreamId, s: OutboundState, now: nat)
    requires sid in h.outbound
    ensures DropOutbound(SetOut(h, sid, s), sid, now) == DropOutbound(h, sid, now)
    ensures SetOut(SetOut(h, sid, s), sid, OutClosing) == SetOut(h, sid, OutClosing)
  {
    var m := h.outbound[sid := h.outbound[sid].(state := s)];
    assert m - {sid} == h.outbound - {sid};
    assert m[sid := m[sid].(state := OutClosing)] == h.outbound[sid := h.outbound[sid].(state := OutClosing)];
    hide UpdateKeepAlive;
  }

  lemma {:induction false} DriveOutboundsInv(
    h: HState, order: seq<SubstreamId>, io: SubstreamId -> OutboundIo, now: nat)
    requires Inv(h)
    ensures Inv(DriveOutbounds(h, order, io, now).h)
    decreases |order|
  {
    if order != [] {
      if order[0] !in h.outbound { DriveOutboundsInv(h, order[1..], io, now); }
      else {
        DriveOutboundInv(h, order[0], io(order[0]), now);
        DriveOutboundsInv(DriveOutbound(h, order[0], io(order[0]), now).h, order[1..], io, now);
      }
    }
  }

  lemma EstablishInv(h: HState, now: nat)
    requires Inv(h)
    ensures Inv(Establish(h, now).h)
  {
  }

  lemma PollStreamsInv(h: HState, env: PollEnv)
    requires Inv(h)
    ensures PollStreams(h, env).result.Close? || Inv(PollStreams(h, env).h)
  {
    DriveStreamsInv(h, env.inboundOrder, env.inboundIo, env.now);
    var d := DriveStreams(h, env.inboundOrder, env.inboundIo, env.now);
    if d.close.None? {
      DriveOutboundsInv(d.h, env.outboundOrder, env.outboundIo, env.now);
      EstablishInv(DriveOutbounds(d.h, env.outboundOrder, env.outboundIo, env.now).h, env.now);
    }
  }

  lemma PollTimersInv(h: HState, env: PollEnv)
    requires Inv(h)
    ensures PollTimers(h, env).result.Close? || Inv(PollTimers(h, env).h)
  {
    CheckShutdownInv(h, env.now);
    var h1 := CheckShutdown(h, env.now);
    FireInboundsInv(h1, env.inboundExpired);
    var h2 := FireInbounds(h1, env.inboundExpired);
    FireOutboundsInv(h2, env.outboundExpired, env.now);
    PollStreamsInv(FireOutbounds(h2, env.outboundExpired, env.now).h, env);
  }

  /** `poll` keeps the invariant whenever it does not close the connection. */
  lemma PollInv(h: HState, env: PollEnv)
    requires Inv(h)
    ensures Poll(h, env).result.Close? || Inv(Poll(h, env).h)
  {
    if h.pendingErrors == [] && h.eventsOut == [] { PollTimersInv(h, env); }
  }

  /* ---- polls that close the connection ---- */

  /** What holds even when `poll` returns in the middle of its work to close the connection: no
      stream is left without its state, and outbound streams and timers are in bijection. */
  ghost predicate Clean(h: HState) {
    && (forall s <- h.inbound :: !h.inbound[s].state.Poisoned?)
    && (forall s <- h.outbound :: !h.outbound[s].state.OutPoisoned?)
    && OutboundTimers(h.outbound, h.outboundDelay)
  }

  lemma InvClean(h: HState)
    requires Inv(h)
    ensures Clean(h)
  {
    forall s <- h.inbound ensures !h.inbound[s].state.Poisoned? { InvInboundOk(h, s); }
    forall s <- h.outbound ensures !h.outbound[s].state.OutPoisoned? { InvOutboundOk(h, s); }
  }

  /** A failed sink takes its stream with it. */
  lemma DriveOnceClean(h: HState, sid: SubstreamId, io: InboundIo, now: nat)
    requires Inv(h) && sid in h.inbound
    ensures Clean(DriveOnce(h, sid, io, now).h)
  {
    var d := DriveOnce(h, sid, io, now);
    if d.close.None? {
      DriveOnceInv(h, sid, io, now);
      hide Inv, DriveOnce;
      InvClean(d.h);
    } else {
      InvClean(h);
      hide Inv;
      FailedSink(h, sid, io, now);
    }
  }

  lemma FailedSink(h: HState, sid: SubstreamId, io: InboundIo, now: nat)
    requires sid in h.inbound && DriveOnce(h, sid, io, now).close.Some?
    ensures
      var h' := DriveOnce(h, sid, io, now).h;
      h'.inbound == h.inbound - {sid} && h'.outbound == h.outbound && h'.outboundDelay == h.outboundDelay
  {
    hide UpdateKeepAlive;
  }

  lemma {:induction false} DriveStreamClean(
    h: HState, sid: SubstreamId, io: (SubstreamId, nat) -> InboundIo, i: nat, now: nat)
    requires Inv(h) && sid in h.inbound
    ensures Clean(DriveStream(h, sid, io, i, now).h)
    decreases |QueueOf(h.queued, sid)|, Rank(h.inbound[sid].state)
  {
    hide Inv, Clean, DriveOnce;
    DriveOnceClean(h, sid, io(sid, i), now);
    var d := DriveOnce(h, sid, io(sid, i), now);
    if d.further {
      DriveOnceInv(h, sid, io(sid, i), now);
      DriveOnceOpen(h, sid, io(sid, i), now);
      DriveOnceProgress(h, sid, io(sid, i), now);
      DriveStreamClean(d.h, sid, io, i + 1, now);
    }
  }

  lemma {:induction false} DriveStreamsClean(
    h: HState, order: seq<SubstreamId>, io: (SubstreamId, nat) -> InboundIo, now: nat)
    requires Inv(h)
    ensures Clean(DriveStreams(h, order, io, now).h)
    decreases |order|
  {
    hide Inv, Clean, DriveStream;
    if order == [] {
      InvClean(h);
    } else if order[0] !in h.inbound {
      DriveStreamsClean(h, order[1..], io, now);
    } else {
      DriveStreamClean(h, order[0], io, 0, now);
      var d := DriveStream(h, order[0], io, 0, now);
      if d.close.None? {
        DriveStreamInv(h, order[0], io, 0, now);
        DriveStreamsClean(d.h, order[1..], io, now);
      }
    }
  }

  lemma PollTimersClean(h: HState, env: PollEnv)
    requires Inv(h)
    ensures Clean(PollTimers(h, env).h)
  {
    hide Inv, Clean, FireInbounds, FireOutbounds, DriveStreams, PollOutboundStreams;
    PollTimersInv(h, env);
    var h1 := CheckShutdown(h, env.now);
    CheckShutdownInv(h, env.now);
    FireInboundsInv(h1, env.inboundExpired);
    var h2 := FireInbounds(h1, env.inboundExpired);
    FireOutboundsInv(h2, env.outboundExpired, env.now);
    var h3 := FireOutbounds(h2, env.outboundExpired, env.now).h;
    InvClean(h2);
    InvClean(h3);
    DriveStreamsClean(h3, env.inboundOrder, env.inboundIo, env.now);
    var p := PollTimers(h, env);
    if !p.result.Close? { InvClean(p.h); }
    else if !env.inboundTimerFails { OnlyDrivingCloses(h3, env); }
  }

  /** Of the stages after the timers only a failed sink closes the connection. */
  lemma OnlyDrivingCloses(h: HState, env: PollEnv)
    ensures
      var p, d := PollStreams(h, env), DriveStreams(h, env.inboundOrder, env.inboundIo, env.now);
      p.result.Close? ==> p.h == d.h
  {
    hide DriveStreams;
    var d := DriveStreams(h, env.inboundOrder, env.inboundIo, env.now);
    OutboundsNeverClose(d.h, env.outboundOrder, env.outboundIo, env.now);
  }

  lemma {:induction false} OutboundsNeverClose(
    h: HState, order: seq<SubstreamId>, io: SubstreamId -> OutboundIo, now: nat)
    ensures var s := DriveOutbounds(h, order, io, now); s.result.Some? ==> s.result.value.Custom?
    decreases |order|
  {
    hide UpdateKeepAlive;
    if order == [] {
    } else if order[0] !in h.outbound {
      OutboundsNeverClose(h, order[1..], io, now);
    } else {
      OutboundsNeverClose(DriveOutbound(h, order[0], io(order[0]), now).h, order[1..], io, now);
    }
  }

  /** Every poll, by whichever return it ends, leaves no stream poisoned and each outbound stream
      with its timer. */
  lemma PollClean(h: HState, env: PollEnv)
    requires Inv(h)
    ensures Clean(Poll(h, env).h)
  {
    hide Inv, PollTimers;
    PollInv(h, env);
    PollTimersClean(h, env);
    hide Clean;
    if h.pendingErrors != [] || h.eventsOut != [] { InvClean(Poll(h, env).h); }
  }
}
