/** The protocol handler itself: the fields of `RPCHandler`, updated in place. Every method is
    proved equal to its function in `HandlerModel` and keeps the invariant of `HandlerInvariant`;
    the branches that the source calls unreachable are proved to be so. */
module Handler {
  import opened Methods
  import opened Protocols
  import opened DelayQueues
  import opened HandlerModel
  import opened HandlerInvariant
  import opened HandlerAccounting
  import opened HandlerReports
  import opened HandlerOutcomes

  class RPCHandler {
    var pendingErrors: seq<HandlerErr>
    var eventsOut: seq<RPCReceived>
    var dialQueue: seq<Dial>
    var dialNegotiated: nat
    var inbound: map<SubstreamId, InboundInfo>
    var inboundDelay: DelayQueue<SubstreamId>
    var outbound: map<SubstreamId, OutboundInfo>
    var outboundDelay: DelayQueue<SubstreamId>
    var queued: map<SubstreamId, seq<RPCCodedResponse>>
    var nextIn: SubstreamId
    var nextOut: SubstreamId
    var keepAlive: KeepAlive
    var state: Lifecycle
    const inactiveTimeout: nat
    var ioRetries: nat

    ghost function State(): HState
      reads this
    {
      HState(pendingErrors, eventsOut, dialQueue, dialNegotiated, inbound, inboundDelay, outbound,
             outboundDelay, queued, nextIn, nextOut, keepAlive, state, inactiveTimeout, ioRetries)
    }

    ghost predicate Valid()
      reads this
    {
      Inv(State())
    }

    constructor (inactiveTimeout: nat)
      ensures Valid() && State() == NewHandler(inactiveTimeout)
    {
      pendingErrors, eventsOut, dialQueue, dialNegotiated := [], [], [], 0;
      inbound, inboundDelay, outbound, outboundDelay := map[], EmptyQueue(), map[], EmptyQueue();
      queued, nextIn, nextOut := map[], 0, 0;
      keepAlive, state, this.inactiveTimeout, ioRetries := Yes, Active, inactiveTimeout, 0;
    }

    method UpdateKeepAlive(now: nat)
      modifies this`keepAlive
      ensures State() == HandlerModel.UpdateKeepAlive(old(State()), now)
    {
      var shouldShutdown :=
        dialQueue == [] && |outbound| == 0 && |inbound| == 0 && pendingErrors == [] && eventsOut == []
        && dialNegotiated == 0;
      match keepAlive
      case Yes => if shouldShutdown { keepAlive := Until(now + inactiveTimeout); }
      case Until(_) => if !shouldShutdown { keepAlive := Yes; }
      case No =>
    }

    method Shutdown(final: Option<Dial>, now: nat)
      requires Valid()
      modifies this
      ensures Valid() && State() == HandlerModel.Shutdown(old(State()), final, now)
    {
      hide Inv, HandlerModel.UpdateKeepAlive;
      ShutdownInv(State(), final, now);
      if state.Active? {
        while dialQueue != []
          invariant State() == old(State()).(pendingErrors := pendingErrors, dialQueue := dialQueue)
          invariant pendingErrors + Rejections(dialQueue) == old(pendingErrors) + Rejections(old(dialQueue))
        {
          var d := dialQueue[|dialQueue| - 1];
          dialQueue := dialQueue[..|dialQueue| - 1];
          pendingErrors := pendingErrors + [Rejection(d)];
        }
        assert pendingErrors == old(pendingErrors) + Rejections(old(dialQueue));
        if final.Some? { dialQueue := dialQueue + [final.value]; }
        assert dialQueue == if final.Some? then [final.value] else [];
        state := ShuttingDown(now + SHUTDOWN_TIMEOUT_SECS);
      }
      UpdateKeepAlive(now);
    }

    method SendRequest(d: Dial, now: nat)
      requires Valid()
      modifies this
      ensures Valid() && State() == HandlerModel.SendRequest(old(State()), d, now)
    {
      hide Inv;
      SendRequestInv(State(), d, now);
      if state.Active? {
        dialQueue := dialQueue + [d];
        UpdateKeepAlive(now);
      } else {
        pendingErrors := pendingErrors + [Rejection(d)];
      }
    }

    method SendResponse(sid: SubstreamId, r: RPCCodedResponse)
      requires Valid()
      modifies this
      ensures Valid() && State() == HandlerModel.SendResponse(old(State()), sid, r)
    {
      hide Inv, HandlerModel.PlaceResponse;
      SendResponseInv(State(), sid, r);
      if sid !in inbound { return; }
      InvInboundOk(State(), sid);
      if r.IsError() {
        pendingErrors := pendingErrors
          + [InboundErr(sid, inbound[sid].proto, ErrorResponse(r.CodeOfError().value, r.Payload()))];
      }
      if state.Deactivated? { return; }
      PlaceResponse(sid, r);
    }

    method PlaceResponse(sid: SubstreamId, r: RPCCodedResponse)
      requires sid in inbound && InboundOk(inbound[sid], QueueOf(queued, sid))
      modifies this`inbound, this`queued
      ensures State() == HandlerModel.PlaceResponse(old(State()), sid, r)
    {
      var s := TakeInbound(sid);
      match s {
        case Idle => s := PendingSend(r, !r.MultipleResponses() || r.IsError());
        case PendingSend(message, _) =>
          if r.MultipleResponses() { PushResponse(sid, r); } else { s := PendingSend(message, true); }
        case PendingFlush(_) =>
          if r.MultipleResponses() { PushResponse(sid, r); } else { s := PendingFlush(true); }
        case Closing =>
        case Poisoned => assert false;
      }
      PutInbound(sid, s);
      assert inbound == old(inbound)[sid := old(inbound)[sid].(state := s)];
      assert s == old(inbound)[sid].state ==> inbound == old(inbound);
    }

    method PushResponse(sid: SubstreamId, r: RPCCodedResponse)
      modifies this`queued
      ensures queued == old(queued)[sid := QueueOf(old(queued), sid) + [r]]
    {
      if sid !in queued { queued := queued[sid := []]; }
      queued := queued[sid := queued[sid] + [r]];
    }

    /** Takes the state of a stream out, leaving it poisoned until it is put back. */
    method TakeInbound(sid: SubstreamId) returns (s: InboundState)
      requires sid in inbound && InboundOk(inbound[sid], QueueOf(queued, sid))
      modifies this`inbound
      ensures s == old(inbound[sid].state) && !s.Poisoned?
      ensures inbound == old(inbound)[sid := old(inbound)[sid].(state := Poisoned)]
    {
      s := inbound[sid].state;
      inbound := inbound[sid := inbound[sid].(state := Poisoned)];
    }

    method PutInbound(sid: SubstreamId, s: InboundState)
      requires sid in inbound
      modifies this`inbound
      ensures inbound == old(inbound)[sid := old(inbound)[sid].(state := s)]
    {
      inbound := inbound[sid := inbound[sid].(state := s)];
    }

    method InjectFullyNegotiatedInbound(req: Request, now: nat)
      requires Valid()
      modifies this
      ensures Valid() && State() == HandlerModel.InjectInbound(old(State()), req, now)
      ensures eventsOut == old(eventsOut) + if old(state).Active? then [ReceivedRequest(old(nextIn), req)] else []
    {
      RequestIsHandedOn(State(), req, now);
      hide Inv, HandlerModel.UpdateKeepAlive;
      InjectInboundInv(State(), req, now);
      if !state.Active? { return; }
      if req.expected > 0 {
        var key := inboundDelay.NewKey();
        inboundDelay := inboundDelay.Insert(nextIn, now + RESPONSE_TIMEOUT);
        inbound := inbound[nextIn := InboundInfo(Idle, Some(key), req.body.Proto())];
      }
      eventsOut := eventsOut + [ReceivedRequest(nextIn, req)];
      nextIn := nextIn + 1;
      UpdateKeepAlive(now);
    }

    /** The caller answers a dial that the handler asked for, so the counter is positive. */
    method InjectFullyNegotiatedOutbound(d: Dial, now: nat)
      requires Valid() && dialNegotiated > 0
      modifies this
      ensures Valid() && State() == HandlerModel.InjectOutbound(old(State()), d, now)
    {
      hide Inv, HandlerModel.UpdateKeepAlive;
      InjectOutboundInv(State(), d, now);
      InvNextOut(State());
      dialNegotiated := dialNegotiated - 1;
      if state.Deactivated? {
        pendingErrors := pendingErrors + [OutboundErr(d.id, d.req.body.Proto(), HandlerRejected)];
        return;
      }
      if d.req.expected > 0 {
        var key := outboundDelay.NewKey();
        outboundDelay := outboundDelay.Insert(nextOut, now + RESPONSE_TIMEOUT);
        assert nextOut !in outbound;  // no duplicate substream id
        outbound := outbound[nextOut := OutboundInfo(
          PendingResponse(d.req), key, d.req.body.Proto(),
          if d.req.expected > 1 then Some(d.req.expected) else None, d.id)];
        nextOut := nextOut + 1;
      }
      UpdateKeepAlive(now);
    }

    method InjectDialUpgradeError(d: Dial, e: DialError, now: nat)
      requires Valid() && dialNegotiated > 0
      modifies this
      ensures Valid() && State() == HandlerModel.InjectDialError(old(State()), d, e, now)
    {
      hide Inv, HandlerModel.SendRequest, HandlerModel.UpdateKeepAlive;
      InjectDialErrorInv(State(), d, e, now);
      InvRetry(State());
      if e.IsIo() {
        ioRetries := ioRetries + 1;
        if ioRetries < IO_ERROR_RETRIES {
          SendRequest(d, now);
          return;
        }
      }
      dialNegotiated := dialNegotiated - 1;
      KeepAliveIgnoresRetries(old(State()).(dialNegotiated := dialNegotiated), ioRetries, now);
      UpdateKeepAlive(now);
      ioRetries := 0;
      pendingErrors := pendingErrors + [OutboundErr(d.id, d.req.body.Proto(), e.ToRPCError())];
    }

    /* ---- poll: timers ---- */

    /** `InboundSubstreamState::close` on the stream `sid` and its queue. */
    method CloseInbound(sid: SubstreamId)
      requires sid in inbound && sid in queued && !inbound[sid].state.Poisoned?
      modifies this`inbound, this`queued
      ensures
        var (s, q) := CloseStream(old(inbound[sid].state), old(queued[sid]));
        && inbound == old(inbound)[sid := old(inbound)[sid].(state := s)]
        && queued == old(queued)[sid := q]
    {
      var s := inbound[sid].state;
      inbound := inbound[sid := inbound[sid].(state := Poisoned)];
      match s {
        case PendingSend(_, closing) =>
          if !closing { queued := queued[sid := queued[sid] + [ServerError(TIMED_OUT)]]; }
        case PendingFlush(closing) =>
          if !closing { queued := queued[sid := queued[sid] + [ServerError(TIMED_OUT)]]; }
        case Idle => s := PendingSend(ServerError(TIMED_OUT), true);
        case Closing =>
        case Poisoned => assert false;
      }
      inbound := inbound[sid := inbound[sid].(state := s)];
    }

    method ExpireInbound(k: Key)
      requires Valid() && k in inboundDelay.items
      modifies this
      ensures Valid() && State() == FireInbound(old(State()), k)
    {
      hide Inv;
      FireInboundInv(State(), k);
      InvTimer(State(), k);
      var sid := inboundDelay.items[k].value;
      InvInboundOk(State(), sid);
      // a timer always belongs to a stream that is there
      inboundDelay := inboundDelay.Remove(k);
      inbound := inbound[sid := inbound[sid].(key := None)];
      pendingErrors := pendingErrors + [InboundErr(sid, inbound[sid].proto, StreamTimeout)];
      if sid !in queued { queued := queued[sid := []]; }
      CloseInbound(sid);
      ghost var info := old(inbound[sid]);
      assert inbound
          == old(inbound)[sid := InboundInfo(CloseStream(info.state, QueueOf(old(queued), sid)).0, None, info.proto)];
      assert queued == old(queued)[sid := CloseStream(info.state, QueueOf(old(queued), sid)).1];
      hide CloseStream, QueueOf;
      assert State() == FireInbound(old(State()), k);
    }

    method PollInboundTimers(expired: seq<Key>)
      requires Valid() && Distinct(expired) && forall k <- expired :: k in inboundDelay.items
      modifies this
      ensures Valid() && State() == FireInbounds(old(State()), expired)
    {
      hide Inv, FireInbound, Valid;
      var i := 0;
      assert expired[0..] == expired;
      while i < |expired|
        invariant 0 <= i <= |expired| && Valid()
        invariant forall j | i <= j < |expired| :: expired[j] in inboundDelay.items
        invariant FireInbounds(State(), expired[i..]) == FireInbounds(old(State()), expired)
      {
        ghost var h := State();
        FireInboundTimer(h, expired[i]);
        ExpireInbound(expired[i]);
        assert expired[i..][1..] == expired[i + 1..];
        i := i + 1;
      }
      assert expired[i..] == [];
    }

    method PollOutboundTimers(expired: seq<Key>, now: nat) returns (r: Option<PollResult>)
      requires Valid() && forall k <- expired :: k in outboundDelay.items
      modifies this
      ensures
        var s := FireOutbounds(old(State()), expired, now);
        State() == s.h && r == s.result
      ensures Valid()
    {
      hide Inv;
      r := None;
      FireOutboundsInv(State(), expired, now);
      // the source loops here, but its first turn that finds an expired timer returns
      if expired != [] {
        var k := expired[0];
        FireOutboundInv(State(), k, now);
        var sid := outboundDelay.items[k].value;
        outboundDelay := outboundDelay.Remove(k);
        if sid in outbound {
          var info := outbound[sid];
          outbound := outbound - {sid};
          UpdateKeepAlive(now);
          r := Some(Custom(Err(OutboundErr(info.id, info.proto, StreamTimeout))));
        } else {
          assert false;  // timed out substream not in the books
        }
      }
    }

    /* ---- poll: inbound streams ---- */

    ghost predicate Drove(d: Drive, further: bool, close: Option<RPCError>, sends: seq<Send>)
      reads this
    {
      State() == d.h && further == d.further && close == d.close && sends == d.sends
    }

    /** Sets the stream to the next queued response, or to idle. */
    method ApplyQueuedResponses(sid: SubstreamId) returns (more: bool)
      requires sid in inbound
      modifies this`inbound, this`queued
      ensures
        var d := ApplyQueued(old(State()), sid, []);
        State() == d.h && more == d.further
    {
      more := false;
      if sid in queued && queued[sid] != [] {
        more := true;
        var chunk := queued[sid][0];
        queued := queued[sid := queued[sid][1..]];
        PutInbound(sid, PendingSend(chunk, false));
      } else {
        PutInbound(sid, Idle);
      }
    }

    /** Drops a stream with its timer, which is live, and its queue. */
    method DropInboundStream(sid: SubstreamId, now: nat)
      requires sid in inbound
      requires inbound[sid].key.Some? ==> inbound[sid].key.value in inboundDelay.items
      modifies this`inbound, this`inboundDelay, this`queued, this`keepAlive
      ensures State() == DropInbound(old(State()), sid, now)
    {
      match inbound[sid].key {
        case Some(key) => inboundDelay := inboundDelay.Remove(key);
        case None =>
      }
      queued := queued - {sid};
      inbound := inbound - {sid};
      UpdateKeepAlive(now);
    }

    /** A stream that waits to send, or that finished flushing, is closed; the application is told
        if it could have sent more. */
    method CloseAfterSend(sid: SubstreamId, closing: bool)
      requires sid in inbound
      modifies this`inbound, this`pendingErrors
      ensures State() == CloseAfter(old(State()), sid, closing, []).h
    {
      if !closing { pendingErrors := pendingErrors + [InboundErr(sid, inbound[sid].proto, HandlerRejected)]; }
      PutInbound(sid, Closing);
    }

    /* The turns find the stream poisoned: its state `s` has been taken out. */

    method SendTurn(sid: SubstreamId, s: InboundState, io: InboundIo, now: nat)
      returns (further: bool, close: Option<RPCError>, sends: seq<Send>)
      requires sid in inbound && s.PendingSend?
      modifies this
      ensures Drove(DriveOnce(SetIn(old(State()), sid, s), sid, io, now), further, close, sends)
    {
      hide HandlerModel.UpdateKeepAlive, ApplyQueued, CloseAfter;
      ghost var h := SetIn(State(), sid, s);
      TurnHelpers(State(), sid, s, s.closing, [Send(sid, s.message, io.sendOk)], now);
      further, close, sends := false, None, [];
      if state.Deactivated? {
        CloseAfterSend(sid, s.closing);
        further := true;
      } else {
        match io.ready {
          case Ready =>
            sends := [Send(sid, s.message, io.sendOk)];
            if io.sendOk {
              PutInbound(sid, PendingFlush(s.closing));
              further := true;
            } else if s.closing {
              PutInbound(sid, Closing);
              further := true;
            } else {
              further := ApplyQueuedResponses(sid);
            }
          case Failed(e) =>
            inbound := inbound - {sid};
            assert inbound == h.inbound - {sid};
            UpdateKeepAlive(now);
            close := Some(e);
          case Pending => PutInbound(sid, s);
        }
      }
    }

    method FlushTurn(sid: SubstreamId, s: InboundState, io: InboundIo, now: nat) returns (further: bool)
      requires sid in inbound && s.PendingFlush?
      requires inbound[sid].key.Some? ==> inbound[sid].key.value in inboundDelay.items
      modifies this
      ensures Drove(DriveOnce(SetIn(old(State()), sid, s), sid, io, now), further, None, [])
    {
      hide HandlerModel.UpdateKeepAlive, ApplyQueued, DropInbound, CloseAfter;
      TurnHelpers(State(), sid, s, s.closing, [], now);
      further := false;
      match io.flush {
        case Ready =>
          if s.closing || state.Deactivated? {
            CloseAfterSend(sid, s.closing);
            further := true;
          } else {
            further := ApplyQueuedResponses(sid);
          }
        case Failed(_) => DropInboundStream(sid, now);
        case Pending => PutInbound(sid, s);
      }
    }

    method RestTurn(sid: SubstreamId, s: InboundState, io: InboundIo, now: nat) returns (further: bool)
      requires sid in inbound && (s.Idle? || s.Closing?)
      requires inbound[sid].key.Some? ==> inbound[sid].key.value in inboundDelay.items
      modifies this
      ensures Drove(DriveOnce(SetIn(old(State()), sid, s), sid, io, now), further, None, [])
    {
      hide HandlerModel.UpdateKeepAlive, ApplyQueued, DropInbound, CloseAfter;
      TurnHelpers(State(), sid, s, false, [], now);
      further := false;
      if s.Idle? {
        if !state.Deactivated? {
          further := ApplyQueuedResponses(sid);
        } else {
          PutInbound(sid, Closing);
          further := true;
        }
      } else if !io.close.Pending? {
        DropInboundStream(sid, now);
      } else {
        PutInbound(sid, s);
      }
    }

    /** One turn of the loop that drives a stream. Whatever the turn does, it leaves no stream
        poisoned, unless it closes the connection. */
    method DriveTurn(sid: SubstreamId, io: InboundIo, now: nat)
      returns (further: bool, close: Option<RPCError>, sends: seq<Send>)
      requires Valid() && sid in inbound
      modifies this
      ensures Drove(DriveOnce(old(State()), sid, io, now), further, close, sends)
      ensures close.None? ==> Valid()
    {
      hide Inv, DriveOnce;
      InvInboundOk(State(), sid);
      DriveOnceInv(State(), sid, io, now);
      close, sends := None, [];
      var s := TakeInbound(sid);
      assert SetIn(State(), sid, s) == old(State()) by {
        assert inbound[sid := inbound[sid].(state := s)] == old(inbound);
      }
      match s {
        case PendingSend(_, _) => further, close, sends := SendTurn(sid, s, io, now);
        case PendingFlush(_) => further := FlushTurn(sid, s, io, now);
        case Idle => further := RestTurn(sid, s, io, now);
        case Closing => further := RestTurn(sid, s, io, now);
        case Poisoned => assert false;
      }
    }

    /** Drives a stream until it has to wait. The stream is there in every turn. */
    method DriveInboundStream(sid: SubstreamId, io: (SubstreamId, nat) -> InboundIo, now: nat)
      returns (close: Option<RPCError>, sends: seq<Send>)
      requires Valid() && sid in inbound
      modifies this
      ensures
        var d := DriveStream(old(State()), sid, io, 0, now);
        State() == d.h && close == d.close && sends == d.sends
      ensures close.None? ==> Valid()
    {
      hide Inv, DriveOnce;
      ghost var goal := DriveStream(State(), sid, io, 0, now);
      var further, i := true, 0;
      close, sends := None, [];
      while further
        invariant further ==> sid in inbound && Valid() && close.None?
        invariant further ==>
          var r := DriveStream(State(), sid, io, i, now);
          goal == r.(sends := sends + r.sends)
        invariant !further ==> goal == Drive(State(), false, close, sends) && (close.None? ==> Valid())
        decreases further, |QueueOf(queued, sid)|, if sid in inbound then Rank(inbound[sid].state) else 0
      {
        DriveOnceProgress(State(), sid, io(sid, i), now);
        DriveOnceOpen(State(), sid, io(sid, i), now);
        var started;
        further, close, started := DriveTurn(sid, io(sid, i), now);
        sends := sends + started;
        i := i + 1;
      }
    }

    method DriveInboundStreams(order: seq<SubstreamId>, io: (SubstreamId, nat) -> InboundIo, now: nat)
      returns (close: Option<RPCError>, sends: seq<Send>)
      requires Valid() && Distinct(order) && forall s <- order :: s in inbound
      modifies this
      ensures
        var d := DriveStreams(old(State()), order, io, now);
        State() == d.h && close == d.close && sends == d.sends
      ensures close.None? ==> Valid()
    {
      hide Inv, Valid, DriveStream;
      ghost var goal := DriveStreams(State(), order, io, now);
      close, sends := None, [];
      var i := 0;
      assert order[0..] == order;
      while i < |order|
        invariant 0 <= i <= |order| && Valid() && close.None?
        invariant forall j | i <= j < |order| :: order[j] in inbound
        invariant
          var r := DriveStreams(State(), order[i..], io, now);
          goal == r.(sends := sends + r.sends)
      {
        ghost var h := State();
        DriveStreamOnly(h, order[i], io, 0, now);
        var started;
        close, started := DriveInboundStream(order[i], io, now);
        assert order[i..][1..] == order[i + 1..];
        sends := sends + started;
        if close.Some? { return; }
        i := i + 1;
      }
      assert order[i..] == [];
    }

    /* ---- poll: outbound streams ---- */

    method PutOutbound(sid: SubstreamId, s: OutboundState)
      requires sid in outbound
      modifies this`outbound
      ensures outbound == old(outbound)[sid := old(outbound)[sid].(state := s)]
    {
      outbound := outbound[sid := outbound[sid].(state := s)];
    }

    method DropOutboundStream(sid: SubstreamId, now: nat)
      requires sid in outbound && outbound[sid].key in outboundDelay.items
      modifies this`outbound, this`outboundDelay, this`keepAlive
      ensures State() == DropOutbound(old(State()), sid, now)
    {
      outboundDelay := outboundDelay.Remove(outbound[sid].key);
      outbound := outbound - {sid};
      UpdateKeepAlive(now);
    }

    /** A response came in on a stream whose state is taken out: the countdown decides whether the
        stream waits for more, with a renewed timer. */
    method ReceiveResponse(sid: SubstreamId, req: Request, r: RPCCodedResponse, now: nat) returns (result: PollResult)
      requires sid in outbound && outbound[sid].key in outboundDelay.items
      modifies this`outbound, this`outboundDelay
      ensures
        var s := ReceiveItem(SetOut(old(State()), sid, PendingResponse(req)), sid, r, now);
        State() == s.h && s.result == Some(result)
    {
      ghost var h := SetOut(State(), sid, PendingResponse(req));
      var info := outbound[sid];
      if req.expected > 1 && !r.IsError() {
        var left := match info.remaining case Some(n) => if n > 0 then n - 1 else 0 case None => 0;
        if left == 0 {
          PutOutbound(sid, OutClosing);
        } else {
          outbound := outbound[sid := info.(state := PendingResponse(req), remaining := Some(left))];
          outboundDelay := outboundDelay.Reset(info.key, now + RESPONSE_TIMEOUT);
        }
      } else {
        PutOutbound(sid, OutClosing);
      }
      match r {
        case Success(resp) => result := Custom(Ok(ReceivedResponse(info.id, resp)));
        case _ =>
          result := Custom(Err(OutboundErr(info.id, info.proto, ErrorResponse(r.CodeOfError().value, r.Payload()))));
      }
      assert State() == ReceiveItem(h, sid, r, now).h;
    }

    /** Drives one outbound stream; its timer is live. */
    method DriveOutboundStream(sid: SubstreamId, io: OutboundIo, now: nat) returns (result: Option<PollResult>)
      requires Valid() && sid in outbound
      modifies this
      ensures
        var s := DriveOutbound(old(State()), sid, io, now);
        State() == s.h && result == s.result
      ensures Valid()
      ensures
        result
        == if Waits(old(State()), sid) && !old(state).Deactivated? && !io.next.NotReady?
           then Some(ToldAbout(DialAt(old(State()), sid), io.next)) else None
    {
      OneStreamTells(State(), sid, io, now);
      hide Inv, HandlerModel.UpdateKeepAlive, ReceiveItem, DropOutbound, ToldAbout, DialAt, Waits;
      InvOutboundOk(State(), sid);
      DriveOutboundInv(State(), sid, io, now);
      result := None;
      var info := outbound[sid];
      outbound := outbound[sid := info.(state := OutPoisoned)];
      OutboundHelpers(State(), sid, info.state, now);
      assert SetOut(State(), sid, info.state) == old(State()) by {
        assert outbound[sid := outbound[sid].(state := info.state)] == old(outbound);
      }
      match info.state {
        case PendingResponse(req) =>
          if state.Deactivated? {
            PutOutbound(sid, OutClosing);
            pendingErrors := pendingErrors + [OutboundErr(info.id, info.proto, HandlerRejected)];
          } else {
            match io.next {
              case Item(r) =>
                var received := ReceiveResponse(sid, req, r, now);
                result := Some(received);
              case End =>
                DropOutboundStream(sid, now);
                result := Some(Custom(Err(OutboundErr(info.id, req.body.Proto(), IncompleteStream))));
              case NotReady => PutOutbound(sid, PendingResponse(req));
              case ItemErr(e) =>
                DropOutboundStream(sid, now);
                result := Some(Custom(Err(OutboundErr(info.id, info.proto, e))));
            }
          }
        case OutClosing =>
          if io.closed { DropOutboundStream(sid, now); } else { PutOutbound(sid, OutClosing); }
        case OutPoisoned => assert false;
      }
    }

    method DriveOutboundStreams(order: seq<SubstreamId>, io: SubstreamId -> OutboundIo, now: nat)
      returns (result: Option<PollResult>)
      requires Valid() && Distinct(order) && forall s <- order :: s in outbound
      modifies this
      ensures
        var s := DriveOutbounds(old(State()), order, io, now);
        State() == s.h && result == s.result
      ensures Valid()
      ensures
        var ready := FirstReady(old(State()), order, io);
        if ready.None? || old(state).Deactivated? then result == None
        else
          && Waits(old(State()), ready.value) && !io(ready.value).next.NotReady?
          && result == Some(ToldAbout(DialAt(old(State()), ready.value), io(ready.value).next))
    {
      AllStreamsTell(State(), order, io, now);
      hide Inv, Valid, DriveOutbound, ToldAbout, DialAt, Waits, FirstReady;
      ghost var goal := DriveOutbounds(State(), order, io, now);
      result := None;
      var i := 0;
      assert order[0..] == order;
      while i < |order|
        invariant 0 <= i <= |order| && Valid() && result.None?
        invariant forall j | i <= j < |order| :: order[j] in outbound
        invariant DriveOutbounds(State(), order[i..], io, now) == goal
      {
        DriveOutboundOnly(State(), order[i], io(order[i]), now);
        result := DriveOutboundStream(order[i], io(order[i]), now);
        assert order[i..][1..] == order[i + 1..];
        if result.Some? { return; }
        i := i + 1;
      }
      assert order[i..] == [];
    }

    /* ---- poll ---- */

    method EstablishOutbound(now: nat) returns (r: PollResult)
      requires Valid()
      modifies this
      ensures
        var s := Establish(old(State()), now);
        State() == s.h && Some(r) == s.result
      ensures Valid()
    {
      hide Inv, HandlerModel.UpdateKeepAlive;
      EstablishInv(State(), now);
      if dialQueue != [] && dialNegotiated < MAX_DIAL_NEGOTIATED {
        dialNegotiated := dialNegotiated + 1;
        var d := dialQueue[0];
        dialQueue := dialQueue[1..];
        UpdateKeepAlive(now);
        return OutboundSubstreamRequest(d);
      }
      r := PollPending;
    }

    method CheckShutdownTimer(now: nat)
      requires Valid()
      modifies this
      ensures Valid() && State() == CheckShutdown(old(State()), now)
    {
      hide Inv;
      CheckShutdownInv(State(), now);
      if state.ShuttingDown? && state.deadline <= now {
        state := Deactivated;
        queued := map[];
      }
    }

    method PollStreams(env: PollEnv) returns (r: PollResult, sends: seq<Send>)
      requires Valid()
      requires Distinct(env.inboundOrder) && forall s <- env.inboundOrder :: s in inbound
      requires Distinct(env.outboundOrder) && forall s <- env.outboundOrder :: s in outbound
      modifies this
      ensures
        var p := HandlerModel.PollStreams(old(State()), env);
        State() == p.h && r == p.result && sends == p.sends
      ensures r.Close? || Valid()
    {
      hide Inv, Valid, DriveStreams, DriveOutbounds, Establish;
      DriveStreamsOutbound(State(), env.inboundOrder, env.inboundIo, env.now);
      var close;
      close, sends := DriveInboundStreams(env.inboundOrder, env.inboundIo, env.now);
      if close.Some? { return Close(close.value), sends; }
      var result := DriveOutboundStreams(env.outboundOrder, env.outboundIo, env.now);
      if result.Some? { return result.value, sends; }
      r := EstablishOutbound(env.now);
    }

    method PollTimers(env: PollEnv) returns (r: PollResult, sends: seq<Send>)
      requires Valid() && EnvOk(State(), env)
      modifies this
      ensures
        var p := HandlerModel.PollTimers(old(State()), env);
        State() == p.h && r == p.result && sends == p.sends
      ensures r.Close? || Valid()
    {
      hide Inv, Valid, FireInbounds, FireOutbounds, HandlerModel.PollStreams;
      sends := [];
      CheckShutdownTimer(env.now);
      FireInboundsKeys(State(), env.inboundExpired);
      PollInboundTimers(env.inboundExpired);
      if env.inboundTimerFails { return Close(InternalError("Could not poll inbound stream timer")), []; }
      FireOutboundsKeys(State(), env.outboundExpired, env.now);
      var result := PollOutboundTimers(env.outboundExpired, env.now);
      if result.Some? { return result.value, []; }
      if env.outboundTimerFails { return Close(InternalError("Could not poll outbound stream timer")), []; }
      r, sends := PollStreams(env);
    }

    /** Does what `HandlerModel.Poll` says, terminates, reaches none of the branches that must not
        be reached, and keeps the invariant unless it closes the connection. Even then no stream is
        left without its state, and outbound streams and timers agree. */
    method Poll(env: PollEnv) returns (r: PollResult, sends: seq<Send>)
      requires Valid() && EnvOk(State(), env)
      modifies this
      ensures
        var p := HandlerModel.Poll(old(State()), env);
        State() == p.h && r == p.result && sends == p.sends
      ensures Clean(State()) && (r.Close? || Valid())
      ensures r == Returned(old(State()), env)
    {
      PollReturns(State(), env);
      hide Inv, Clean, HandlerModel.PollTimers, Returned;
      PollInv(State(), env);
      PollClean(State(), env);
      sends := [];
      if pendingErrors != [] {
        var e := pendingErrors[0];
        pendingErrors := pendingErrors[1..];
        return Custom(Err(e)), [];
      }
      if eventsOut != [] {
        var e := eventsOut[0];
        eventsOut := eventsOut[1..];
        return Custom(Ok(e)), [];
      }
      r, sends := PollTimers(env);
    }
  }
}
