/** What a poll returns, sends and leaves behind, read off what it finds and what timers and
    substreams answer. */
module HandlerOutcomes {
  import opened Methods
  import opened Protocols
  import opened DelayQueues
  import opened HandlerModel
  import opened HandlerInvariant
  import opened HandlerAccounting
  import opened HandlerStreams
  import opened HandlerReports

  /* ---- how far a poll gets ---- */

  /** The poll only hands out what waits. */
  predicate HandsOut(h: HState) { h.pendingErrors != [] || h.eventsOut != [] }

  /** The poll finds the handler deactivated, or its time to shut down over. */
  predicate DeadAt(h: HState, now: nat) {
    h.state.Deactivated? || (h.state.ShuttingDown? && h.state.deadline <= now)
  }

  lemma {:induction false} FireInboundsState(h: HState, expired: seq<Key>)
    ensures FireInbounds(h, expired).state == h.state
    decreases |expired|
  {
    if expired != [] {
      FireInboundsState(
        if expired[0] in h.inboundDelay.items then FireInbound(h, expired[0]) else h, expired[1..]);
    }
  }

  /** A poll deactivates the handler exactly if it has nothing to hand out and the deadline of the
      shutdown has come; otherwise it leaves the lifecycle alone. */
  lemma PollLifecycle(h: HState, env: PollEnv)
    ensures Poll(h, env).h.state == if !HandsOut(h) && DeadAt(h, env.now) then Deactivated else h.state
  {
    if !HandsOut(h) {
      hide FireInbounds, FireOutbounds, DriveStreams, DriveOutbounds, UpdateKeepAlive;
      var h1 := CheckShutdown(h, env.now);
      FireInboundsState(h1, env.inboundExpired);
      var h2 := FireInbounds(h1, env.inboundExpired);
      FireOutboundsSide(h2, env.outboundExpired, env.now);
      var h3 := FireOutbounds(h2, env.outboundExpired, env.now).h;
      DriveStreamsOutbound(h3, env.inboundOrder, env.inboundIo, env.now);
      var d := DriveStreams(h3, env.inboundOrder, env.inboundIo, env.now);
      DriveOutboundsSide(d.h, env.outboundOrder, env.outboundIo, env.now);
    }
  }

  /** An active handler queues the request of the peer, unchanged, under the number of its stream. */
  lemma RequestIsHandedOn(h: HState, req: Request, now: nat)
    ensures
      InjectInbound(h, req, now).eventsOut
      == h.eventsOut + if h.state.Active? then [ReceivedRequest(h.nextIn, req)] else []
  {
    hide UpdateKeepAlive;
    assert h.eventsOut + [] == h.eventsOut;
  }

  /* ---- inbound timers ---- */

  /** The state of an inbound stream once the timers that expired have acted: an idle stream whose
      timer is among them sends the timeout error. */
  function StateAfterTimers(info: InboundInfo, expired: seq<Key>): InboundState {
    if info.state.Idle? && info.key.Some? && info.key.value in expired
    then PendingSend(ServerError(TIMED_OUT), true)
    else info.state
  }

  function StatesAfterTimers(m: map<SubstreamId, InboundInfo>, expired: seq<Key>): map<SubstreamId, InboundState> {
    map s | s in m :: StateAfterTimers(m[s], expired)
  }

  function StatesOf(m: map<SubstreamId, InboundInfo>): map<SubstreamId, InboundState> {
    map s | s in m :: m[s].state
  }

  lemma FireInboundAt(h: HState, k: Key, rest: seq<Key>, s: SubstreamId)
    requires Inv(h) && k in h.inboundDelay.items && s in h.inbound
    ensures
      var h' := FireInbound(h, k);
      s in h'.inbound && StateAfterTimers(h'.inbound[s], rest) == StateAfterTimers(h.inbound[s], [k] + rest)
  {
    InvInboundOk(h, s);
    InvTimer(h, k);
    hide Inv;
    assert forall j :: j in [k] + rest <==> j == k || j in rest;
    if h.inboundDelay.items[k].value == s { FireInboundKey(h, k); }
  }

  lemma FireInboundKey(h: HState, k: Key)
    requires k in h.inboundDelay.items && h.inboundDelay.items[k].value in h.inbound
    ensures
      var s, h' := h.inboundDelay.items[k].value, FireInbound(h, k);
      && s in h'.inbound && h'.inbound[s].key == None
      && h'.inbound[s].state == CloseStream(h.inbound[s].state, QueueOf(h.queued, s)).0
  {
  }

  lemma FireInboundOwn(h: HState, k: Key)
    requires Inv(h) && k in h.inboundDelay.items
    ensures h.inbound[h.inboundDelay.items[k].value].key == Some(k)
  {
  }

  lemma {:induction false} FireInboundsAt(h: HState, expired: seq<Key>, s: SubstreamId)
    requires Inv(h) && s in h.inbound
    ensures
      var m := FireInbounds(h, expired).inbound;
      s in m && m[s].state == StateAfterTimers(h.inbound[s], expired)
    decreases |expired|
  {
    if expired != [] {
      var k, rest := expired[0], expired[1..];
      assert [k] + rest == expired;
      InvInboundOk(h, s);
      if k in h.inboundDelay.items {
        FireInboundOwn(h, k);
        FireInboundAt(h, k, rest, s);
        FireInboundInv(h, k);
        hide Inv, FireInbound;
        FireInboundsAt(FireInbound(h, k), rest, s);
      } else {
        hide Inv;
        FireInboundsAt(h, rest, s);
        assert forall j :: j in expired <==> j == k || j in rest;
      }
    }
  }

  lemma FireInboundsStates(h: HState, expired: seq<Key>)
    requires Inv(h)
    ensures StatesOf(FireInbounds(h, expired).inbound) == StatesAfterTimers(h.inbound, expired)
  {
    hide Inv, FireInbounds, StateAfterTimers;
    FireInboundsKeys(h, expired);
    forall s <- h.inbound
      ensures FireInbounds(h, expired).inbound[s].state == StateAfterTimers(h.inbound[s], expired)
    {
      FireInboundsAt(h, expired, s);
    }
  }

  /* ---- one inbound stream ---- */

  /** What becomes of an inbound stream. */
  datatype Fate = Stays(state: InboundState) | Gone

  function FateAt(m: map<SubstreamId, InboundInfo>, s: SubstreamId): Fate {
    if s in m then Stays(m[s].state) else Gone
  }

  /** The answers of a sink in the turns of one poll. */
  type SinkAnswers = (SubstreamId, nat) -> InboundIo

  function ClosingFate(io: SinkAnswers, s: SubstreamId, i: nat): Fate {
    if io(s, i).close.Pending? then Stays(Closing) else Gone
  }

  function FlushFate(io: SinkAnswers, s: SubstreamId, i: nat): Fate {
    match io(s, i).flush
    case Pending => Stays(PendingFlush(true))
    case Failed(_) => Gone
    case Ready => ClosingFate(io, s, i + 1)
  }

  function SendFate(io: SinkAnswers, s: SubstreamId, m: RPCCodedResponse): Fate {
    match io(s, 0).ready
    case Pending => Stays(PendingSend(m, true))
    case Failed(_) => Gone
    case Ready => if io(s, 0).sendOk then FlushFate(io, s, 1) else ClosingFate(io, s, 1)
  }

  /** A stream goes through its stages as far as its sink lets it: message, flush, close. A dead
      handler closes it without the message. */
  function FateOf(s: SubstreamId, state: InboundState, dead: bool, io: SinkAnswers): Fate {
    match state
    case Idle => if dead then ClosingFate(io, s, 1) else Stays(Idle)
    case PendingSend(m, _) => if dead then ClosingFate(io, s, 1) else SendFate(io, s, m)
    case PendingFlush(_) => FlushFate(io, s, 0)
    case Closing => ClosingFate(io, s, 0)
    case Poisoned => Stays(Poisoned)
  }

  /** The message of the stream is started exactly if the sink is ready for it. */
  function SendsOf(s: SubstreamId, state: InboundState, dead: bool, io: SinkAnswers): seq<Send> {
    if state.PendingSend? && !dead && io(s, 0).ready.Ready? then [Send(s, state.message, io(s, 0).sendOk)] else []
  }

  /** The error with which a failing sink closes the connection. */
  function FailureOf(s: SubstreamId, state: InboundState, dead: bool, io: SinkAnswers): Option<RPCError> {
    if state.PendingSend? && !dead && io(s, 0).ready.Failed? then Some(io(s, 0).ready.e) else None
  }

  lemma ClosingTurn(h: HState, s: SubstreamId, io: SinkAnswers, i: nat, now: nat)
    requires s in h.inbound && h.inbound[s].state.Closing?
    ensures
      var d := DriveStream(h, s, io, i, now);
      FateAt(d.h.inbound, s) == ClosingFate(io, s, i) && d.sends == [] && d.close == None
  {
    hide UpdateKeepAlive;
  }

  lemma FlushTurns(h: HState, s: SubstreamId, io: SinkAnswers, i: nat, now: nat)
    requires s in h.inbound && h.inbound[s].state == PendingFlush(true)
    ensures
      var d := DriveStream(h, s, io, i, now);
      FateAt(d.h.inbound, s) == FlushFate(io, s, i) && d.sends == [] && d.close == None
  {
    hide UpdateKeepAlive, ClosingFate;
    if io(s, i).flush.Ready? {
      var h1 := DriveOnce(h, s, io(s, i), now).h;
      assert h1.inbound[s].state.Closing?;
      hide DriveOnce;
      ClosingTurn(h1, s, io, i + 1, now);
      hide CloseAfter;
    }
  }

  lemma FirstTurn(h: HState, s: SubstreamId, io: InboundIo, now: nat)
    requires s in h.inbound && InboundOk(h.inbound[s], QueueOf(h.queued, s))
    ensures
      var d, state, dead := DriveOnce(h, s, io, now), h.inbound[s].state, h.state.Deactivated?;
      && (state.Idle? && !dead ==>
            !d.further && FateAt(d.h.inbound, s) == Stays(Idle) && d.close == None && d.sends == [])
      && (state.Idle? && dead ==> d.further && FateAt(d.h.inbound, s) == Stays(Closing) && d.sends == [])
      && (state.PendingSend? && dead ==> d.further && FateAt(d.h.inbound, s) == Stays(Closing) && d.sends == [])
      && (state.PendingSend? && !dead ==>
            match io.ready
            case Pending => !d.further && FateAt(d.h.inbound, s) == Stays(state) && d.close == None && d.sends == []
            case Failed(e) => !d.further && FateAt(d.h.inbound, s) == Gone && d.close == Some(e) && d.sends == []
            case Ready =>
              && d.further && d.sends == [Send(s, state.message, io.sendOk)]
              && FateAt(d.h.inbound, s) == Stays(if io.sendOk then PendingFlush(true) else Closing))
  {
    hide UpdateKeepAlive;
  }

  lemma StreamFate(h: HState, s: SubstreamId, io: SinkAnswers, now: nat)
    requires Inv(h) && s in h.inbound
    ensures
      var d, state, dead := DriveStream(h, s, io, 0, now), h.inbound[s].state, h.state.Deactivated?;
      && FateAt(d.h.inbound, s) == FateOf(s, state, dead, io)
      && d.sends == SendsOf(s, state, dead, io) && d.close == FailureOf(s, state, dead, io)
  {
    InvInboundOk(h, s);
    hide Inv;
    var state := h.inbound[s].state;
    if state.Closing? {
      ClosingTurn(h, s, io, 0, now);
    } else if state.PendingFlush? {
      FlushTurns(h, s, io, 0, now);
    } else {
      FirstTurn(h, s, io(s, 0), now);
      DriveOnceProgress(h, s, io(s, 0), now);
      var d := DriveOnce(h, s, io(s, 0), now);
      hide DriveOnce, InboundOk, ClosingFate, FlushFate;
      if d.further {
        if d.h.inbound[s].state.Closing? { ClosingTurn(d.h, s, io, 1, now); }
        else { FlushTurns(d.h, s, io, 1, now); }
      }
    }
  }

  /* ---- all inbound streams ---- */

  function SendsFor(sends: seq<Send>, s: SubstreamId): seq<Send> {
    if sends == [] then [] else (if sends[0].sid == s then [sends[0]] else []) + SendsFor(sends[1..], s)
  }

  lemma {:induction false} SendsForConcat(a: seq<Send>, b: seq<Send>, s: SubstreamId)
    ensures SendsFor(a + b, s) == SendsFor(a, s) + SendsFor(b, s)
  {
    if a == [] {
      assert a + b == b;
    } else {
      var head := if a[0].sid == s then [a[0]] else [];
      assert (a + b)[0] == a[0] && (a + b)[1..] == a[1..] + b;
      SendsForConcat(a[1..], b, s);
      var x, y := SendsFor(a[1..], s), SendsFor(b, s);
      assert SendsFor(a, s) == head + x && SendsFor(a + b, s) == head + SendsFor(a[1..] + b, s);
      hide SendsFor;
      assert head + (x + y) == (head + x) + y;
    }
  }

  /** What is true of one stream after all of `order` were driven. */
  ghost predicate DrivenTo(h: HState, d: Drive, s: SubstreamId, order: seq<SubstreamId>, io: SinkAnswers)
    requires s in h.inbound
  {
    var state, dead := h.inbound[s].state, h.state.Deactivated?;
    if s in order then
      FateAt(d.h.inbound, s) == FateOf(s, state, dead, io) && SendsFor(d.sends, s) == SendsOf(s, state, dead, io)
    else FateAt(d.h.inbound, s) == Stays(state) && SendsFor(d.sends, s) == []
  }

  lemma OthersStay(h: HState, t: SubstreamId, io: SinkAnswers, now: nat, s: SubstreamId)
    requires Inv(h) && t in h.inbound && s in h.inbound && s != t
    ensures
      var d := DriveStream(h, t, io, 0, now);
      && s in d.h.inbound && d.h.inbound[s].state == h.inbound[s].state && d.h.state == h.state
      && SendsFor(d.sends, s) == []
  {
    DriveStreamOnly(h, t, io, 0, now);
    DriveStreamSinks(h, t, io, 0, now);
    DriveStreamState(h, t, io, 0, now);
    hide Inv, DriveStream, Rank;
    var d := DriveStream(h, t, io, 0, now);
    assert (h.inbound - {t})[s] == (d.h.inbound - {t})[s];
    if d.sends != [] { assert d.sends == [d.sends[0]] && d.sends[1..] == []; }
  }

  lemma NewStreams(h: HState, t: SubstreamId, io: SinkAnswers, now: nat)
    requires t in h.inbound
    ensures forall s: SubstreamId | s != t :: s in DriveStream(h, t, io, 0, now).h.inbound <==> s in h.inbound
  {
    DriveStreamOnly(h, t, io, 0, now);
  }

  lemma SentBy(h: HState, t: SubstreamId, io: SinkAnswers, now: nat)
    requires Inv(h) && t in h.inbound
    ensures var sends := DriveStream(h, t, io, 0, now).sends; SendsFor(sends, t) == sends
  {
    DriveStreamSinks(h, t, io, 0, now);
    hide Inv, DriveStream, Rank;
    var sends := DriveStream(h, t, io, 0, now).sends;
    if sends != [] { assert sends == [sends[0]] && sends[1..] == []; }
  }

  lemma {:induction false} NothingFor(h: HState, order: seq<SubstreamId>, io: SinkAnswers, now: nat, s: SubstreamId)
    requires Inv(h) && (s !in h.inbound || s !in order)
    ensures
      var d := DriveStreams(h, order, io, now);
      d.close.None? ==> FateAt(d.h.inbound, s) == FateAt(h.inbound, s) && SendsFor(d.sends, s) == []
    decreases |order|
  {
    hide Inv, DriveStream;
    if order == [] {
    } else if order[0] !in h.inbound {
      NothingFor(h, order[1..], io, now, s);
    } else {
      var t := order[0];
      var d := DriveStream(h, t, io, 0, now);
      NewStreams(h, t, io, now);
      DriveStreamInv(h, t, io, 0, now);
      if s in h.inbound { OthersStay(h, t, io, now, s); } else { NoSendsFor(h, t, io, now, s); }
      if d.close.None? {
        NothingFor(d.h, order[1..], io, now, s);
        SendsForConcat(d.sends, DriveStreams(d.h, order[1..], io, now).sends, s);
      }
    }
  }

  lemma NoSendsFor(h: HState, t: SubstreamId, io: SinkAnswers, now: nat, s: SubstreamId)
    requires Inv(h) && t in h.inbound && s != t
    ensures SendsFor(DriveStream(h, t, io, 0, now).sends, s) == []
  {
    DriveStreamSinks(h, t, io, 0, now);
    hide Inv, DriveStream, Rank;
    var sends := DriveStream(h, t, io, 0, now).sends;
    if sends != [] { assert sends == [sends[0]] && sends[1..] == []; }
  }

  lemma {:induction false} StreamsFate(h: HState, order: seq<SubstreamId>, io: SinkAnswers, now: nat, s: SubstreamId)
    requires Inv(h) && Distinct(order) && s in h.inbound
    ensures var d := DriveStreams(h, order, io, now); d.close.None? ==> DrivenTo(h, d, s, order, io)
    decreases |order|
  {
    hide Inv, DriveStream, FateOf, SendsOf;
    if order == [] {
    } else if order[0] !in h.inbound {
      StreamsFate(h, order[1..], io, now, s);
    } else {
      var t, rest := order[0], order[1..];
      var d := DriveStream(h, t, io, 0, now);
      assert forall u :: u in order <==> u == t || u in rest;
      DriveStreamInv(h, t, io, 0, now);
      DriveStreamState(h, t, io, 0, now);
      if d.close.None? {
        var r := DriveStreams(d.h, rest, io, now);
        SendsForConcat(d.sends, r.sends, s);
        if s == t {
          StreamFate(h, s, io, now);
          SentBy(h, s, io, now);
          NothingFor(d.h, rest, io, now, s);
        } else {
          OthersStay(h, t, io, now, s);
          StreamsFate(d.h, rest, io, now, s);
        }
      }
    }
  }

  /** The first stream of the order whose sink fails closes the connection. */
  function FirstFailure(
    states: map<SubstreamId, InboundState>, order: seq<SubstreamId>, dead: bool, io: SinkAnswers): Option<RPCError>
    decreases |order|
  {
    if order == [] then None
    else if order[0] in states && FailureOf(order[0], states[order[0]], dead, io).Some?
    then FailureOf(order[0], states[order[0]], dead, io)
    else FirstFailure(states, order[1..], dead, io)
  }

  lemma {:induction false} FailureElsewhere(
    a: map<SubstreamId, InboundState>, b: map<SubstreamId, InboundState>,
    order: seq<SubstreamId>, dead: bool, io: SinkAnswers)
    requires forall s <- order :: (s in a <==> s in b) && (s in a ==> a[s] == b[s])
    ensures FirstFailure(a, order, dead, io) == FirstFailure(b, order, dead, io)
    decreases |order|
  {
    if order != [] { FailureElsewhere(a, b, order[1..], dead, io); }
  }

  lemma {:induction false} StreamsClose(h: HState, order: seq<SubstreamId>, io: SinkAnswers, now: nat)
    requires Inv(h) && Distinct(order)
    ensures
      DriveStreams(h, order, io, now).close == FirstFailure(StatesOf(h.inbound), order, h.state.Deactivated?, io)
    decreases |order|
  {
    hide Inv, DriveStream, FailureOf;
    if order == [] {
    } else if order[0] !in h.inbound {
      StreamsClose(h, order[1..], io, now);
    } else {
      var t, rest := order[0], order[1..];
      var d := DriveStream(h, t, io, 0, now);
      StreamFate(h, t, io, now);
      DriveStreamInv(h, t, io, 0, now);
      DriveStreamState(h, t, io, 0, now);
      if d.close.None? {
        StreamsClose(d.h, rest, io, now);
        NewStreams(h, t, io, now);
        forall s <- rest ensures s in h.inbound ==> s in d.h.inbound && d.h.inbound[s].state == h.inbound[s].state {
          assert s != t;
          if s in h.inbound { OthersStay(h, t, io, now, s); }
        }
        FailureElsewhere(StatesOf(h.inbound), StatesOf(d.h.inbound), rest, h.state.Deactivated?, io);
      }
    }
  }

  /* ---- outbound streams ---- */

  /** What the application is told about request `d` when its stream yields `next`. */
  function ToldAbout(d: Dial, next: NextItem): PollResult
    requires !next.NotReady?
  {
    match next
    case Item(Success(resp)) => Custom(Ok(ReceivedResponse(d.id, resp)))
    case Item(InvalidRequest(text)) => FailedWith(d, ErrorResponse(InvalidRequestCode, text))
    case Item(ServerError(text)) => FailedWith(d, ErrorResponse(ServerErrorCode, text))
    case Item(Unknown(text)) => FailedWith(d, ErrorResponse(UnknownCode, text))
    case ItemErr(e) => FailedWith(d, e)
    case End => FailedWith(d, IncompleteStream)
  }

  function FailedWith(d: Dial, e: RPCError): PollResult { Custom(Err(OutboundErr(d.id, d.req.body.Proto(), e))) }

  /** The request a waiting stream was opened for. */
  function DialAt(h: HState, s: SubstreamId): Dial
    requires Waits(h, s)
  {
    Dial(h.outbound[s].id, h.outbound[s].state.req)
  }

  predicate About(report: Report, s: SubstreamId) { !report.Late? && NamedBy(report) == Some(s) }

  /** The stream a report is about, if it comes from one. */
  function NamedBy(report: Report): Option<SubstreamId> {
    match report
    case NoReport => None
    case Final(_, stream) => stream
    case Chunk(_, s) => Some(s)
    case Late(_, s) => Some(s)
  }

  /** The first stream of the order that waits and has something to yield. */
  function FirstReady(h: HState, order: seq<SubstreamId>, io: SubstreamId -> OutboundIo): Option<SubstreamId>
    decreases |order|
  {
    if order == [] then None
    else if Waits(h, order[0]) && !io(order[0]).next.NotReady? then Some(order[0])
    else FirstReady(h, order[1..], io)
  }

  lemma {:induction false} FirstReadyWaits(h: HState, order: seq<SubstreamId>, io: SubstreamId -> OutboundIo)
    ensures
      var k := FirstReady(h, order, io);
      k.Some? ==> k.value in order && Waits(h, k.value) && !io(k.value).next.NotReady?
    decreases |order|
  {
    if order != [] { FirstReadyWaits(h, order[1..], io); }
  }

  lemma {:induction false} FirstReadySame(
    h: HState, h': HState, order: seq<SubstreamId>, io: SubstreamId -> OutboundIo)
    requires forall s: SubstreamId :: Waits(h, s) <==> Waits(h', s)
    ensures FirstReady(h, order, io) == FirstReady(h', order, io)
    decreases |order|
  {
    if order != [] { FirstReadySame(h, h', order[1..], io); }
  }

  lemma OutboundTells(h: HState, s: SubstreamId, io: OutboundIo, now: nat)
    requires Inv(h) && s in h.outbound && !h.state.Deactivated?
    ensures
      var r := DriveOutbound(h, s, io, now);
      if Waits(h, s) && !io.next.NotReady? then
        r.result == Some(ToldAbout(DialAt(h, s), io.next)) && About(r.report, s)
      else
        && r.result == None && r.report == NoReport && r.h.state == h.state
        && forall t: SubstreamId ::
             (Waits(r.h, t) <==> Waits(h, t)) && (Waits(h, t) ==> DialAt(r.h, t) == DialAt(h, t))
  {
    InvOutboundOk(h, s);
    hide Inv, UpdateKeepAlive;
  }

  lemma {:induction false} OutboundsTell(
    h: HState, order: seq<SubstreamId>, io: SubstreamId -> OutboundIo, now: nat)
    requires Inv(h) && !h.state.Deactivated?
    ensures
      var r, k := DriveOutbounds(h, order, io, now), FirstReady(h, order, io);
      && (k.None? ==> r.result == None && r.report == NoReport)
      && (k.Some? ==>
            && Waits(h, k.value) && !io(k.value).next.NotReady?
            && r.result == Some(ToldAbout(DialAt(h, k.value), io(k.value).next)) && About(r.report, k.value))
    decreases |order|
  {
    hide Inv, DriveOutbound, ToldAbout, About;
    if order == [] {
    } else if order[0] !in h.outbound {
      OutboundsTell(h, order[1..], io, now);
    } else {
      var s := order[0];
      OutboundTells(h, s, io(s), now);
      DriveOutboundInv(h, s, io(s), now);
      var r := DriveOutbound(h, s, io(s), now);
      if r.result.None? {
        OutboundsTell(r.h, order[1..], io, now);
        FirstReadySame(h, r.h, order[1..], io);
        FirstReadyWaits(h, order[1..], io);
      }
    }
  }

  lemma {:induction false} DeadOutboundsAreSilent(
    h: HState, order: seq<SubstreamId>, io: SubstreamId -> OutboundIo, now: nat)
    requires h.state.Deactivated?
    ensures var r := DriveOutbounds(h, order, io, now); r.result == None && r.report == NoReport
    decreases |order|
  {
    hide UpdateKeepAlive;
    if order == [] {
    } else if order[0] !in h.outbound {
      DeadOutboundsAreSilent(h, order[1..], io, now);
    } else {
      DriveOutboundSide(h, order[0], io(order[0]), now);
      DeadOutboundsAreSilent(DriveOutbound(h, order[0], io(order[0]), now).h, order[1..], io, now);
    }
  }

  lemma OneStreamTells(h: HState, s: SubstreamId, io: OutboundIo, now: nat)
    requires Inv(h) && s in h.outbound
    ensures
      DriveOutbound(h, s, io, now).result
      == if Waits(h, s) && !h.state.Deactivated? && !io.next.NotReady?
         then Some(ToldAbout(DialAt(h, s), io.next)) else None
  {
    hide DriveOutbound, ToldAbout;
    if h.state.Deactivated? {
      DeadIsSilent(h, s, io, now);
    } else {
      OutboundTells(h, s, io, now);
    }
  }

  lemma AllStreamsTell(h: HState, order: seq<SubstreamId>, io: SubstreamId -> OutboundIo, now: nat)
    requires Inv(h)
    ensures
      var r, k := DriveOutbounds(h, order, io, now), FirstReady(h, order, io);
      if k.None? || h.state.Deactivated? then r.result == None
      else
        && Waits(h, k.value) && !io(k.value).next.NotReady?
        && r.result == Some(ToldAbout(DialAt(h, k.value), io(k.value).next))
  {
    hide DriveOutbounds, ToldAbout;
    if h.state.Deactivated? {
      DeadOutboundsAreSilent(h, order, io, now);
    } else {
      OutboundsTell(h, order, io, now);
    }
  }

  lemma {:induction false} FirstTimeout(h: HState, expired: seq<Key>, now: nat)
    requires Inv(h)
    ensures
      var s, k := FireOutbounds(h, expired, now), FirstLive(h.outboundDelay, expired);
      && (k.None? ==> s.result == None && s.report == NoReport && s.h == h)
      && (k.Some? ==>
            && k.value in h.outboundDelay.items && h.outboundDelay.items[k.value].value in h.outbound
            && var info := h.outbound[h.outboundDelay.items[k.value].value];
            && s.result == Some(Custom(Err(OutboundErr(info.id, info.proto, StreamTimeout))))
            && NamedBy(s.report) == Some(h.outboundDelay.items[k.value].value))
    decreases |expired|
  {
    hide UpdateKeepAlive;
    if expired != [] {
      if expired[0] !in h.outboundDelay.items { FirstTimeout(h, expired[1..], now); }
    }
  }

  /* ---- whole polls ---- */

  /** The poll gets to the streams and drives all inbound ones. */
  predicate DrivesStreams(h: HState, env: PollEnv) {
    && !HandsOut(h) && !env.inboundTimerFails && !env.outboundTimerFails
    && FirstLive(h.outboundDelay, env.outboundExpired).None?
    && SinkFailure(h, env).None?
  }

  function SinkFailure(h: HState, env: PollEnv): Option<RPCError> {
    FirstFailure(StatesAfterTimers(h.inbound, env.inboundExpired), env.inboundOrder, DeadAt(h, env.now), env.inboundIo)
  }

  /** What a poll returns: the oldest error or event that waits; else, in this order, a failed timer,
      an expired outbound timer, a failed sink, the first outbound stream that has something for the
      application, a dial. */
  function Returned(h: HState, env: PollEnv): PollResult {
    if h.pendingErrors != [] then Custom(Err(h.pendingErrors[0]))
    else if h.eventsOut != [] then Custom(Ok(h.eventsOut[0]))
    else if env.inboundTimerFails then Close(InternalError("Could not poll inbound stream timer"))
    else
      match FirstLive(h.outboundDelay, env.outboundExpired)
      case Some(k) => TimeoutOf(h, k)
      case None =>
        if env.outboundTimerFails then Close(InternalError("Could not poll outbound stream timer"))
        else
          match SinkFailure(h, env)
          case Some(e) => Close(e)
          case None =>
            if !DeadAt(h, env.now) && ReadyStream(h, env).Some? then
              ToldAbout(DialAt(h, ReadyStream(h, env).value), env.outboundIo(ReadyStream(h, env).value).next)
            else if h.dialQueue != [] && h.dialNegotiated < 8 then OutboundSubstreamRequest(h.dialQueue[0])
            else PollPending
  }

  function ReadyStream(h: HState, env: PollEnv): (r: Option<SubstreamId>)
    ensures r.Some? ==> Waits(h, r.value) && !env.outboundIo(r.value).next.NotReady?
  {
    FirstReadyWaits(h, env.outboundOrder, env.outboundIo);
    FirstReady(h, env.outboundOrder, env.outboundIo)
  }

  function TimeoutOf(h: HState, k: Key): PollResult {
    if k in h.outboundDelay.items && h.outboundDelay.items[k].value in h.outbound then
      var info := h.outbound[h.outboundDelay.items[k].value];
      Custom(Err(OutboundErr(info.id, info.proto, StreamTimeout)))
    else PollPending
  }

  /** A poll up to the streams. */
  lemma UpToStreams(h: HState, env: PollEnv)
    requires Inv(h) && !HandsOut(h)
    ensures
      var h2 := FireInbounds(CheckShutdown(h, env.now), env.inboundExpired);
      && Inv(h2) && h2.state.Deactivated? == DeadAt(h, env.now)
      && h2.outbound == h.outbound && h2.outboundDelay == h.outboundDelay
      && h2.dialQueue == h.dialQueue && h2.dialNegotiated == h.dialNegotiated
      && StatesOf(h2.inbound) == StatesAfterTimers(h.inbound, env.inboundExpired)
  {
    CheckShutdownInv(h, env.now);
    hide Inv, FireInbounds;
    var h1 := CheckShutdown(h, env.now);
    FireInboundsInv(h1, env.inboundExpired);
    FireInboundsFrame(h1, env.inboundExpired);
    FireInboundsState(h1, env.inboundExpired);
    FireInboundsStates(h1, env.inboundExpired);
  }

  lemma StreamsReturn(h: HState, env: PollEnv)
    requires Inv(h) && Distinct(env.inboundOrder)
    ensures
      var r := PollStreams(h, env).result;
      match FirstFailure(StatesOf(h.inbound), env.inboundOrder, h.state.Deactivated?, env.inboundIo)
      case Some(e) => r == Close(e)
      case None =>
        r == if !h.state.Deactivated? && ReadyStream(h, env).Some? then
               ToldAbout(DialAt(h, ReadyStream(h, env).value), env.outboundIo(ReadyStream(h, env).value).next)
             else if h.dialQueue != [] && h.dialNegotiated < 8 then OutboundSubstreamRequest(h.dialQueue[0])
             else PollPending
    ensures
      NamedBy(PollStreams(h, env).report)
      == if FirstFailure(StatesOf(h.inbound), env.inboundOrder, h.state.Deactivated?, env.inboundIo).None?
            && !h.state.Deactivated?
         then ReadyStream(h, env) else None
  {
    hide Inv, DriveStreams, DriveOutbounds, UpdateKeepAlive, FirstFailure, ToldAbout;
    StreamsClose(h, env.inboundOrder, env.inboundIo, env.now);
    DriveStreamsOutbound(h, env.inboundOrder, env.inboundIo, env.now);
    DriveStreamsInv(h, env.inboundOrder, env.inboundIo, env.now);
    var d := DriveStreams(h, env.inboundOrder, env.inboundIo, env.now);
    if d.close.None? {
      FirstReadySame(h, d.h, env.outboundOrder, env.outboundIo);
      DriveOutboundsDials(d.h, env.outboundOrder, env.outboundIo, env.now);
      if h.state.Deactivated? { DeadOutboundsAreSilent(d.h, env.outboundOrder, env.outboundIo, env.now); }
      else { OutboundsTell(d.h, env.outboundOrder, env.outboundIo, env.now); }
    }
  }

  /** The outbound stream a poll reports on: that of the timer that expired first, or else the first
      that has something for the application. */
  function Named(h: HState, env: PollEnv): Option<SubstreamId> {
    if HandsOut(h) || env.inboundTimerFails then None
    else
      match FirstLive(h.outboundDelay, env.outboundExpired)
      case Some(k) => if k in h.outboundDelay.items then Some(h.outboundDelay.items[k].value) else None
      case None =>
        if env.outboundTimerFails || SinkFailure(h, env).Some? || DeadAt(h, env.now) then None
        else ReadyStream(h, env)
  }

  /** Every poll returns what it should, and reports on the stream it should. */
  lemma PollReturns(h: HState, env: PollEnv)
    requires Inv(h) && Distinct(env.inboundOrder)
    ensures Poll(h, env).result == Returned(h, env)
    ensures NamedBy(Poll(h, env).report) == Named(h, env)
  {
    if !HandsOut(h) {
      UpToStreams(h, env);
      hide Inv, FireInbounds, FireOutbounds, PollStreams, ToldAbout, FirstFailure;
      var h2 := FireInbounds(CheckShutdown(h, env.now), env.inboundExpired);
      FirstTimeout(h2, env.outboundExpired, env.now);
      FirstReadySame(h, h2, env.outboundOrder, env.outboundIo);
      StreamsReturn(h2, env);
    }
  }

  /** A poll with nothing to hand out that does not close the connection: it takes each inbound
      stream as far as its sink lets it, and starts the message of each exactly if the sink is ready
      for it, unless a timeout of an outbound stream is to be returned first. */
  lemma InboundFates(h: HState, env: PollEnv, s: SubstreamId)
    requires Inv(h) && Distinct(env.inboundOrder) && !HandsOut(h) && !Returned(h, env).Close?
    requires s in h.inbound
    ensures
      var p, state, dead := Poll(h, env), StateAfterTimers(h.inbound[s], env.inboundExpired), DeadAt(h, env.now);
      if DrivesStreams(h, env) && s in env.inboundOrder then
        && FateAt(p.h.inbound, s) == FateOf(s, state, dead, env.inboundIo)
        && SendsFor(p.sends, s) == SendsOf(s, state, dead, env.inboundIo)
      else FateAt(p.h.inbound, s) == Stays(state) && SendsFor(p.sends, s) == []
  {
    UpToStreams(h, env);
    hide Inv, FireInbounds, FireOutbounds, DriveStreams, PollOutboundStreams, FateOf, SendsOf, FirstFailure, ToldAbout;
    var h2 := FireInbounds(CheckShutdown(h, env.now), env.inboundExpired);
    assert s in StatesAfterTimers(h.inbound, env.inboundExpired);
    assert s in StatesOf(h2.inbound) && h2.inbound[s].state == StatesOf(h2.inbound)[s];
    FirstTimeout(h2, env.outboundExpired, env.now);
    FireOutboundsSide(h2, env.outboundExpired, env.now);
    StreamsClose(h2, env.inboundOrder, env.inboundIo, env.now);
    StreamsFate(h2, env.inboundOrder, env.inboundIo, env.now, s);
    var d := DriveStreams(h2, env.inboundOrder, env.inboundIo, env.now);
    PollOutboundSide(d.h, env, d.sends);
  }

  /* ---- outbound streams that are not reported on ---- */

  /** What becomes of an outbound stream in a poll that returns nothing about any of them: a dead
      handler gives up waiting, and a closing stream goes once it is closed. */
  function OutFate(info: OutboundInfo, dead: bool, closed: bool): Option<OutboundInfo> {
    match info.state
    case PendingResponse(_) => if dead then Some(info.(state := OutClosing)) else Some(info)
    case OutClosing => if closed then None else Some(info)
    case OutPoisoned => Some(info)
  }

  function OutAt(m: map<SubstreamId, OutboundInfo>, s: SubstreamId): Option<OutboundInfo> {
    if s in m then Some(m[s]) else None
  }

  lemma OneOutFate(h: HState, s: SubstreamId, io: OutboundIo, now: nat)
    requires s in h.outbound
    ensures
      var r, info := DriveOutbound(h, s, io, now), h.outbound[s];
      r.result.None? ==>
        && OutAt(r.h.outbound, s) == OutFate(info, h.state.Deactivated?, io.closed)
        && r.h.state == h.state
        && forall t: SubstreamId | t != s :: OutAt(r.h.outbound, t) == OutAt(h.outbound, t)
  {
    hide UpdateKeepAlive;
  }

  lemma {:induction false} OutFates(
    h: HState, order: seq<SubstreamId>, io: SubstreamId -> OutboundIo, now: nat, s: SubstreamId)
    requires Distinct(order) && s in h.outbound
    ensures
      var r := DriveOutbounds(h, order, io, now);
      r.result.None? ==>
        OutAt(r.h.outbound, s)
        == if s in order then OutFate(h.outbound[s], h.state.Deactivated?, io(s).closed) else Some(h.outbound[s])
    decreases |order|
  {
    hide DriveOutbound, OutFate;
    if order == [] {
    } else if order[0] !in h.outbound {
      OutFates(h, order[1..], io, now, s);
    } else {
      var t, rest := order[0], order[1..];
      assert forall u :: u in order <==> u == t || u in rest;
      OneOutFate(h, t, io(t), now);
      var r := DriveOutbound(h, t, io(t), now);
      if r.result.None? {
        assert OutAt(r.h.outbound, s) == if s == t then OutFate(h.outbound[s], h.state.Deactivated?, io(s).closed)
                                         else Some(h.outbound[s]);
        if s in r.h.outbound { OutFates(r.h, rest, io, now, s); }
        else { GoneStays(r.h, rest, io, now, s); }
      }
    }
  }

  lemma {:induction false} GoneStays(
    h: HState, order: seq<SubstreamId>, io: SubstreamId -> OutboundIo, now: nat, s: SubstreamId)
    requires s !in h.outbound
    ensures s !in DriveOutbounds(h, order, io, now).h.outbound
    decreases |order|
  {
    hide DriveOutbound;
    if order == [] {
    } else if order[0] !in h.outbound {
      GoneStays(h, order[1..], io, now, s);
    } else {
      DriveOutboundOnly(h, order[0], io(order[0]), now);
      GoneStays(DriveOutbound(h, order[0], io(order[0]), now).h, order[1..], io, now, s);
    }
  }

  /** A poll that goes through all streams without a result about an outbound one. */
  lemma OutboundFates(h: HState, env: PollEnv, s: SubstreamId)
    requires Inv(h) && Distinct(env.inboundOrder) && Distinct(env.outboundOrder) && DrivesStreams(h, env)
    requires s in h.outbound && s in env.outboundOrder
    requires DeadAt(h, env.now) || ReadyStream(h, env).None?
    ensures
      OutAt(Poll(h, env).h.outbound, s) == OutFate(h.outbound[s], DeadAt(h, env.now), env.outboundIo(s).closed)
  {
    UpToStreams(h, env);
    hide Inv, FireInbounds, FireOutbounds, DriveStreams, DriveOutbounds, OutFate, FirstFailure, UpdateKeepAlive;
    hide ToldAbout;
    var h2 := FireInbounds(CheckShutdown(h, env.now), env.inboundExpired);
    FirstTimeout(h2, env.outboundExpired, env.now);
    StreamsClose(h2, env.inboundOrder, env.inboundIo, env.now);
    DriveStreamsOutbound(h2, env.inboundOrder, env.inboundIo, env.now);
    DriveStreamsInv(h2, env.inboundOrder, env.inboundIo, env.now);
    var d := DriveStreams(h2, env.inboundOrder, env.inboundIo, env.now);
    if d.h.state.Deactivated? {
      DeadOutboundsAreSilent(d.h, env.outboundOrder, env.outboundIo, env.now);
    } else {
      FirstReadySame(h, d.h, env.outboundOrder, env.outboundIo);
      OutboundsTell(d.h, env.outboundOrder, env.outboundIo, env.now);
    }
    OutFates(d.h, env.outboundOrder, env.outboundIo, env.now, s);
  }

  /** What becomes of a stream the poll reports on because of what it yielded: it waits for one chunk
      fewer if that was neither an error nor the last, it is to be closed after any other response, and
      it is dropped when it broke or ended. */
  function ReportedFate(info: OutboundInfo, next: NextItem): Option<OutboundInfo> {
    if !next.Item? then None
    else if next.r.Success? && info.remaining.Some? && info.remaining.value > 1 then
      Some(info.(remaining := Some(info.remaining.value - 1)))
    else Some(info.(state := OutClosing))
  }

  lemma OneReported(h: HState, s: SubstreamId, io: OutboundIo, now: nat)
    requires Inv(h) && Waits(h, s) && !io.next.NotReady? && !h.state.Deactivated?
    ensures OutAt(DriveOutbound(h, s, io, now).h.outbound, s) == ReportedFate(h.outbound[s], io.next)
  {
    InvOutboundOk(h, s);
    hide Inv, UpdateKeepAlive;
  }

  lemma {:induction false} StreamsReported(
    h: HState, order: seq<SubstreamId>, io: SubstreamId -> OutboundIo, now: nat, s: SubstreamId)
    requires Inv(h) && !h.state.Deactivated? && FirstReady(h, order, io) == Some(s) && Waits(h, s)
    ensures OutAt(DriveOutbounds(h, order, io, now).h.outbound, s) == ReportedFate(h.outbound[s], io(s).next)
    decreases |order|
  {
    hide Inv, DriveOutbound, ReportedFate, ToldAbout;
    var t := order[0];
    if t !in h.outbound {
      StreamsReported(h, order[1..], io, now, s);
    } else {
      OutboundTells(h, t, io(t), now);
      DriveOutboundInv(h, t, io(t), now);
      OneOutFate(h, t, io(t), now);
      if t == s {
        FirstReadyWaits(h, order, io);
        OneReported(h, s, io(s), now);
      } else {
        var r := DriveOutbound(h, t, io(t), now);
        assert r.result.None?;
        assert OutAt(r.h.outbound, s) == OutAt(h.outbound, s);
        FirstReadySame(h, r.h, order[1..], io);
        StreamsReported(r.h, order[1..], io, now, s);
      }
    }
  }

  /** A poll that tells the application what a stream yielded. */
  lemma StreamIsReported(h: HState, env: PollEnv, s: SubstreamId)
    requires Inv(h) && Distinct(env.inboundOrder) && DrivesStreams(h, env) && !DeadAt(h, env.now)
    requires ReadyStream(h, env) == Some(s)
    ensures OutAt(Poll(h, env).h.outbound, s) == ReportedFate(h.outbound[s], env.outboundIo(s).next)
  {
    UpToStreams(h, env);
    hide Inv, FireInbounds, FireOutbounds, DriveStreams, DriveOutbounds, FirstFailure, UpdateKeepAlive;
    hide ToldAbout, ReportedFate;
    var h2 := FireInbounds(CheckShutdown(h, env.now), env.inboundExpired);
    FirstTimeout(h2, env.outboundExpired, env.now);
    StreamsClose(h2, env.inboundOrder, env.inboundIo, env.now);
    DriveStreamsOutbound(h2, env.inboundOrder, env.inboundIo, env.now);
    DriveStreamsInv(h2, env.inboundOrder, env.inboundIo, env.now);
    var d := DriveStreams(h2, env.inboundOrder, env.inboundIo, env.now);
    FirstReadySame(h, d.h, env.outboundOrder, env.outboundIo);
    OutboundsTell(d.h, env.outboundOrder, env.outboundIo, env.now);
    StreamsReported(d.h, env.outboundOrder, env.outboundIo, env.now, s);
  }

  /* ---- errors queued by polls ---- */

  /** The errors about expired inbound streams, in the order of their timers. */
  function TimeoutErrors(
    timers: map<Key, Timer<SubstreamId>>, m: map<SubstreamId, InboundInfo>, expired: seq<Key>): seq<HandlerErr>
    decreases |expired|
  {
    if expired == [] then []
    else if expired[0] !in timers || timers[expired[0]].value !in m then TimeoutErrors(timers, m, expired[1..])
    else
      var s := timers[expired[0]].value;
      [InboundErr(s, m[s].proto, StreamTimeout)] + TimeoutErrors(timers - {expired[0]}, m, expired[1..])
  }

  lemma {:induction false} SameProtos(
    timers: map<Key, Timer<SubstreamId>>, a: map<SubstreamId, InboundInfo>, b: map<SubstreamId, InboundInfo>,
    expired: seq<Key>)
    requires a.Keys == b.Keys && forall s <- a :: a[s].proto == b[s].proto
    ensures TimeoutErrors(timers, a, expired) == TimeoutErrors(timers, b, expired)
    decreases |expired|
  {
    if expired != [] {
      SameProtos(timers, a, b, expired[1..]);
      SameProtos(timers - {expired[0]}, a, b, expired[1..]);
    }
  }

  lemma FireInboundErrors(h: HState, k: Key)
    requires Inv(h) && k in h.inboundDelay.items
    ensures
      var h', s := FireInbound(h, k), h.inboundDelay.items[k].value;
      && s in h.inbound && h'.pendingErrors == h.pendingErrors + [InboundErr(s, h.inbound[s].proto, StreamTimeout)]
      && h'.inboundDelay.items == h.inboundDelay.items - {k}
      && h'.inbound.Keys == h.inbound.Keys && forall t <- h.inbound :: h'.inbound[t].proto == h.inbound[t].proto
  {
    InvTimer(h, k);
    hide Inv, CloseStream, QueueOf;
  }

  lemma {:induction false} FireInboundsErrors(h: HState, expired: seq<Key>)
    requires Inv(h)
    ensures
      FireInbounds(h, expired).pendingErrors
      == h.pendingErrors + TimeoutErrors(h.inboundDelay.items, h.inbound, expired)
    decreases |expired|
  {
    hide Inv, FireInbound;
    if expired == [] {
      assert h.pendingErrors + [] == h.pendingErrors;
    } else if expired[0] in h.inboundDelay.items {
      FireInboundErrors(h, expired[0]);
      FireInboundInv(h, expired[0]);
      var h' := FireInbound(h, expired[0]);
      FireInboundsErrors(h', expired[1..]);
      SameProtos(h'.inboundDelay.items, h.inbound, h'.inbound, expired[1..]);
      var s := h.inboundDelay.items[expired[0]].value;
      var rest := TimeoutErrors(h'.inboundDelay.items, h.inbound, expired[1..]);
      var e := InboundErr(s, h.inbound[s].proto, StreamTimeout);
      assert (h.pendingErrors + [e]) + rest == h.pendingErrors + ([e] + rest);
    } else {
      FireInboundsErrors(h, expired[1..]);
    }
  }

  lemma DriveOnceErrors(h: HState, s: SubstreamId, io: InboundIo, now: nat)
    requires s in h.inbound && InboundOk(h.inbound[s], QueueOf(h.queued, s))
    ensures DriveOnce(h, s, io, now).h.pendingErrors == h.pendingErrors
  {
    hide UpdateKeepAlive;
  }

  lemma {:induction false} DriveStreamErrors(h: HState, s: SubstreamId, io: SinkAnswers, i: nat, now: nat)
    requires Inv(h) && s in h.inbound
    ensures DriveStream(h, s, io, i, now).h.pendingErrors == h.pendingErrors
    decreases |QueueOf(h.queued, s)|, Rank(h.inbound[s].state)
  {
    InvInboundOk(h, s);
    hide Inv, DriveOnce, InboundOk;
    DriveOnceErrors(h, s, io(s, i), now);
    DriveOnceProgress(h, s, io(s, i), now);
    DriveOnceOpen(h, s, io(s, i), now);
    DriveOnceInv(h, s, io(s, i), now);
    var d := DriveOnce(h, s, io(s, i), now);
    if d.further { DriveStreamErrors(d.h, s, io, i + 1, now); }
  }

  lemma {:induction false} DriveStreamsErrors(h: HState, order: seq<SubstreamId>, io: SinkAnswers, now: nat)
    requires Inv(h)
    ensures DriveStreams(h, order, io, now).h.pendingErrors == h.pendingErrors
    decreases |order|
  {
    hide Inv, DriveStream;
    if order == [] {
    } else if order[0] !in h.inbound {
      DriveStreamsErrors(h, order[1..], io, now);
    } else {
      DriveStreamErrors(h, order[0], io, 0, now);
      DriveStreamInv(h, order[0], io, 0, now);
      var d := DriveStream(h, order[0], io, 0, now);
      if d.close.None? { DriveStreamsErrors(d.h, order[1..], io, now); }
    }
  }

  /** The rejections of the streams that wait, in the order in which they are driven. */
  function Refusals(m: map<SubstreamId, OutboundInfo>, order: seq<SubstreamId>): seq<HandlerErr>
    decreases |order|
  {
    if order == [] then []
    else Refusal(m, order[0]) + Refusals(m, order[1..])
  }

  function Refusal(m: map<SubstreamId, OutboundInfo>, s: SubstreamId): seq<HandlerErr> {
    if s in m && m[s].state.PendingResponse? then [RejectionOf(m[s])] else []
  }

  lemma {:induction false} SameRefusals(
    a: map<SubstreamId, OutboundInfo>, b: map<SubstreamId, OutboundInfo>, order: seq<SubstreamId>)
    requires forall s <- order :: OutAt(a, s) == OutAt(b, s)
    ensures Refusals(a, order) == Refusals(b, order)
    decreases |order|
  {
    if order != [] {
      assert OutAt(a, order[0]) == OutAt(b, order[0]);
      SameRefusals(a, b, order[1..]);
    }
  }

  lemma Associative<T>(a: seq<T>, b: seq<T>, c: seq<T>)
    ensures (a + b) + c == a + (b + c) && a + [] == a
  {
  }

  lemma {:induction false} AliveOutboundsErrors(
    h: HState, order: seq<SubstreamId>, io: SubstreamId -> OutboundIo, now: nat)
    requires !h.state.Deactivated?
    ensures DriveOutbounds(h, order, io, now).h.pendingErrors == h.pendingErrors
    decreases |order|
  {
    hide DriveOutbound;
    if order == [] {
    } else if order[0] !in h.outbound {
      AliveOutboundsErrors(h, order[1..], io, now);
    } else {
      OneOutError(h, order[0], io(order[0]), now);
      AliveOutboundsErrors(DriveOutbound(h, order[0], io(order[0]), now).h, order[1..], io, now);
    }
  }

  lemma OneOutError(h: HState, s: SubstreamId, io: OutboundIo, now: nat)
    requires s in h.outbound
    ensures
      var h' := DriveOutbound(h, s, io, now).h;
      && h'.state == h.state
      && h'.pendingErrors == h.pendingErrors + (if h.state.Deactivated? then Refusal(h.outbound, s) else [])
  {
    DriveOutboundFrame(h, s, io, now);
    DriveOutboundSide(h, s, io, now);
    hide DriveOutbound;
    Associative<HandlerErr>(h.pendingErrors, [], []);
  }

  lemma {:induction false} DeadOutboundsErrors(
    h: HState, order: seq<SubstreamId>, io: SubstreamId -> OutboundIo, now: nat)
    requires Distinct(order) && h.state.Deactivated?
    ensures DriveOutbounds(h, order, io, now).h.pendingErrors == h.pendingErrors + Refusals(h.outbound, order)
    decreases |order|
  {
    hide DriveOutbound, Refusal;
    if order == [] {
      Associative<HandlerErr>(h.pendingErrors, [], []);
    } else if order[0] !in h.outbound {
      DeadOutboundsErrors(h, order[1..], io, now);
      NoRefusal(h.outbound, order[0]);
      assert [] + Refusals(h.outbound, order[1..]) == Refusals(h.outbound, order[1..]);
    } else {
      var t, rest := order[0], order[1..];
      OneOutError(h, t, io(t), now);
      var r := DriveOutbound(h, t, io(t), now);
      DeadIsSilent(h, t, io(t), now);
      OneOutFate(h, t, io(t), now);
      SameRefusals(h.outbound, r.h.outbound, rest);
      DeadOutboundsErrors(r.h, rest, io, now);
      Associative(h.pendingErrors, Refusal(h.outbound, t), Refusals(h.outbound, rest));
    }
  }

  lemma NoRefusal(m: map<SubstreamId, OutboundInfo>, s: SubstreamId)
    requires s !in m
    ensures Refusal(m, s) == []
  {
  }

  lemma DeadIsSilent(h: HState, s: SubstreamId, io: OutboundIo, now: nat)
    requires s in h.outbound && h.state.Deactivated?
    ensures DriveOutbound(h, s, io, now).result == None
  {
    hide UpdateKeepAlive;
  }

  /** The errors a poll leaves in the queue: what it did not hand out, or, if there was nothing to
      hand out, those of the expired inbound streams, and, when a dead handler gets to its outbound
      streams, the rejections of those that wait. */
  lemma PollQueues(h: HState, env: PollEnv)
    requires Inv(h) && Distinct(env.inboundOrder) && Distinct(env.outboundOrder)
    ensures
      Poll(h, env).h.pendingErrors
      == if h.pendingErrors != [] then h.pendingErrors[1..]
         else if h.eventsOut != [] then []
         else TimeoutErrors(h.inboundDelay.items, h.inbound, env.inboundExpired)
              + (if DrivesStreams(h, env) && DeadAt(h, env.now) then Refusals(h.outbound, env.outboundOrder) else [])
  {
    if !HandsOut(h) {
      UpToStreams(h, env);
      CheckShutdownInv(h, env.now);
      var h1 := CheckShutdown(h, env.now);
      FireInboundsErrors(h1, env.inboundExpired);
      hide Inv, FireInbounds, FireOutbounds, DriveStreams, DriveOutbounds, FirstFailure, UpdateKeepAlive, ToldAbout;
      hide TimeoutErrors, Refusals;
      var h2 := FireInbounds(h1, env.inboundExpired);
      assert h2.pendingErrors == TimeoutErrors(h.inboundDelay.items, h.inbound, env.inboundExpired);
      assert h2.pendingErrors + [] == h2.pendingErrors;
      FirstTimeout(h2, env.outboundExpired, env.now);
      FireOutboundsErrors(h2, env.outboundExpired, env.now);
      StreamsClose(h2, env.inboundOrder, env.inboundIo, env.now);
      DriveStreamsErrors(h2, env.inboundOrder, env.inboundIo, env.now);
      DriveStreamsOutbound(h2, env.inboundOrder, env.inboundIo, env.now);
      var d := DriveStreams(h2, env.inboundOrder, env.inboundIo, env.now);
      if d.h.state.Deactivated? { DeadOutboundsErrors(d.h, env.outboundOrder, env.outboundIo, env.now); }
      else { AliveOutboundsErrors(d.h, env.outboundOrder, env.outboundIo, env.now); }
    }
  }
}
