/** What goes in comes out: requests of the peer reach the application, its answers reach the sinks,
    and what comes back on the outbound streams is what the application is told. */
module HandlerDelivery {
  import opened Methods
  import opened Protocols
  import opened DelayQueues
  import opened HandlerModel
  import opened HandlerInvariant
  import opened HandlerAccounting
  import opened HandlerStreams
  import opened HandlerReports
  import opened HandlerOutcomes
  import opened HandlerRuns
  import opened HandlerTheorems

  /* ---- the lifecycle ---- */

  /** A handler is told to shut down once, is deactivated by the first poll that has nothing to hand
      out 15 seconds later, and changes its lifecycle in no other way. */
  lemma LifecycleStep(w: World, step: Step)
    requires Enabled(w, step)
    ensures
      Next(w, step).h.state
      == match step
         case DoShutdown(_, now) => if w.h.state.Active? then ShuttingDown(now + 15) else w.h.state
         case DoPoll(env) => if !HandsOut(w.h) && DeadAt(w.h, env.now) then Deactivated else w.h.state
         case _ => w.h.state
  {
    match step
    case DoPoll(env) =>
      hide Poll;
      PollLifecycle(w.h, env);
    case DoResponse(sid, r) =>
      hide SendResponse;
      RespondSide(w.h, sid, r);
    case _ => hide UpdateKeepAlive, Rejections;
  }

  /* ---- requests of the peer ---- */

  /** The event the application should get for what a step accepts from the peer, with the number of
      requests accepted before it as its identifier. */
  function AcceptedBy(w: World, step: Step, count: nat): seq<RPCReceived> {
    match step
    case Accept(req, _) => if w.h.state.Active? then [ReceivedRequest(count, req)] else []
    case _ => []
  }

  function Accepted(w: World, steps: seq<Step>, count: nat): seq<RPCReceived>
    requires Legal(w, steps)
    decreases |steps|
  {
    if steps == [] then []
    else
      var events := AcceptedBy(w, steps[0], count);
      events + Accepted(Next(w, steps[0]), steps[1..], count + |events|)
  }

  /** The request a step hands to the application. */
  function HandedBy(w: World, step: Step): seq<RPCReceived> {
    if !step.DoPoll? then []
    else
      match Poll(w.h, step.env).result
      case Custom(Ok(ReceivedRequest(s, req))) => [ReceivedRequest(s, req)]
      case _ => []
  }

  function HandedOut(w: World, steps: seq<Step>): seq<RPCReceived>
    requires Legal(w, steps)
    decreases |steps|
  {
    if steps == [] then [] else HandedBy(w, steps[0]) + HandedOut(Next(w, steps[0]), steps[1..])
  }

  predicate IsRequest(r: Option<PollResult>) {
    r.Some? && r.value.Custom? && r.value.event.Ok? && r.value.event.value.ReceivedRequest?
  }

  lemma {:induction false} InboundTimersKeepEvents(h: HState, expired: seq<Key>)
    ensures FireInbounds(h, expired).eventsOut == h.eventsOut && FireInbounds(h, expired).nextIn == h.nextIn
    decreases |expired|
  {
    if expired != [] {
      InboundTimersKeepEvents(
        if expired[0] in h.inboundDelay.items then FireInbound(h, expired[0]) else h, expired[1..]);
    }
  }

  lemma {:induction false} OutboundTimersKeepEvents(h: HState, expired: seq<Key>, now: nat)
    ensures
      var s := FireOutbounds(h, expired, now);
      s.h.eventsOut == h.eventsOut && s.h.nextIn == h.nextIn && !IsRequest(s.result)
    decreases |expired|
  {
    hide UpdateKeepAlive;
    if expired != [] {
      if expired[0] in h.outboundDelay.items {
        OutboundTimersKeepEvents(FireOutbound(h, expired[0], now).h, expired[1..], now);
      } else {
        OutboundTimersKeepEvents(h, expired[1..], now);
      }
    }
  }

  lemma TurnKeepsEvents(h: HState, s: SubstreamId, io: InboundIo, now: nat)
    requires s in h.inbound
    ensures var h' := DriveOnce(h, s, io, now).h; h'.eventsOut == h.eventsOut && h'.nextIn == h.nextIn
  {
    hide UpdateKeepAlive;
  }

  lemma {:induction false} StreamKeepsEvents(h: HState, s: SubstreamId, io: SinkAnswers, i: nat, now: nat)
    requires s in h.inbound
    ensures var h' := DriveStream(h, s, io, i, now).h; h'.eventsOut == h.eventsOut && h'.nextIn == h.nextIn
    decreases |QueueOf(h.queued, s)|, Rank(h.inbound[s].state)
  {
    hide DriveOnce;
    TurnKeepsEvents(h, s, io(s, i), now);
    DriveOnceProgress(h, s, io(s, i), now);
    var d := DriveOnce(h, s, io(s, i), now);
    if d.further { StreamKeepsEvents(d.h, s, io, i + 1, now); }
  }

  lemma {:induction false} StreamsKeepEvents(h: HState, order: seq<SubstreamId>, io: SinkAnswers, now: nat)
    ensures var h' := DriveStreams(h, order, io, now).h; h'.eventsOut == h.eventsOut && h'.nextIn == h.nextIn
    decreases |order|
  {
    hide DriveStream;
    if order == [] {
    } else if order[0] !in h.inbound {
      StreamsKeepEvents(h, order[1..], io, now);
    } else {
      StreamKeepsEvents(h, order[0], io, 0, now);
      StreamsKeepEvents(DriveStream(h, order[0], io, 0, now).h, order[1..], io, now);
    }
  }

  lemma OutboundKeepsEvents(h: HState, s: SubstreamId, io: OutboundIo, now: nat)
    requires s in h.outbound
    ensures
      var r := DriveOutbound(h, s, io, now);
      r.h.eventsOut == h.eventsOut && r.h.nextIn == h.nextIn && !IsRequest(r.result)
  {
    hide UpdateKeepAlive;
  }

  lemma {:induction false} OutboundsKeepEvents(
    h: HState, order: seq<SubstreamId>, io: SubstreamId -> OutboundIo, now: nat)
    ensures
      var r := DriveOutbounds(h, order, io, now);
      r.h.eventsOut == h.eventsOut && r.h.nextIn == h.nextIn && !IsRequest(r.result)
    decreases |order|
  {
    hide DriveOutbound;
    if order == [] {
    } else if order[0] !in h.outbound {
      OutboundsKeepEvents(h, order[1..], io, now);
    } else {
      OutboundKeepsEvents(h, order[0], io(order[0]), now);
      OutboundsKeepEvents(DriveOutbound(h, order[0], io(order[0]), now).h, order[1..], io, now);
    }
  }

  lemma PollHandsOut(h: HState, env: PollEnv)
    ensures
      var p := Poll(h, env);
      && p.h.nextIn == h.nextIn
      && (if h.pendingErrors == [] && h.eventsOut != [] then
            p.result == Custom(Ok(h.eventsOut[0])) && p.h.eventsOut == h.eventsOut[1..]
          else p.h.eventsOut == h.eventsOut && !IsRequest(Some(p.result)))
  {
    if !HandsOut(h) {
      hide FireInbounds, FireOutbounds, DriveStreams, DriveOutbounds, UpdateKeepAlive;
      var h1 := CheckShutdown(h, env.now);
      InboundTimersKeepEvents(h1, env.inboundExpired);
      var h2 := FireInbounds(h1, env.inboundExpired);
      OutboundTimersKeepEvents(h2, env.outboundExpired, env.now);
      var h3 := FireOutbounds(h2, env.outboundExpired, env.now).h;
      StreamsKeepEvents(h3, env.inboundOrder, env.inboundIo, env.now);
      var d := DriveStreams(h3, env.inboundOrder, env.inboundIo, env.now);
      OutboundsKeepEvents(d.h, env.outboundOrder, env.outboundIo, env.now);
    }
  }

  lemma PollStepHandsOut(w: World, env: PollEnv)
    requires !w.closed && forall e <- w.h.eventsOut :: e.ReceivedRequest?
    ensures
      var w' := Next(w, DoPoll(env));
      && HandedBy(w, DoPoll(env)) + w'.h.eventsOut == w.h.eventsOut && w'.h.nextIn == w.h.nextIn
  {
    hide Inv, Poll, LivesAfter;
    PollHandsOut(w.h, env);
    var events := w.h.eventsOut;
    assert [] + events == events;
    if w.h.pendingErrors == [] && events != [] {
      assert HandedBy(w, DoPoll(env)) == [events[0]] && [events[0]] + events[1..] == events;
    }
  }

  lemma StepHandsOut(w: World, step: Step)
    requires Enabled(w, step) && Inv(w.h)
    ensures
      var w' := Next(w, step);
      && HandedBy(w, step) + w'.h.eventsOut == w.h.eventsOut + AcceptedBy(w, step, w.h.nextIn)
      && w'.h.nextIn == w.h.nextIn + |AcceptedBy(w, step, w.h.nextIn)|
  {
    Associative(w.h.eventsOut, [], []);
    match step
    case DoPoll(env) =>
      assert forall e <- w.h.eventsOut :: e.ReceivedRequest?;
      hide Inv;
      PollStepHandsOut(w, env);
      hide Next, HandedBy;
    case DoResponse(sid, r) =>
      hide Inv;
      ResponseKeepsEvents(w.h, sid, r);
      hide SendResponse, Answer;
    case _ => hide Inv, UpdateKeepAlive, Rejections;
  }

  lemma ResponseKeepsEvents(h: HState, sid: SubstreamId, r: RPCCodedResponse)
    ensures var h' := SendResponse(h, sid, r); h'.eventsOut == h.eventsOut && h'.nextIn == h.nextIn
  {
  }

  lemma {:induction false} RunHandsOut(w: World, steps: seq<Step>)
    requires Legal(w, steps) && WorldInv(w)
    ensures
      HandedOut(w, steps) + Run(w, steps).h.eventsOut == w.h.eventsOut + Accepted(w, steps, w.h.nextIn)
    decreases |steps|
  {
    hide WorldInv, Next, HandedBy, AcceptedBy;
    if steps == [] {
      Associative(w.h.eventsOut, [], []);
      assert [] + w.h.eventsOut == w.h.eventsOut;
    } else {
      InvOfOpen(w, steps[0]);
      StepHandsOut(w, steps[0]);
      StepWorldInv(w, steps[0]);
      var w1 := Next(w, steps[0]);
      RunHandsOut(w1, steps[1..]);
      var first, rest, last := HandedBy(w, steps[0]), HandedOut(w1, steps[1..]), Run(w1, steps[1..]).h.eventsOut;
      var got, more := AcceptedBy(w, steps[0], w.h.nextIn), Accepted(w1, steps[1..], w1.h.nextIn);
      Associative(first, rest, last);
      Associative(first, w1.h.eventsOut, more);
      Associative(w.h.eventsOut, got, more);
    }
  }

  /** Over every run the requests handed to the application, and those that wait to be, are exactly
      those accepted from the peer while the handler was active: in order, once each, unchanged, and
      numbered from zero. */
  lemma RequestsReachTheApplication(timeout: nat, steps: seq<Step>)
    requires Legal(Start(timeout), steps)
    ensures
      HandedOut(Start(timeout), steps) + Run(Start(timeout), steps).h.eventsOut
      == Accepted(Start(timeout), steps, 0)
  {
    StartInv(timeout);
    RunHandsOut(Start(timeout), steps);
    NothingYet(timeout);
    hide Run, HandedOut, Accepted;
    assert [] + Accepted(Start(timeout), steps, 0) == Accepted(Start(timeout), steps, 0);
  }

  lemma NothingYet(timeout: nat)
    ensures Start(timeout).h.eventsOut == [] && Start(timeout).h.nextIn == 0
  {
  }

  /** No two requests of the peer get the same identifier. */
  lemma {:induction false} IdentifiersAreFresh(w: World, steps: seq<Step>, count: nat, i: nat)
    requires Legal(w, steps) && i < |Accepted(w, steps, count)|
    ensures Accepted(w, steps, count)[i].ReceivedRequest? && Accepted(w, steps, count)[i].sid == count + i
    decreases |steps|
  {
    hide Next, Enabled;
    var events := AcceptedBy(w, steps[0], count);
    if i >= |events| { IdentifiersAreFresh(Next(w, steps[0]), steps[1..], count + |events|, i - |events|); }
  }

  /** A request that expects responses gets the stream it is numbered by, idle, with its protocol and
      a timer of its own that is due in ten seconds; one that expects none gets no stream; and when
      the handler is not active any more nothing happens. */
  lemma AcceptedStream(w: World, req: Request, now: nat)
    requires Enabled(w, Accept(req, now)) && Inv(w.h)
    ensures
      var s, h, h' := w.h.nextIn, w.h, Next(w, Accept(req, now)).h;
      && s !in h.inbound
      && (!h.state.Active? ==> h' == h)
      && (h.state.Active? ==> h'.eventsOut == h.eventsOut + [ReceivedRequest(s, req)])
      && (h.state.Active? && req.expected == 0 ==> h'.inbound == h.inbound && h'.inboundDelay == h.inboundDelay)
      && (h.state.Active? && req.expected > 0 ==>
            && h'.inbound.Keys == h.inbound.Keys + {s}
            && h'.inbound[s].state == Idle && h'.inbound[s].proto == req.body.Proto()
            && h'.inbound[s].key.Some? && h'.inbound[s].key.value !in h.inboundDelay.items
            && h'.inboundDelay.items == h.inboundDelay.items[h'.inbound[s].key.value := Timer(s, now + 10)]
            && forall t <- h.inbound :: h'.inbound[t] == h.inbound[t])
  {
    assert forall t <- w.h.inbound :: t < w.h.nextIn;
    hide Inv, UpdateKeepAlive;
  }

  /* ---- answers of the application ---- */

  /** The stream holds the message it is going to send. */
  predicate AwaitsSend(w: World, s: SubstreamId, m: RPCCodedResponse) {
    s in w.h.inbound && w.h.inbound[s].state == PendingSend(m, true)
  }

  /** An idle stream takes the answer it is given. */
  lemma AnswerIsTaken(w: World, s: SubstreamId, r: RPCCodedResponse)
    requires Enabled(w, DoResponse(s, r)) && s in w.h.inbound && w.h.inbound[s].state.Idle?
    requires !w.h.state.Deactivated?
    ensures AwaitsSend(Next(w, DoResponse(s, r)), s, r)
  {
  }

  /** A poll in which the hash maps list each of their keys once. */
  predicate Orderly(step: Step) {
    step.DoPoll? ==> Distinct(step.env.inboundOrder) && Distinct(step.env.outboundOrder)
  }

  /** The sends for `s` that a step adds. */
  function SentBy(w: World, step: Step, s: SubstreamId): seq<Send> {
    if step.DoPoll? then SendsFor(Poll(w.h, step.env).sends, s) else []
  }

  /** What a sink makes of its message in the turns of one poll: taken, it is flushed, or on its way
      to be, or the stream is closing or gone; refused, the stream is closing or gone. */
  predicate Sent(f: Fate, accepted: bool) {
    match f
    case Stays(PendingFlush(closing)) => accepted && closing
    case Stays(Closing) => true
    case Gone => true
    case _ => false
  }

  lemma SendFates(io: SinkAnswers, s: SubstreamId, m: RPCCodedResponse)
    requires io(s, 0).ready.Ready?
    ensures Sent(SendFate(io, s, m), io(s, 0).sendOk)
    ensures io(s, 0).sendOk && io(s, 1).flush.Pending? ==> SendFate(io, s, m) == Stays(PendingFlush(true))
    ensures !io(s, 0).sendOk ==> SendFate(io, s, m) == if io(s, 1).close.Pending? then Stays(Closing) else Gone
  {
  }

  /** What a poll that gets to a ready sink adds to the sends. */
  lemma SinkIsTried(w: World, env: PollEnv, s: SubstreamId, m: RPCCodedResponse)
    requires Enabled(w, DoPoll(env)) && WorldInv(w) && Distinct(env.inboundOrder)
    requires DrivesStreams(w.h, env) && !DeadAt(w.h, env.now) && s in env.inboundOrder
    requires s in w.h.inbound && StateAfterTimers(w.h.inbound[s], env.inboundExpired) == PendingSend(m, true)
    requires env.inboundIo(s, 0).ready.Ready?
    ensures
      var w', send := Next(w, DoPoll(env)), Send(s, m, env.inboundIo(s, 0).sendOk);
      && SentBy(w, DoPoll(env), s) == [send]
      && w.hist.sends <= w'.hist.sends && send in w'.hist.sends
      && FateAt(w'.h.inbound, s) == SendFate(env.inboundIo, s, m)
  {
    hide Inv, Clean, Accounted, LateAfterFinal, DialsOk, SendsSettled, LivesOk, Poll, LivesAfter;
    NotClosed(w.h, env);
    hide Returned, SinkFailure, ToldAbout, FirstFailure, SendFate;
    InboundFates(w.h, env, s);
    var send, sends := Send(s, m, env.inboundIo(s, 0).sendOk), Poll(w.h, env).sends;
    OneSend(sends, s);
    assert SendsFor(sends, s) == [send];
    assert send in [send];
  }

  /** A message that waits is started by the first poll that gets to a ready sink, it and no other;
      the stream flushes it afterwards, or is further, exactly if the sink took it. */
  lemma ReadySinkGetsMessage(w: World, env: PollEnv, s: SubstreamId, m: RPCCodedResponse)
    requires Reachable(w) && Enabled(w, DoPoll(env)) && Distinct(env.inboundOrder)
    requires DrivesStreams(w.h, env) && !DeadAt(w.h, env.now) && s in env.inboundOrder
    requires AwaitsSend(w, s, m) && env.inboundIo(s, 0).ready.Ready?
    ensures
      var w', taken := Next(w, DoPoll(env)), env.inboundIo(s, 0).sendOk;
      && SentBy(w, DoPoll(env), s) == [Send(s, m, taken)]
      && w.hist.sends <= w'.hist.sends && Send(s, m, taken) in w'.hist.sends
      && Sent(FateAt(w'.h.inbound, s), taken)
      && (taken && env.inboundIo(s, 1).flush.Pending? ==> FateAt(w'.h.inbound, s) == Stays(PendingFlush(true)))
      && (!taken ==> FateAt(w'.h.inbound, s) == if env.inboundIo(s, 1).close.Pending? then Stays(Closing) else Gone)
  {
    ReachableInv(w);
    hide WorldInv, Reachable, Next, DrivesStreams, SentBy;
    SinkIsTried(w, env, s, m);
    SendFates(env.inboundIo, s, m);
    hide SendFate, Sent;
  }

  /** The same for a stream that the application never answered: when its timer expires, the timeout
      error is sent. */
  lemma ReadySinkGetsTimeout(w: World, env: PollEnv, s: SubstreamId)
    requires Reachable(w) && Enabled(w, DoPoll(env)) && Distinct(env.inboundOrder)
    requires DrivesStreams(w.h, env) && !DeadAt(w.h, env.now) && s in env.inboundOrder
    requires s in w.h.inbound && w.h.inbound[s].state.Idle? && env.inboundIo(s, 0).ready.Ready?
    requires w.h.inbound[s].key.Some? && w.h.inbound[s].key.value in env.inboundExpired
    ensures
      var w', m, taken := Next(w, DoPoll(env)), ServerError(TIMED_OUT), env.inboundIo(s, 0).sendOk;
      && SentBy(w, DoPoll(env), s) == [Send(s, m, taken)]
      && w.hist.sends <= w'.hist.sends && Send(s, m, taken) in w'.hist.sends
      && Sent(FateAt(w'.h.inbound, s), taken)
  {
    ReachableInv(w);
    hide WorldInv, Reachable, Next, DrivesStreams, SentBy;
    SinkIsTried(w, env, s, ServerError(TIMED_OUT));
    SendFates(env.inboundIo, s, ServerError(TIMED_OUT));
    hide SendFate, Sent;
  }

  lemma NotClosed(h: HState, env: PollEnv)
    requires DrivesStreams(h, env)
    ensures !Returned(h, env).Close?
  {
    hide FirstFailure;
  }

  lemma {:induction false} OneSend(sends: seq<Send>, s: SubstreamId)
    ensures forall send <- SendsFor(sends, s) :: send in sends
  {
    if sends != [] { OneSend(sends[1..], s); }
  }

  /** A message that waits stays as it is until it is started, unless the handler is deactivated or
      the connection closed. */
  lemma MessageStays(w: World, step: Step, s: SubstreamId, m: RPCCodedResponse)
    requires Enabled(w, step) && WorldInv(w) && Orderly(step) && AwaitsSend(w, s, m)
    ensures
      var w' := Next(w, step);
      || w'.closed || w'.h.state.Deactivated? || AwaitsSend(w', s, m)
      || exists taken: bool :: Send(s, m, taken) in w'.hist.sends
  {
    match step
    case DoPoll(env) => PollKeepsMessage(w, env, s, m);
    case DoResponse(sid, r) => ResponseKeepsMessage(w.h, sid, r, s, m);
    case Accept(req, now) =>
      InvOfOpen(w, step);
      AcceptedStream(w, req, now);
      hide WorldInv, Inv, InjectInbound;
    case _ =>
      hide WorldInv, Inv;
      StepFrame(w, step);
      hide Shutdown, SendRequest, InjectOutbound, InjectDialError, Born;
  }

  lemma ResponseKeepsMessage(h: HState, sid: SubstreamId, r: RPCCodedResponse, s: SubstreamId, m: RPCCodedResponse)
    requires s in h.inbound && h.inbound[s].state == PendingSend(m, true)
    ensures
      var h' := SendResponse(h, sid, r);
      s in h'.inbound && h'.inbound[s].state == PendingSend(m, true)
  {
  }

  lemma PollKeepsMessage(w: World, env: PollEnv, s: SubstreamId, m: RPCCodedResponse)
    requires !w.closed && WorldInv(w) && Distinct(env.inboundOrder) && AwaitsSend(w, s, m)
    ensures
      var w' := Next(w, DoPoll(env));
      || w'.closed || w'.h.state.Deactivated? || AwaitsSend(w', s, m)
      || exists taken: bool :: Send(s, m, taken) in w'.hist.sends
  {
    hide Inv, Clean, Accounted, LateAfterFinal, DialsOk, SendsSettled, LivesOk, Poll, LivesAfter;
    PollReturns(w.h, env);
    PollLifecycle(w.h, env);
    hide ToldAbout, FirstFailure;
    if HandsOut(w.h) {
      HandingOutKeeps(w.h, env);
    } else if !Returned(w.h, env).Close? && !DeadAt(w.h, env.now) {
      InboundFates(w.h, env, s);
      var io := env.inboundIo;
      if DrivesStreams(w.h, env) && s in env.inboundOrder {
        if io(s, 0).ready.Ready? {
          SinkIsTried(w, env, s, m);
          assert Send(s, m, io(s, 0).sendOk) in Next(w, DoPoll(env)).hist.sends;
        } else if io(s, 0).ready.Failed? {
          NoFailure(StatesAfterTimers(w.h.inbound, env.inboundExpired), env.inboundOrder, false, io, s);
        }
      }
    }
  }

  lemma {:induction false} NoFailure(
    states: map<SubstreamId, InboundState>, order: seq<SubstreamId>, dead: bool, io: SinkAnswers, s: SubstreamId)
    requires FirstFailure(states, order, dead, io).None? && s in order && s in states
    ensures FailureOf(s, states[s], dead, io).None?
    decreases |order|
  {
    if s != order[0] { NoFailure(states, order[1..], dead, io, s); }
  }

  lemma HandingOutKeeps(h: HState, env: PollEnv)
    requires HandsOut(h)
    ensures Poll(h, env).h.inbound == h.inbound
  {
  }

  lemma SendsGrow(w: World, step: Step)
    requires Enabled(w, step)
    ensures w.hist.sends <= Next(w, step).hist.sends
  {
    hide Poll, Shutdown, SendRequest, SendResponse, InjectInbound, InjectOutbound, InjectDialError, Answer, LivesAfter;
  }

  lemma {:induction false} SendsGrowRun(w: World, steps: seq<Step>)
    requires Legal(w, steps)
    ensures w.hist.sends <= Run(w, steps).hist.sends
    decreases |steps|
  {
    hide Next, Enabled;
    if steps != [] {
      SendsGrow(w, steps[0]);
      SendsGrowRun(Next(w, steps[0]), steps[1..]);
    }
  }

  /** How the story of a message can end. */
  ghost predicate Delivered(w: World, s: SubstreamId, m: RPCCodedResponse) {
    || w.closed || w.h.state.Deactivated? || AwaitsSend(w, s, m)
    || exists taken: bool :: Send(s, m, taken) in w.hist.sends
  }

  lemma {:induction false} MessageStaysRun(w: World, steps: seq<Step>, s: SubstreamId, m: RPCCodedResponse)
    requires Reachable(w) && Legal(w, steps) && (forall step <- steps :: Orderly(step)) && Delivered(w, s, m)
    ensures Delivered(Run(w, steps), s, m)
    decreases |steps|
  {
    hide Next, Enabled, Reachable, WorldInv, AwaitsSend, Orderly;
    if steps != [] {
      var w1 := Next(w, steps[0]);
      ReachableInv(w);
      ReachableStep(w, steps[0]);
      OpenSteps(w, steps);
      if AwaitsSend(w, s, m) {
        MessageStays(w, steps[0], s, m);
      } else if w.h.state.Deactivated? {
        DeactivatedIsSilent(w, steps[0]);
      } else {
        SendsGrow(w, steps[0]);
        var taken: bool :| Send(s, m, taken) in w.hist.sends;
        assert Send(s, m, taken) in w1.hist.sends;
      }
      MessageStaysRun(w1, steps[1..], s, m);
    }
  }

  lemma OpenSteps(w: World, steps: seq<Step>)
    requires Legal(w, steps) && steps != []
    ensures !w.closed
  {
  }

  /** The first answer to a request of the peer: in every continuation it waits for its sink or was
      handed to it, unless the handler was deactivated or the connection closed. */
  lemma TheFirstAnswerIsSent(w: World, s: SubstreamId, r: RPCCodedResponse, steps: seq<Step>)
    requires Reachable(w) && Enabled(w, DoResponse(s, r)) && !w.h.state.Deactivated?
    requires s in w.h.inbound && w.h.inbound[s].state.Idle?
    requires Legal(Next(w, DoResponse(s, r)), steps) && forall step <- steps :: Orderly(step)
    ensures Delivered(Run(Next(w, DoResponse(s, r)), steps), s, r)
  {
    AnswerIsTaken(w, s, r);
    ReachableStep(w, DoResponse(s, r));
    hide Reachable, Next;
    MessageStaysRun(Next(w, DoResponse(s, r)), steps, s, r);
  }

  /* ---- what comes back ---- */

  /** Whenever a poll reports on an outbound stream, what the application is told is what the stream
      yielded, or that its time ran out, about the request the stream was opened for. */
  lemma TheApplicationIsTold(w: World, env: PollEnv, s: SubstreamId)
    requires Reachable(w) && Enabled(w, DoPoll(env)) && Distinct(env.inboundOrder)
    requires NamedBy(Poll(w.h, env).report) == Some(s)
    requires !HandsOut(w.h)
    ensures s in w.hist.lives
    ensures
      var d, next := w.hist.lives[s].dial, env.outboundIo(s).next;
      Poll(w.h, env).result
      == if FirstLive(w.h.outboundDelay, env.outboundExpired).Some? || next.NotReady? then FailedWith(d, StreamTimeout)
         else ToldAbout(d, next)
    ensures
      FirstLive(w.h.outboundDelay, env.outboundExpired).None? ==> !env.outboundIo(s).next.NotReady?
  {
    ReachableInv(w);
    PollReturns(w.h, env);
    hide Clean, Accounted, LateAfterFinal, DialsOk, SendsSettled, Reachable, Poll, ToldAbout, FirstFailure;
    var k := FirstLive(w.h.outboundDelay, env.outboundExpired);
    if k.Some? {
      LiveKey(w.h, env.outboundExpired);
      assert s == w.h.outboundDelay.items[k.value].value && s in w.h.outbound;
    }
    hide Inv;
    assert s in w.h.outbound;
    assert LifeOf(w.h, s, w.hist.lives[s]);
  }

  lemma {:induction false} LiveKey(h: HState, expired: seq<Key>)
    requires Inv(h)
    ensures
      var k := FirstLive(h.outboundDelay, expired);
      k.Some? ==> k.value in h.outboundDelay.items && h.outboundDelay.items[k.value].value in h.outbound
    decreases |expired|
  {
    if expired != [] { LiveKey(h, expired[1..]); }
  }

  /** And a poll does report on the first stream, in the order of the hash map, that has something for
      the application, if nothing else is to be returned before. */
  lemma AnswersAreReported(w: World, env: PollEnv, s: SubstreamId)
    requires Reachable(w) && Enabled(w, DoPoll(env)) && Distinct(env.inboundOrder)
    requires DrivesStreams(w.h, env) && !DeadAt(w.h, env.now) && ReadyStream(w.h, env) == Some(s)
    ensures NamedBy(Poll(w.h, env).report) == Some(s) && !Poll(w.h, env).report.Late?
    ensures s in w.hist.lives && !w.hist.lives[s].ended
    ensures Poll(w.h, env).result == ToldAbout(w.hist.lives[s].dial, env.outboundIo(s).next)
  {
    ReachableInv(w);
    PollReturns(w.h, env);
    LateExactly(w.h, env);
    hide Inv, Clean, Accounted, LateAfterFinal, DialsOk, SendsSettled, Poll, ToldAbout, FirstFailure;
    TheApplicationIsTold(w, env, s);
    EndedIffNotWaiting(w, s);
    hide Reachable;
  }

  /* ---- errors queued outside of polls ---- */

  /** Why a dial failed, as it is reported. */
  function UpgradeError(e: DialError): RPCError {
    match e
    case Apply(error) => error
    case TimedOut => NegotiationTimeout
    case TimerFailed => InternalError("Timer failed")
    case SelectFailed => UnsupportedProtocol
    case SelectIo(what) => IoError(what)
    case InvalidProtocol => InternalError("Protocol was deemed invalid")
    case InvalidMessage => InvalidData
    case TooManyProtocols => InvalidData
  }

  function AnsweredWith(r: RPCCodedResponse): seq<RPCError> {
    match r
    case Success(_) => []
    case InvalidRequest(text) => [ErrorResponse(InvalidRequestCode, text)]
    case ServerError(text) => [ErrorResponse(ServerErrorCode, text)]
    case Unknown(text) => [ErrorResponse(UnknownCode, text)]
  }

  /** A request that is not made for want of an active handler. */
  function Refused(d: Dial): HandlerErr { OutboundErr(d.id, d.req.body.Proto(), HandlerRejected) }

  /** The requests of a queue are refused from its end. */
  function AllRefused(q: seq<Dial>): (r: seq<HandlerErr>)
    ensures |r| == |q|
  {
    seq(|q|, (i: nat) requires i < |q| => Refused(q[|q| - 1 - i]))
  }

  /** The errors a step other than poll queues for the application. */
  function Queues(w: World, step: Step): seq<HandlerErr>
    requires Enabled(w, step)
  {
    match step
    case DoShutdown(_, _) => if w.h.state.Active? then AllRefused(w.h.dialQueue) else []
    case DoRequest(d, _) => if w.h.state.Active? then [] else [Refused(d)]
    case DoResponse(s, r) =>
      if s in w.h.inbound && AnsweredWith(r) != []
      then [InboundErr(s, w.h.inbound[s].proto, AnsweredWith(r)[0])] else []
    case Negotiate(i, _) => if w.h.state.Deactivated? then [Refused(w.inflight[i])] else []
    case FailDial(i, e, _) =>
      var d := w.inflight[i];
      if e.Apply? && e.e.IoError? && w.h.ioRetries < 2 then (if w.h.state.Active? then [] else [Refused(d)])
      else [OutboundErr(d.id, d.req.body.Proto(), UpgradeError(e))]
    case _ => []
  }

  lemma {:induction false} RejectionsBackwards(q: seq<Dial>)
    ensures Rejections(q) == AllRefused(q)
  {
    if q != [] {
      var front := q[..|q| - 1];
      RejectionsBackwards(front);
      assert AllRefused(q) == [Refused(q[|q| - 1])] + AllRefused(front);
    }
  }

  lemma DialFails(h: HState, d: Dial, e: DialError, now: nat)
    requires h.dialNegotiated > 0 && h.ioRetries < 3
    ensures
      InjectDialError(h, d, e, now).pendingErrors
      == h.pendingErrors
         + if e.Apply? && e.e.IoError? && h.ioRetries < 2 then (if h.state.Active? then [] else [Refused(d)])
           else [OutboundErr(d.id, d.req.body.Proto(), UpgradeError(e))]
  {
    hide UpdateKeepAlive;
    Associative<HandlerErr>(h.pendingErrors, [], []);
  }

  lemma ResponseQueues(h: HState, s: SubstreamId, r: RPCCodedResponse)
    ensures
      SendResponse(h, s, r).pendingErrors
      == h.pendingErrors
         + (if s in h.inbound && AnsweredWith(r) != []
            then [InboundErr(s, h.inbound[s].proto, AnsweredWith(r)[0])] else [])
  {
    Associative<HandlerErr>(h.pendingErrors, [], []);
  }

  /** What each call other than poll queues for the application to hear. */
  lemma StepQueues(w: World, step: Step)
    requires Enabled(w, step) && Inv(w.h) && !step.DoPoll?
    ensures Next(w, step).h.pendingErrors == w.h.pendingErrors + Queues(w, step)
  {
    InvRetry(w.h);
    hide Inv, UpdateKeepAlive, UpgradeError;
    Associative<HandlerErr>(w.h.pendingErrors, [], []);
    match step
    case DoShutdown(_, _) =>
      RejectionsBackwards(w.h.dialQueue);
      hide AllRefused, Rejections;
    case DoResponse(s, r) =>
      ResponseQueues(w.h, s, r);
      hide SendResponse;
    case FailDial(i, e, now) =>
      DialFails(w.h, w.inflight[i], e, now);
      hide InjectDialError;
    case _ =>
  }
}
