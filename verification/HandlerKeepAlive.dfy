/** When exactly a handler gives its connection the grace period after which it may be dropped. */
module HandlerKeepAlive {
  import opened Methods
  import opened Protocols
  import opened HandlerModel
  import opened HandlerInvariant
  import opened HandlerAccounting
  import opened HandlerStreams
  import opened HandlerReports
  import opened HandlerRuns
  import opened HandlerTheorems

  /** The decision of `update_keep_alive`: the period starts when there is nothing to do, goes on
      while that is so, and is called off otherwise. */
  lemma UpdateDecides(h: HState, now: nat)
    requires h.keepAlive != No
    ensures
      var r := UpdateKeepAlive(h, now);
      && (r.keepAlive.Until? <==> ShouldShutdown(h))
      && (ShouldShutdown(h) ==>
            r.keepAlive == if h.keepAlive.Until? then h.keepAlive else Until(now + h.inactiveTimeout))
      && r == h.(keepAlive := r.keepAlive)
  {
  }

  /** Nothing is left on the network, nor to be handed out. */
  ghost predicate NothingToDo(w: World) {
    && w.h.dialQueue == [] && w.inflight == [] && |w.h.inbound| == 0 && |w.h.outbound| == 0
    && w.h.pendingErrors == [] && w.h.eventsOut == []
  }

  /* ---- one poll ---- */

  /** The decision fits the state. */
  ghost predicate Decided(h: HState) { h.keepAlive.Until? <==> ShouldShutdown(h) }

  ghost predicate Busy(h: HState) { |h.inbound| > 0 || |h.outbound| > 0 || h.dialQueue != [] }

  lemma BusyDecided(h: HState)
    requires Inv(h) && Busy(h)
    ensures Decided(h)
  {
  }

  lemma UpdatedDecided(h: HState, now: nat)
    requires Inv(UpdateKeepAlive(h, now))
    ensures Decided(UpdateKeepAlive(h, now))
  {
    hide InboundTimers, OutboundTimers, InboundStreams, OutboundStreams, LifecycleOk;
  }

  lemma Keeps<V>(m: map<SubstreamId, V>, s: SubstreamId)
    requires s in m
    ensures |m| > 0
  {
  }

  lemma FireInboundDecided(h: HState, k: Key)
    requires Inv(h) && k in h.inboundDelay.items
    ensures Decided(FireInbound(h, k))
  {
    FireInboundInv(h, k);
    FireInboundCommits(h, k);
    Keeps(FireInbound(h, k).inbound, h.inboundDelay.items[k].value);
    hide Inv, FireInbound;
    BusyDecided(FireInbound(h, k));
  }

  lemma {:induction false} FireInboundsDecided(h: HState, expired: seq<Key>)
    requires Inv(h) && Decided(h)
    ensures Decided(FireInbounds(h, expired))
    decreases |expired|
  {
    hide Inv, Decided, FireInbound;
    if expired != [] {
      if expired[0] in h.inboundDelay.items {
        FireInboundDecided(h, expired[0]);
        FireInboundInv(h, expired[0]);
      }
      FireInboundsDecided(
        if expired[0] in h.inboundDelay.items then FireInbound(h, expired[0]) else h, expired[1..]);
    }
  }

  lemma FireOutboundDecided(h: HState, k: Key, now: nat)
    requires Inv(h) && k in h.outboundDelay.items
    ensures Decided(FireOutbound(h, k, now).h)
  {
    FireOutboundInv(h, k, now);
    var s := h.outboundDelay.items[k].value;
    assert s in h.outbound;
    hide Inv;
    UpdatedDecided(h.(outboundDelay := h.outboundDelay.Remove(k), outbound := h.outbound - {s}), now);
    hide Decided, UpdateKeepAlive;
  }

  lemma {:induction false} FireOutboundsDecided(h: HState, expired: seq<Key>, now: nat)
    requires Inv(h) && Decided(h)
    ensures Decided(FireOutbounds(h, expired, now).h)
    decreases |expired|
  {
    hide Inv, Decided, FireOutbound;
    if expired != [] {
      if expired[0] in h.outboundDelay.items {
        FireOutboundDecided(h, expired[0], now);
        FireOutboundInv(h, expired[0], now);
        FireOutboundsDecided(FireOutbound(h, expired[0], now).h, expired[1..], now);
      } else {
        FireOutboundsDecided(h, expired[1..], now);
      }
    }
  }

  /** Dropping an inbound stream ends with an update; every other turn leaves a stream. */
  lemma DriveOnceDecided(h: HState, sid: SubstreamId, io: InboundIo, now: nat)
    requires Inv(h) && sid in h.inbound
    ensures var d := DriveOnce(h, sid, io, now); d.close.None? ==> Decided(d.h)
  {
    var d := DriveOnce(h, sid, io, now);
    if d.close.None? {
      DriveOnceInv(h, sid, io, now);
      hide Inv;
      if sid in d.h.inbound {
        Keeps(d.h.inbound, sid);
        BusyDecided(d.h);
      } else {
        DriveOnceDrops(h, sid, io, now);
        var key := h.inbound[sid].key;
        UpdatedDecided(
          h.(inboundDelay := if key.Some? then h.inboundDelay.Remove(key.value) else h.inboundDelay,
             queued := h.queued - {sid}, inbound := h.inbound - {sid}), now);
        hide Decided, DriveOnce, UpdateKeepAlive;
      }
    }
  }

  lemma DriveOnceDrops(h: HState, sid: SubstreamId, io: InboundIo, now: nat)
    requires sid in h.inbound
    ensures
      var d := DriveOnce(h, sid, io, now);
      d.close.None? && sid !in d.h.inbound ==> d.h == DropInbound(h, sid, now)
  {
    hide UpdateKeepAlive, ApplyQueued, CloseAfter, SetIn, DropInbound;
    TurnsStay(h, sid);
  }

  lemma TurnsStay(h: HState, sid: SubstreamId)
    requires sid in h.inbound
    ensures forall sends :: sid in ApplyQueued(h, sid, sends).h.inbound
    ensures forall closing :: sid in CloseAfter(h, sid, closing, []).h.inbound
    ensures forall s :: sid in SetIn(h, sid, s).inbound
  {
  }

  lemma {:induction false} DriveStreamDecided(
    h: HState, sid: SubstreamId, io: (SubstreamId, nat) -> InboundIo, i: nat, now: nat)
    requires Inv(h) && sid in h.inbound
    ensures var d := DriveStream(h, sid, io, i, now); d.close.None? ==> Decided(d.h)
    decreases |QueueOf(h.queued, sid)|, Rank(h.inbound[sid].state)
  {
    hide Inv, Decided, DriveOnce;
    DriveOnceDecided(h, sid, io(sid, i), now);
    var d := DriveOnce(h, sid, io(sid, i), now);
    if d.further {
      DriveOnceProgress(h, sid, io(sid, i), now);
      DriveOnceOpen(h, sid, io(sid, i), now);
      DriveOnceInv(h, sid, io(sid, i), now);
      DriveStreamDecided(d.h, sid, io, i + 1, now);
    }
  }

  lemma {:induction false} DriveStreamsDecided(
    h: HState, order: seq<SubstreamId>, io: (SubstreamId, nat) -> InboundIo, now: nat)
    requires Inv(h) && Decided(h)
    ensures var d := DriveStreams(h, order, io, now); d.close.None? ==> Decided(d.h)
    decreases |order|
  {
    hide Inv, Decided, DriveStream;
    if order == [] {
    } else if order[0] !in h.inbound {
      DriveStreamsDecided(h, order[1..], io, now);
    } else {
      DriveStreamDecided(h, order[0], io, 0, now);
      var d := DriveStream(h, order[0], io, 0, now);
      if d.close.None? {
        DriveStreamInv(h, order[0], io, 0, now);
        DriveStreamsDecided(d.h, order[1..], io, now);
      }
    }
  }

  lemma DriveOutboundDecided(h: HState, sid: SubstreamId, io: OutboundIo, now: nat)
    requires Inv(h) && sid in h.outbound
    ensures Decided(DriveOutbound(h, sid, io, now).h)
  {
    DriveOutboundInv(h, sid, io, now);
    hide Inv;
    var s := DriveOutbound(h, sid, io, now);
    if sid in s.h.outbound {
      Keeps(s.h.outbound, sid);
      BusyDecided(s.h);
    } else {
      DriveOutboundDrops(h, sid, io, now);
      UpdatedDecided(
        h.(outboundDelay := h.outboundDelay.Remove(h.outbound[sid].key), outbound := h.outbound - {sid}), now);
      hide Decided, DriveOutbound, UpdateKeepAlive;
    }
  }

  lemma DriveOutboundDrops(h: HState, sid: SubstreamId, io: OutboundIo, now: nat)
    requires sid in h.outbound
    ensures var s := DriveOutbound(h, sid, io, now); sid !in s.h.outbound ==> s.h == DropOutbound(h, sid, now)
  {
    hide UpdateKeepAlive;
  }

  lemma {:induction false} DriveOutboundsDecided(
    h: HState, order: seq<SubstreamId>, io: SubstreamId -> OutboundIo, now: nat)
    requires Inv(h) && Decided(h)
    ensures Decided(DriveOutbounds(h, order, io, now).h)
    decreases |order|
  {
    hide Inv, Decided, DriveOutbound;
    if order == [] {
    } else if order[0] !in h.outbound {
      DriveOutboundsDecided(h, order[1..], io, now);
    } else {
      DriveOutboundDecided(h, order[0], io(order[0]), now);
      DriveOutboundInv(h, order[0], io(order[0]), now);
      DriveOutboundsDecided(DriveOutbound(h, order[0], io(order[0]), now).h, order[1..], io, now);
    }
  }

  lemma EstablishDecided(h: HState, now: nat)
    requires Inv(h) && Decided(h)
    ensures Decided(Establish(h, now).h)
  {
    EstablishInv(h, now);
    hide Inv;
    if h.dialQueue != [] && h.dialNegotiated < MAX_DIAL_NEGOTIATED {
      UpdatedDecided(h.(dialNegotiated := h.dialNegotiated + 1, dialQueue := h.dialQueue[1..]), now);
      hide Decided, UpdateKeepAlive;
    }
  }

  lemma PollStreamsDecided(h: HState, env: PollEnv)
    requires Inv(h) && Decided(h)
    ensures var p := PollStreams(h, env); !p.result.Close? ==> Decided(p.h)
  {
    hide Inv, Decided, DriveStreams, DriveOutbounds, Establish;
    DriveStreamsDecided(h, env.inboundOrder, env.inboundIo, env.now);
    DriveStreamsInv(h, env.inboundOrder, env.inboundIo, env.now);
    var d := DriveStreams(h, env.inboundOrder, env.inboundIo, env.now);
    if d.close.None? {
      DriveOutboundsDecided(d.h, env.outboundOrder, env.outboundIo, env.now);
      DriveOutboundsInv(d.h, env.outboundOrder, env.outboundIo, env.now);
      EstablishDecided(DriveOutbounds(d.h, env.outboundOrder, env.outboundIo, env.now).h, env.now);
    }
  }

  lemma CheckShutdownDecided(h: HState, now: nat)
    requires Decided(h)
    ensures Decided(CheckShutdown(h, now))
  {
  }

  /** A poll that gets to the network ends decided if it began so. */
  lemma PollTimersDecided(h: HState, env: PollEnv)
    requires Inv(h) && Decided(h)
    ensures var p := PollTimers(h, env); !p.result.Close? ==> Decided(p.h)
  {
    hide Inv, Decided, CheckShutdown, FireInbounds, FireOutbounds, PollStreams;
    var h1 := CheckShutdown(h, env.now);
    CheckShutdownInv(h, env.now);
    CheckShutdownDecided(h, env.now);
    FireInboundsDecided(h1, env.inboundExpired);
    FireInboundsInv(h1, env.inboundExpired);
    var h2 := FireInbounds(h1, env.inboundExpired);
    FireOutboundsDecided(h2, env.outboundExpired, env.now);
    FireOutboundsInv(h2, env.outboundExpired, env.now);
    PollStreamsDecided(FireOutbounds(h2, env.outboundExpired, env.now).h, env);
  }

  /* ---- a poll with nothing on the network ---- */

  lemma {:induction false} NoStreamsToDrive(
    h: HState, order: seq<SubstreamId>, io: (SubstreamId, nat) -> InboundIo, now: nat)
    requires h.inbound == map[]
    ensures DriveStreams(h, order, io, now) == Drive(h, false, None, [])
    decreases |order|
  {
    if order != [] { NoStreamsToDrive(h, order[1..], io, now); }
  }

  lemma {:induction false} NoOutboundsToDrive(
    h: HState, order: seq<SubstreamId>, io: SubstreamId -> OutboundIo, now: nat)
    requires h.outbound == map[]
    ensures DriveOutbounds(h, order, io, now) == Continue(h)
    decreases |order|
  {
    if order != [] { NoOutboundsToDrive(h, order[1..], io, now); }
  }

  lemma {:induction false} NoTimersToFire(h: HState, inbound: seq<Key>, outbound: seq<Key>, now: nat)
    requires h.inboundDelay.items == map[] && h.outboundDelay.items == map[]
    ensures FireInbounds(h, inbound) == h && FireOutbounds(h, outbound, now) == Continue(h)
    decreases |inbound| + |outbound|
  {
    if inbound != [] { NoTimersToFire(h, inbound[1..], outbound, now); }
    else if outbound != [] { NoTimersToFire(h, inbound, outbound[1..], now); }
  }

  lemma EmptyTimers(h: HState)
    requires Inv(h) && !Busy(h)
    ensures h.inbound == map[] && h.outbound == map[]
    ensures h.inboundDelay.items == map[] && h.outboundDelay.items == map[]
  {
    assert h.inbound == map[] && h.outbound == map[];
    assert forall k <- h.inboundDelay.items :: h.inboundDelay.items[k].value in h.inbound;
    assert forall k <- h.outboundDelay.items :: h.outboundDelay.items[k].value in h.outbound;
  }

  lemma IdlePollKeeps(h: HState, env: PollEnv)
    requires Inv(h) && !Busy(h)
    ensures PollTimers(h, env).h.keepAlive == h.keepAlive
  {
    hide Inv, DriveStreams, DriveOutbounds, FireInbounds, FireOutbounds, UpdateKeepAlive;
    var h1 := CheckShutdown(h, env.now);
    CheckShutdownInv(h, env.now);
    EmptyTimers(h1);
    NoTimersToFire(h1, env.inboundExpired, env.outboundExpired, env.now);
    NoStreamsToDrive(h1, env.inboundOrder, env.inboundIo, env.now);
    NoOutboundsToDrive(h1, env.outboundOrder, env.outboundIo, env.now);
  }

  /* ---- one step ---- */

  /** Whether a step that ends in `w'` leaves the grace period running, where `was` says whether it
      ran before. The steps that do not update the decision are: responses, requests of the peer that
      come after the shutdown, polls that only hand something out, and polls with nothing on the
      network. A failed dial updates it before its error is queued. */
  ghost predicate GraceAfter(w: World, step: Step, was: bool)
    requires Enabled(w, step)
  {
    var w' := Next(w, step);
    match step
    case DoShutdown(_, _) => NothingToDo(w') && w'.hist.retried == 0
    case DoRequest(_, _) => was && !w.h.state.Active?
    case DoResponse(_, _) => was
    case Accept(_, _) => was && !w.h.state.Active?
    case Negotiate(_, _) => NothingToDo(w') && w'.hist.retried == 0
    case FailDial(_, e, _) =>
      && !Retries(w.h, e) && |w.inflight| == 1 && w.hist.retried == 0
      && NothingToDo(w.(inflight := []))
    case DoPoll(_) =>
      if w.h.pendingErrors != [] || w.h.eventsOut != [] || !Busy(w.h) then was
      else NothingToDo(w') && w'.hist.retried == 0
  }

  lemma RestIff(w: World)
    requires DialsOk(w)
    ensures ShouldShutdown(w.h) <==> NothingToDo(w) && w.hist.retried == 0
  {
  }

  lemma InflightKeepsAlive(w: World)
    requires Inv(w.h) && DialsOk(w) && w.inflight != []
    ensures !w.h.keepAlive.Until?
  {
  }

  lemma InvNoNo(h: HState)
    requires Inv(h)
    ensures h.keepAlive != No
  {
  }

  lemma PollGrace(w: World, env: PollEnv)
    requires !w.closed && WorldInv(w) && WorldInv(Next(w, DoPoll(env))) && !Next(w, DoPoll(env)).closed
    ensures Next(w, DoPoll(env)).h.keepAlive.Until? <==> GraceAfter(w, DoPoll(env), w.h.keepAlive.Until?)
  {
    hide Inv, Clean, PollTimers, Busy, Accounted, LateAfterFinal, SendsSettled, LivesOk, LivesAfter, DialsOk;
    hide NothingToDo;
    if w.h.pendingErrors == [] && w.h.eventsOut == [] {
      if Busy(w.h) {
        BusyDecided(w.h);
        PollTimersDecided(w.h, env);
        RestIff(Next(w, DoPoll(env)));
      } else {
        IdlePollKeeps(w.h, env);
      }
    }
  }

  lemma DialGrace(w: World, step: Step)
    requires Enabled(w, step) && WorldInv(w) && WorldInv(Next(w, step)) && (step.Negotiate? || step.FailDial?)
    ensures Next(w, step).h.keepAlive.Until? <==> GraceAfter(w, step, w.h.keepAlive.Until?)
  {
    hide Inv, Clean, Accounted, LateAfterFinal, SendsSettled, LivesOk;
    InflightKeepsAlive(w);
    InvNoNo(w.h);
    var w' := Next(w, step);
    RestIff(w');
    match step
    case Negotiate(i, now) =>
      if w.h.state.Deactivated? { assert w'.h.pendingErrors != []; }
    case FailDial(i, e, now) =>
      hide DialsOk;
      if !Retries(w.h, e) { DialsOfOne(w); }
  }

  lemma DialsOfOne(w: World)
    requires DialsOk(w) && w.inflight != []
    ensures w.h.dialNegotiated == 1 <==> |w.inflight| == 1 && w.hist.retried == 0
  {
  }

  /** The decision after a step follows from what the step finds and leaves. */
  lemma KeepAliveStep(w: World, step: Step)
    requires Enabled(w, step) && WorldInv(w) && !Next(w, step).closed
    ensures Next(w, step).h.keepAlive.Until? <==> GraceAfter(w, step, w.h.keepAlive.Until?)
  {
    StepWorldInv(w, step);
    match step
    case DoPoll(env) => PollGrace(w, env);
    case Negotiate(_, _) => DialGrace(w, step);
    case FailDial(_, _, _) => DialGrace(w, step);
    case DoResponse(sid, r) => ResponseKeeps(w.h, sid, r);
      hide SendResponse, WorldInv;
    case _ => CallGrace(w, step);
  }

  lemma ResponseKeeps(h: HState, sid: SubstreamId, r: RPCCodedResponse)
    ensures SendResponse(h, sid, r).keepAlive == h.keepAlive
  {
  }

  lemma CallGrace(w: World, step: Step)
    requires Enabled(w, step) && WorldInv(w) && WorldInv(Next(w, step))
    requires step.DoShutdown? || step.DoRequest? || step.Accept?
    ensures Next(w, step).h.keepAlive.Until? <==> GraceAfter(w, step, w.h.keepAlive.Until?)
  {
    hide Inv, Clean, Accounted, LateAfterFinal, SendsSettled, LivesOk;
    InvNoNo(w.h);
    RestIff(Next(w, step));
    hide Rejections;
  }

  /* ---- whole runs ---- */

  /** Whether the grace period runs after a run, read off the steps and what they found and left. */
  ghost predicate GraceRun(w: World, steps: seq<Step>, was: bool)
    requires Legal(w, steps)
    decreases |steps|
  {
    if steps == [] then was else GraceRun(Next(w, steps[0]), steps[1..], GraceAfter(w, steps[0], was))
  }

  lemma {:induction false} GraceRunHolds(w: World, steps: seq<Step>)
    requires Legal(w, steps) && WorldInv(w) && !Run(w, steps).closed
    ensures Run(w, steps).h.keepAlive.Until? <==> GraceRun(w, steps, w.h.keepAlive.Until?)
    decreases |steps|
  {
    hide WorldInv, Next, GraceAfter;
    if steps != [] {
      StepWorldInv(w, steps[0]);
      OpenStep(w, steps);
      KeepAliveStep(w, steps[0]);
      GraceRunHolds(Next(w, steps[0]), steps[1..]);
    }
  }

  lemma OpenStep(w: World, steps: seq<Step>)
    requires steps != [] && Legal(w, steps) && !Run(w, steps).closed
    ensures !Next(w, steps[0]).closed
  {
    hide Next;
  }

  /** After every run the grace period runs exactly if that can be read off the history. A new
      handler has none. */
  lemma GracePeriod(timeout: nat, steps: seq<Step>)
    requires Legal(Start(timeout), steps) && !Run(Start(timeout), steps).closed
    ensures Run(Start(timeout), steps).h.keepAlive.Until? <==> GraceRun(Start(timeout), steps, false)
  {
    hide WorldInv, Run, GraceRun;
    StartInv(timeout);
    GraceRunHolds(Start(timeout), steps);
    StartStays(timeout);
  }

  lemma StartStays(timeout: nat)
    ensures !Start(timeout).h.keepAlive.Until?
  {
  }

  /** The documented promise is a grace period for every handler that has nothing left to do. A step
      that leaves nothing to do starts it exactly if the step updates the decision and no dial was
      ever retried; if the step does not update the decision, what was before stays. */
  lemma IdleGracePeriod(w: World, step: Step)
    requires Reachable(w) && Enabled(w, step) && !Next(w, step).closed && NothingToDo(Next(w, step))
    ensures
      Next(w, step).h.keepAlive.Until?
      <==> if Updates(w, step) then Next(w, step).hist.retried == 0 else w.h.keepAlive.Until?
  {
    ReachableInv(w);
    KeepAliveStep(w, step);
    StepWorldInv(w, step);
    IdleSteps(w, step);
    hide WorldInv, Next, Poll, Busy;
  }

  /** The steps that can leave nothing to do and update the decision. */
  ghost predicate Updates(w: World, step: Step) {
    || step.DoShutdown? || step.Negotiate?
    || (step.DoPoll? && w.h.pendingErrors == [] && w.h.eventsOut == [] && Busy(w.h))
  }

  /** Of the others, a request leaves itself or its rejection, a request of the peer to an active
      handler leaves an event, and a failed dial leaves an error. */
  lemma IdleSteps(w: World, step: Step)
    requires Enabled(w, step) && WorldInv(w) && NothingToDo(Next(w, step))
    ensures !step.DoRequest? && !step.FailDial?
    ensures step.Accept? ==> !w.h.state.Active?
  {
    hide WorldInv, Poll, Shutdown, SendResponse, InjectOutbound;
    match step
    case DoRequest(d, now) => hide UpdateKeepAlive;
    case Accept(req, now) => hide UpdateKeepAlive;
    case FailDial(i, e, now) => hide UpdateKeepAlive;
    case _ =>
  }
}
