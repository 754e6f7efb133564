/** The promises of the protocol handler, over all runs. */
module HandlerTheorems {
  import opened Methods
  import opened Protocols
  import opened DelayQueues
  import opened HandlerModel
  import opened HandlerInvariant
  import opened HandlerAccounting
  import opened HandlerReports
  import opened HandlerStreams
  import opened HandlerRuns

  /** The states a handler can be in. */
  ghost predicate Reachable(w: World) {
    exists timeout: nat, steps: seq<Step> :: Reaches(timeout, steps, w)
  }

  ghost predicate Reaches(timeout: nat, steps: seq<Step>, w: World) {
    Legal(Start(timeout), steps) && Run(Start(timeout), steps) == w
  }

  lemma ReachableInv(w: World)
    requires Reachable(w)
    ensures WorldInv(w)
  {
    hide WorldInv;
    var timeout: nat, steps: seq<Step> :| Reaches(timeout, steps, w);
    StartInv(timeout);
    RunInv(Start(timeout), steps);
  }

  /** Every submission of a request identifier is in exactly one place: in the dial queue, in
      flight, on a stream that waits for a response, in the queue of errors to be reported,
      reported for good, or done in silence. */
  lemma RequestsAreNeverLost(w: World, x: RequestId)
    requires Reachable(w)
    ensures
      w.hist.submitted[x]
      == DialCount(w.h.dialQueue, x) + DialCount(w.inflight, x) + Waiting(w.h, x)
         + ErrCount(w.h.pendingErrors, x) + w.hist.finished[x] + w.hist.silent[x]
  {
    ReachableInv(w);
    assert AccountedAt(w, x);
  }

  /** How many polls of a run handed out a response to request `x` or an error about it. */
  function Told(w: World, steps: seq<Step>, x: RequestId): nat
    requires Legal(w, steps)
    decreases |steps|
  {
    if steps == [] then 0
    else
      One(steps[0].DoPoll? && ToldOf(Poll(w.h, steps[0].env).result) == Some(x))
      + Told(Next(w, steps[0]), steps[1..], x)
  }

  /** How many of them handed out a chunk that left its stream waiting for more. */
  function ChunksTold(w: World, steps: seq<Step>, x: RequestId): nat
    requires Legal(w, steps)
    decreases |steps|
  {
    if steps == [] then 0
    else ChunkOf(w, steps[0], x) + ChunksTold(Next(w, steps[0]), steps[1..], x)
  }

  function ChunkOf(w: World, step: Step, x: RequestId): nat {
    if !step.DoPoll? then 0
    else
      var p := Poll(w.h, step.env);
      One(p.report.Chunk? && ToldOf(p.result) == Some(x))
  }

  lemma StepTells(w: World, step: Step, x: RequestId)
    requires Enabled(w, step) && Inv(w.h)
    ensures
      var w' := Next(w, step);
      w'.hist.finished[x] + w'.hist.late[x] + ChunkOf(w, step, x)
      == w.hist.finished[x] + w.hist.late[x]
         + One(step.DoPoll? && ToldOf(Poll(w.h, step.env).result) == Some(x))
  {
    hide Inv, Poll, LivesAfter, Shutdown, SendRequest, SendResponse, InjectInbound, InjectOutbound, InjectDialError;
    if step.DoPoll? { PollReports(w.h, step.env); }
  }

  lemma {:induction false} RunTells(w: World, steps: seq<Step>, x: RequestId)
    requires Legal(w, steps) && WorldInv(w)
    ensures
      var w' := Run(w, steps);
      w'.hist.finished[x] + w'.hist.late[x] + ChunksTold(w, steps, x)
      == w.hist.finished[x] + w.hist.late[x] + Told(w, steps, x)
    decreases |steps|
  {
    hide WorldInv, Next, ChunkOf, Poll;
    if steps != [] {
      InvOfOpen(w, steps[0]);
      StepTells(w, steps[0], x);
      StepWorldInv(w, steps[0]);
      RunTells(Next(w, steps[0]), steps[1..], x);
    }
  }

  lemma InvOfOpen(w: World, step: Step)
    requires Enabled(w, step) && WorldInv(w)
    ensures Inv(w.h)
  {
    hide Inv;
  }

  /** What the application was told about a request over a whole run is what the history says:
      its last reports, its late timeouts, and the chunks before its last report. */
  lemma ResultsAreReports(timeout: nat, steps: seq<Step>, x: RequestId)
    requires Legal(Start(timeout), steps)
    ensures
      var w := Run(Start(timeout), steps);
      Told(Start(timeout), steps, x) == w.hist.finished[x] + w.hist.late[x] + ChunksTold(Start(timeout), steps, x)
  {
    hide Run, Told, ChunksTold, WorldInv;
    StartInv(timeout);
    RunTells(Start(timeout), steps, x);
  }

  /** The application is told about a request after its last report exactly when nothing waits to
      be handed out and the first outbound timer to expire is that of a stream that is closing.
      It is told of a timeout then. The last report of that stream was made or queued, and since
      the queue of errors is empty, handed out; and there is a last report for each such timeout. */
  lemma LateTimeouts(w: World, env: PollEnv)
    requires Reachable(w) && Enabled(w, DoPoll(env))
    ensures
      var p, w' := Poll(w.h, env), Next(w, DoPoll(env));
      && (p.report.Late? <==> LateGuard(w.h, env))
      && (p.report.Late? ==>
            && IsTimeout(p.result) && ToldOf(p.result) == Some(p.report.id)
            && p.report.sid in w.h.outbound && w.h.outbound[p.report.sid].state.OutClosing?
            && p.report.sid !in w'.h.outbound
            && p.report.sid in w.hist.lives && w.hist.lives[p.report.sid].ended
            && w.h.pendingErrors == []
            && w'.hist.late[p.report.id] <= w.hist.finished[p.report.id])
  {
    hide Poll, Inv;
    ReachableInv(w);
    PollEvolves(w.h, env);
    PollReports(w.h, env);
    LateExactly(w.h, env);
    StepWorldInv(w, DoPoll(env));
    var p, w' := Poll(w.h, env), Next(w, DoPoll(env));
    if p.report.Late? {
      assert LateAfterFinalAt(w', p.report.id);
      assert LifeOf(w.h, p.report.sid, w.hist.lives[p.report.sid]);
    }
  }

  /** An error leaves the queue only by being handed out. */
  lemma ErrorsAreHandedOut(w: World, step: Step)
    requires Enabled(w, step) && Inv(w.h)
    ensures
      var errors, errors' := w.h.pendingErrors, Next(w, step).h.pendingErrors;
      || errors <= errors'
      || (&& step.DoPoll? && errors != [] && errors' == errors[1..]
          && Poll(w.h, step.env).result == Custom(Err(errors[0])))
  {
    match step
    case DoPoll(_) => hide PollTimers;
    case DoResponse(sid, r) =>
      if sid in w.h.inbound && !w.h.state.Deactivated? { hide ReportResponse; PlaceKeepsErrors(w.h, sid, r); }
    case _ => hide UpdateKeepAlive, Rejections;
  }

  lemma PlaceKeepsErrors(h: HState, sid: SubstreamId, r: RPCCodedResponse)
    requires sid in h.inbound
    ensures
      var h1 := ReportResponse(h, sid, r);
      && h.pendingErrors <= h1.pendingErrors && sid in h1.inbound
      && PlaceResponse(h1, sid, r).pendingErrors == h1.pendingErrors
  {
  }

  /** At most one message is ever handed to an inbound substream, and it is the first response
      the application gave for it or the timeout error. */
  lemma OneMessagePerInboundStream(w: World)
    requires Reachable(w)
    ensures forall i, j | 0 <= i < j < |w.hist.sends| :: w.hist.sends[i].sid != w.hist.sends[j].sid
    ensures forall send <- w.hist.sends :: Expected(send.sid, send.message, w.hist.answers)
    ensures forall send <- w.hist.sends :: !w.closed && send.sid in w.h.inbound ==>
      w.h.inbound[send.sid].state in {PendingFlush(true), Closing}
  {
    ReachableInv(w);
    forall send <- w.hist.sends
      ensures Expected(send.sid, send.message, w.hist.answers)
      ensures !w.closed && send.sid in w.h.inbound ==>
        w.h.inbound[send.sid].state in {PendingFlush(true), Closing}
    {
      assert RankAt(w.h.inbound, send.sid) <= 2;
      if !w.closed && send.sid in w.h.inbound {
        assert InboundOk(w.h.inbound[send.sid], QueueOf(w.h.queued, send.sid));
      }
    }
  }

  /** Once deactivated, a handler stays so and starts no message any more. */
  lemma DeactivatedIsSilent(w: World, step: Step)
    requires Reachable(w) && Enabled(w, step) && w.h.state.Deactivated?
    ensures Next(w, step).h.state.Deactivated? && Next(w, step).hist.sends == w.hist.sends
  {
    hide UpdateKeepAlive, Inv, Clean, Poll, MessagesFrom, Accounted, LateAfterFinal, DialsOk, LivesOk;
    ReachableInv(w);
    if step.DoPoll? { PollInbound(w.h, step.env, w.hist.answers); }
  }

  /** In whatever order responses, timeouts and polls come, an inbound stream only moves on from
      idle to sending, flushing, closing and gone. */
  lemma InboundStreamsOnlyMoveOn(w: World, step: Step, s: SubstreamId)
    requires Reachable(w) && Enabled(w, step) && s < w.h.nextIn
    ensures RankAt(Next(w, step).h.inbound, s) <= RankAt(w.h.inbound, s)
  {
    ReachableInv(w);
    StepSettles(w, step);
    hide Next;
  }

  /** A stream that is busy closes after its send; one that is idle has nothing queued and a live
      timer of its own, which will end it. */
  lemma NoIdleStreamLeaks(w: World, s: SubstreamId)
    requires Reachable(w) && !w.closed && s in w.h.inbound
    ensures
      var info := w.h.inbound[s];
      match info.state
      case Idle =>
        && QueueOf(w.h.queued, s) == []
        && info.key.Some? && info.key.value in w.h.inboundDelay.items
        && w.h.inboundDelay.items[info.key.value].value == s
      case PendingSend(_, closing) => closing
      case PendingFlush(closing) => closing
      case Closing => true
      case Poisoned => false
  {
    ReachableInv(w);
    assert InboundOk(w.h.inbound[s], QueueOf(w.h.queued, s));
  }

  /** For a stream that waits, the chunks it delivered and those it still expects add up to the
      number its request expects. */
  lemma ChunkCountdown(w: World, s: SubstreamId)
    requires Reachable(w) && !w.closed && s in w.h.outbound && w.h.outbound[s].state.PendingResponse?
    ensures
      && s in w.hist.lives && !w.hist.lives[s].ended
      && w.hist.lives[s].dial.req == w.h.outbound[s].state.req
      && w.hist.lives[s].chunks + Left(w.h.outbound[s]) == w.hist.lives[s].dial.req.expected
  {
    ReachableInv(w);
    assert LifeOf(w.h, s, w.hist.lives[s]);
  }

  /** No stream ever delivers more chunks than its request expects, and none after its last
      report, be that an error chunk, the final chunk, a broken stream or a rejection. */
  lemma NoChunkTooMany(w: World, s: SubstreamId)
    requires Reachable(w) && s in w.hist.lives
    ensures w.hist.lives[s].chunks <= w.hist.lives[s].dial.req.expected
  {
    ReachableInv(w);
    assert LifeBounds(w.h, s, w.hist.lives[s]);
  }

  /** The last report of a stream is made or queued exactly when it does not wait any more. */
  lemma EndedIffNotWaiting(w: World, s: SubstreamId)
    requires Reachable(w) && !w.closed && s in w.hist.lives
    ensures w.hist.lives[s].ended <==> !Waits(w.h, s)
  {
    ReachableInv(w);
    assert LifeBounds(w.h, s, w.hist.lives[s]);
    if s in w.h.outbound {
      InvOutboundOk(w.h, s);
      assert LifeOf(w.h, s, w.hist.lives[s]);
    }
    hide Inv;
  }

  /** A chunk or a last report comes only from a stream without a last report so far; and a stream
      gets one by being reported on or by having its rejection queued. */
  lemma NoChunkAfterTheEnd(w: World, env: PollEnv)
    requires Reachable(w) && Enabled(w, DoPoll(env))
    ensures
      var p, w' := Poll(w.h, env), Next(w, DoPoll(env));
      && (p.report.Chunk? ==> p.report.sid in w.hist.lives && !w.hist.lives[p.report.sid].ended)
      && (p.report.Final? && p.report.stream.Some? ==>
            && p.report.stream.value in w.hist.lives && !w.hist.lives[p.report.stream.value].ended
            && w'.hist.lives[p.report.stream.value].ended)
      && (IsChunk(Some(p.result)) ==> p.report.Chunk? || (p.report.Final? && p.report.stream.Some?))
      && (forall s <- w.hist.lives | w.hist.lives[s].ended :: w'.hist.lives[s] == w.hist.lives[s])
      && (forall s <- w.hist.lives | !w.hist.lives[s].ended && w'.hist.lives[s].ended ::
            || (p.report.Final? && p.report.stream == Some(s))
            || (Waits(w.h, s) && RejectionOf(w.h.outbound[s]) in w'.h.pendingErrors))
  {
    hide Poll, Inv;
    ReachableInv(w);
    PollEvolves(w.h, env);
    var p, w' := Poll(w.h, env), Next(w, DoPoll(env));
    if p.report.Chunk? {
      assert EvolvesAt(w.h, p.h, p.report.sid, p.report, env.now);
      assert LifeOf(w.h, p.report.sid, w.hist.lives[p.report.sid]);
    }
    if p.report.Final? && p.report.stream.Some? {
      assert LifeOf(w.h, p.report.stream.value, w.hist.lives[p.report.stream.value]);
    }
    forall s <- w.hist.lives
      ensures w.hist.lives[s].ended ==> w'.hist.lives[s] == w.hist.lives[s]
      ensures !w.hist.lives[s].ended && w'.hist.lives[s].ended ==>
        || (p.report.Final? && p.report.stream == Some(s))
        || (Waits(w.h, s) && RejectionOf(w.h.outbound[s]) in w'.h.pendingErrors)
    {
      EndedIffNotWaiting(w, s);
      if Rejects(w.h, p, s) { RejectionIsQueued(w.h, env, s); }
    }
  }

  /** No outbound stream is reported as timed out before its request, or its latest chunk, is
      `RESPONSE_TIMEOUT` old. */
  lemma TimeoutsAreNotEarly(w: World, env: PollEnv, s: SubstreamId)
    requires Reachable(w) && Enabled(w, DoPoll(env)) && TimersDue(w.h, env)
    requires TimesOut(Poll(w.h, env), env, s)
    ensures s in w.hist.lives && w.hist.lives[s].touched + RESPONSE_TIMEOUT <= env.now
  {
    ReachableInv(w);
    PollEvolves(w.h, env);
    PollOnTime(w.h, env, s);
    hide Poll, Inv;
    assert LifeOf(w.h, s, w.hist.lives[s]);
  }

  /* ---- dials ---- */

  /** The negotiation counter counts the dials in flight and the retries made so far; it never
      exceeds its cap nor underflows, and retries are bounded by the failures. */
  lemma DialAccounting(w: World)
    requires Reachable(w)
    ensures w.h.dialNegotiated == |w.inflight| + w.hist.retried <= MAX_DIAL_NEGOTIATED
    ensures w.hist.retried <= 2 * w.hist.failed + w.h.ioRetries
    ensures !w.closed ==> w.h.ioRetries < IO_ERROR_RETRIES
    ensures !w.closed && w.inflight != [] ==> w.h.dialNegotiated > 0
    ensures w.hist.retried <= 8
  {
    ReachableInv(w);
  }

  /** The connection can answer each dial in flight: the counter is never zero when it does. */
  lemma AnswersAreExpected(w: World, i: nat, e: DialError, now: nat)
    requires Reachable(w) && !w.closed
    ensures Enabled(w, Negotiate(i, now)) <==> i < |w.inflight|
    ensures Enabled(w, FailDial(i, e, now)) <==> i < |w.inflight|
  {
    ReachableInv(w);
  }

  lemma RetriesStay(w: World, step: Step)
    requires Enabled(w, step)
    ensures Next(w, step).hist.retried >= w.hist.retried
  {
    hide Poll, Shutdown, SendRequest, SendResponse, InjectInbound, InjectOutbound, InjectDialError, LivesAfter, Answer;
  }

  /** Runs go on from reachable worlds to reachable worlds, and retries are never forgotten. */
  lemma {:induction false} ReachableRun(w: World, steps: seq<Step>)
    requires Reachable(w) && Legal(w, steps)
    ensures Reachable(Run(w, steps)) && Run(w, steps).hist.retried >= w.hist.retried
    decreases |steps|
  {
    hide Reachable, Next, Enabled;
    if steps != [] {
      ReachableStep(w, steps[0]);
      RetriesStay(w, steps[0]);
      ReachableRun(Next(w, steps[0]), steps[1..]);
    }
  }

  /** Because retries keep their slots, there is one fewer for dials for each retry ever made. A poll
      that has nothing else to return dials exactly if a request is queued and a slot is left. */
  lemma DialsIffSlotLeft(w: World, env: PollEnv)
    requires Reachable(w) && Enabled(w, DoPoll(env))
    ensures
      var r := Poll(w.h, env).result;
      && (r.OutboundSubstreamRequest? ==> w.h.dialQueue != [] && r.dial == w.h.dialQueue[0])
      && (r.OutboundSubstreamRequest? || r.PollPending? ==>
            (r.OutboundSubstreamRequest? <==> w.h.dialQueue != [] && |w.inflight| + w.hist.retried < 8))
  {
    hide Poll, Inv, Clean, LivesOk, SendsSettled;
    ReachableInv(w);
    PollDials(w.h, env);
    PendingPoll(w.h, env);
  }

  /** A poll comes back empty-handed only if it could not dial. */
  lemma PendingPoll(h: HState, env: PollEnv)
    ensures Poll(h, env).result.PollPending? ==> h.dialQueue == [] || h.dialNegotiated >= MAX_DIAL_NEGOTIATED
  {
    if h.pendingErrors == [] && h.eventsOut == [] {
      hide FireInbounds, FireOutbounds, DriveStreams, DriveOutbounds, UpdateKeepAlive;
      var h1 := CheckShutdown(h, env.now);
      FireInboundsFrame(h1, env.inboundExpired);
      var h2 := FireInbounds(h1, env.inboundExpired);
      FireOutboundsSide(h2, env.outboundExpired, env.now);
      FireOutboundsCustom(h2, env.outboundExpired, env.now);
      var h3 := FireOutbounds(h2, env.outboundExpired, env.now).h;
      DriveStreamsOutbound(h3, env.inboundOrder, env.inboundIo, env.now);
      var d := DriveStreams(h3, env.inboundOrder, env.inboundIo, env.now);
      DriveOutboundsDials(d.h, env.outboundOrder, env.outboundIo, env.now);
    }
  }

  /** A handler that made eight retries has no dial in flight, and never dials again, whatever
      happens to it. */
  lemma EightRetriesStopDialing(w: World, steps: seq<Step>, env: PollEnv)
    requires Reachable(w) && w.hist.retried == 8
    requires Legal(w, steps) && Enabled(Run(w, steps), DoPoll(env))
    ensures Run(w, steps).inflight == [] && !Poll(Run(w, steps).h, env).result.OutboundSubstreamRequest?
  {
    ReachableRun(w, steps);
    var w' := Run(w, steps);
    hide Run, Reachable, Poll;
    DialAccounting(w');
    PollDials(w'.h, env);
  }

  /** A handler that retried a dial once never lets its connection go again. */
  lemma OneRetryForEver(w: World, steps: seq<Step>)
    requires Reachable(w) && w.hist.retried > 0 && Legal(w, steps) && !Run(w, steps).closed
    ensures !Run(w, steps).h.keepAlive.Until?
  {
    ReachableRun(w, steps);
    hide Run, Reachable;
    if Run(w, steps).h.keepAlive.Until? { KeepAliveSound(Run(w, steps)); }
  }

  /** A handler that may be dropped has nothing to dial, nothing dialed and no streams. */
  lemma KeepAliveSound(w: World)
    requires Reachable(w) && !w.closed && w.h.keepAlive.Until?
    ensures w.h.dialQueue == [] && w.h.inbound == map[] && w.h.outbound == map[] && w.inflight == []
    ensures w.h.dialNegotiated == 0 && w.hist.retried == 0
  {
    ReachableInv(w);
  }

  /* ---- shutdown ---- */

  function InWeight(m: map<SubstreamId, InboundInfo>, n: nat): nat {
    if n == 0 then 0 else InWeight(m, n - 1) + RankAt(m, n - 1)
  }

  function OutRank(m: map<SubstreamId, OutboundInfo>, s: SubstreamId): nat {
    if s !in m then 0 else if m[s].state.PendingResponse? then 2 else 1
  }

  function OutWeight(m: map<SubstreamId, OutboundInfo>, n: nat): nat {
    if n == 0 then 0 else OutWeight(m, n - 1) + OutRank(m, n - 1)
  }

  /** The work a handler has left: dials still to make or answer, and the stages its streams still
      have to go through. */
  function Weight(w: World): nat {
    4 * |w.h.dialQueue| + 3 * |w.inflight| + OutWeight(w.h.outbound, w.h.nextOut) + InWeight(w.h.inbound, w.h.nextIn)
  }

  lemma {:induction false} InWeightSinks(
    m: map<SubstreamId, InboundInfo>, m': map<SubstreamId, InboundInfo>, n: nat)
    requires forall s: SubstreamId | s < n :: RankAt(m', s) <= RankAt(m, s)
    ensures InWeight(m', n) <= InWeight(m, n)
  {
    if n > 0 { InWeightSinks(m, m', n - 1); }
  }

  lemma {:induction false} OutWeightSinks(
    m: map<SubstreamId, OutboundInfo>, m': map<SubstreamId, OutboundInfo>, n: nat)
    requires forall s: SubstreamId | s < n :: OutRank(m', s) <= OutRank(m, s)
    ensures OutWeight(m', n) <= OutWeight(m, n)
  {
    if n > 0 { OutWeightSinks(m, m', n - 1); }
  }

  /** The dial queue is what it was, or its head went. */
  predicate OnlyTaken(q: seq<Dial>, q': seq<Dial>) { q' == q || (q != [] && q' == q[1..]) }

  lemma QueueOnlyTaken(w: World, step: Step)
    requires Enabled(w, step) && !w.h.state.Active?
    ensures OnlyTaken(w.h.dialQueue, Next(w, step).h.dialQueue)
  {
    match step
    case DoPoll(env) =>
      hide Poll;
      PollDials(w.h, env);
    case DoResponse(sid, r) =>
      hide SendResponse;
      RespondSide(w.h, sid, r);
    case _ => hide UpdateKeepAlive;
  }

  function FinalQueue(final: Option<Dial>): seq<Dial> { if final.Some? then [final.value] else [] }

  /** After a shutdown, whatever happens, the final message is the only one that may still be dialed,
      and once it is taken from the queue none is. */
  lemma OnlyTheFinalMessage(w: World, final: Option<Dial>, now: nat, steps: seq<Step>)
    requires Reachable(w) && w.h.state.Active? && Enabled(w, DoShutdown(final, now))
    requires Legal(Next(w, DoShutdown(final, now)), steps)
    ensures
      var q := Run(Next(w, DoShutdown(final, now)), steps).h.dialQueue;
      q == FinalQueue(final) || q == []
  {
    ReachableStep(w, DoShutdown(final, now));
    var w' := Next(w, DoShutdown(final, now));
    ShutdownLeaves(w.h, final, now);
    hide Reachable, Shutdown;
    QueueDrains(w', FinalQueue(final), steps);
  }

  lemma ShutdownLeaves(h: HState, final: Option<Dial>, now: nat)
    requires h.state.Active?
    ensures Shutdown(h, final, now).dialQueue == FinalQueue(final) && !Shutdown(h, final, now).state.Active?
  {
    hide UpdateKeepAlive, Rejections;
  }

  lemma {:induction false} QueueDrains(w: World, q: seq<Dial>, steps: seq<Step>)
    requires Reachable(w) && !w.h.state.Active? && |q| <= 1 && (w.h.dialQueue == q || w.h.dialQueue == [])
    requires Legal(w, steps)
    ensures var q' := Run(w, steps).h.dialQueue; q' == q || q' == []
    decreases |steps|
  {
    hide Reachable, Next, Enabled, Weight;
    if steps != [] {
      QueueOnlyTaken(w, steps[0]);
      ShutdownDrains(w, steps[0]);
      ReachableStep(w, steps[0]);
      QueueDrains(Next(w, steps[0]), q, steps[1..]);
    }
  }

  /** A handler that left its active state never returns to it, takes on no new stream of a peer,
      queues no dial any more, has one in the queue at most, and never has more work left than
      before. */
  lemma ShutdownDrains(w: World, step: Step)
    requires Reachable(w) && Enabled(w, step) && !w.h.state.Active?
    ensures
      var w' := Next(w, step);
      && !w'.h.state.Active?
      && w'.h.nextIn == w.h.nextIn && w'.h.inbound.Keys <= w.h.inbound.Keys
      && OnlyTaken(w.h.dialQueue, w'.h.dialQueue) && |w.h.dialQueue| <= 1
      && Weight(w') <= Weight(w)
  {
    ReachableInv(w);
    DrainsInbound(w, step);
    DrainsOutbound(w, step);
    QueueOnlyTaken(w, step);
    hide Next, InboundTimers, OutboundTimers, InboundStreams, OutboundStreams, InWeight, OutWeight;
  }

  lemma StaysInactive(w: World, step: Step)
    requires Enabled(w, step) && Inv(w.h) && SendsSettled(w) && !w.h.state.Active?
    ensures !Next(w, step).h.state.Active? && Next(w, step).h.nextIn == w.h.nextIn
  {
    hide UpdateKeepAlive, Inv, Poll, MessagesFrom;
    if step.DoPoll? { PollInbound(w.h, step.env, w.hist.answers); }
  }

  lemma DrainsInbound(w: World, step: Step)
    requires Enabled(w, step) && Inv(w.h) && SendsSettled(w) && !w.h.state.Active?
    ensures
      var w' := Next(w, step);
      && !w'.h.state.Active? && w'.h.nextIn == w.h.nextIn && w'.h.inbound.Keys <= w.h.inbound.Keys
      && InWeight(w'.h.inbound, w'.h.nextIn) <= InWeight(w.h.inbound, w.h.nextIn)
  {
    hide Next, Inv, SendsSettled, InWeight, MessagesFrom;
    StaysInactive(w, step);
    StepSettles(w, step);
    var w' := Next(w, step);
    InWeightSinks(w.h.inbound, w'.h.inbound, w.h.nextIn);
    forall s <- w'.h.inbound ensures s in w.h.inbound {
      assert RankAt(w'.h.inbound, s) <= RankAt(w.h.inbound, s);
    }
  }

  lemma DrainsOutbound(w: World, step: Step)
    requires Enabled(w, step) && Inv(w.h) && !w.h.state.Active?
    ensures
      var w' := Next(w, step);
      && |w'.h.dialQueue| <= |w.h.dialQueue|
      && 4 * |w'.h.dialQueue| + 3 * |w'.inflight| + OutWeight(w'.h.outbound, w'.h.nextOut)
         <= 4 * |w.h.dialQueue| + 3 * |w.inflight| + OutWeight(w.h.outbound, w.h.nextOut)
  {
    if step.DoPoll? {
      PollDials(w.h, step.env);
      PollEvolves(w.h, step.env);
      var p := Poll(w.h, step.env);
      forall s: SubstreamId | s < w.h.nextOut ensures OutRank(p.h.outbound, s) <= OutRank(w.h.outbound, s) {
        if s in p.h.outbound { assert EvolvesAt(w.h, p.h, s, p.report, step.env.now); }
      }
      OutWeightSinks(w.h.outbound, p.h.outbound, w.h.nextOut);
      hide Poll, OutWeight, Inv;
    } else if step.Negotiate? {
      NegotiateDrains(w, step.i, step.now);
    } else {
      StepOutbound(w, step);
      hide UpdateKeepAlive, OutWeight;
      if step.DoResponse? { RespondSide(w.h, step.sid, step.r); hide SendResponse; }
    }
  }

  lemma NegotiateDrains(w: World, i: nat, now: nat)
    requires Enabled(w, Negotiate(i, now)) && Inv(w.h)
    ensures
      var w' := Next(w, Negotiate(i, now));
      && w'.h.dialQueue == w.h.dialQueue && |w'.inflight| == |w.inflight| - 1
      && OutWeight(w'.h.outbound, w'.h.nextOut) <= OutWeight(w.h.outbound, w.h.nextOut) + 2
  {
    hide UpdateKeepAlive;
    var w' := Next(w, Negotiate(i, now));
    forall s: SubstreamId | s < w.h.nextOut ensures OutRank(w'.h.outbound, s) <= OutRank(w.h.outbound, s) {}
    OutWeightSinks(w.h.outbound, w'.h.outbound, w.h.nextOut);
  }

  /* ---- runs that go on ---- */

  lemma {:induction false} RunAppend(w: World, steps: seq<Step>, step: Step)
    requires Legal(w, steps) && Enabled(Run(w, steps), step)
    ensures Legal(w, steps + [step]) && Run(w, steps + [step]) == Next(Run(w, steps), step)
    decreases |steps|
  {
    hide Next, Enabled;
    var all := steps + [step];
    if steps == [] {
      assert all[1..] == [];
    } else {
      RunAppend(Next(w, steps[0]), steps[1..], step);
      assert all[0] == steps[0] && all[1..] == steps[1..] + [step];
    }
  }

  lemma ReachableStep(w: World, step: Step)
    requires Reachable(w) && Enabled(w, step)
    ensures Reachable(Next(w, step))
  {
    hide Next, Enabled;
    var timeout: nat, steps: seq<Step> :| Reaches(timeout, steps, w);
    RunAppend(Start(timeout), steps, step);
    assert Reaches(timeout, steps + [step], Next(w, step));
  }

  lemma StartReachable(timeout: nat)
    ensures Reachable(Start(timeout))
  {
    assert Reaches(timeout, [], Start(timeout));
  }

  /* ---- where requests come from ---- */

  /** The requests submitted in a run. */
  ghost function Submissions(w: World, steps: seq<Step>): set<Dial>
    requires Legal(w, steps)
    decreases |steps|
  {
    if steps == [] then {}
    else Submission(w, steps[0]) + Submissions(Next(w, steps[0]), steps[1..])
  }

  function Submission(w: World, step: Step): set<Dial> {
    match Submits(w, step) case Some(d) => {d} case None => {}
  }

  /** Whatever the handler dials, waits to dial or has a stream for is one of `all`. */
  ghost predicate ServesOnly(w: World, all: set<Dial>) {
    && (forall d <- w.h.dialQueue :: d in all)
    && (forall d <- w.inflight :: d in all)
    && (forall s <- w.hist.lives :: w.hist.lives[s].dial in all)
  }

  lemma ServesOnlyStep(w: World, step: Step, all: set<Dial>)
    requires Enabled(w, step) && ServesOnly(w, all)
    ensures ServesOnly(Next(w, step), all + Submission(w, step))
  {
    hide Poll, Shutdown, SendRequest, SendResponse, InjectInbound, InjectOutbound, InjectDialError, Answer;
    if step.DoPoll? {
      ServesOnlyPoll(w, step.env, all);
    } else if step.DoShutdown? {
      ShutdownTakes(w, step.final, step.now);
    } else {
      StepFrame(w, step);
      if step.FailDial? || step.Negotiate? {
        WithoutOnly(w.inflight, step.i);
        assert w.inflight[step.i] in w.inflight;
        hide Without;
      }
    }
  }

  /** A shutdown leaves nothing of the queue but its final message. */
  lemma ShutdownTakes(w: World, final: Option<Dial>, now: nat)
    ensures
      var h := Shutdown(w.h, final, now);
      forall d <- h.dialQueue :: if w.h.state.Active? then final == Some(d) else d in w.h.dialQueue
  {
    hide UpdateKeepAlive, Rejections;
  }

  lemma ServesOnlyPoll(w: World, env: PollEnv, all: set<Dial>)
    requires !w.closed && ServesOnly(w, all)
    ensures ServesOnly(Next(w, DoPoll(env)), all)
  {
    hide Poll, LivesAfter;
    PollDials(w.h, env);
    var p := Poll(w.h, env);
    LivesKeep(w.hist.lives, w.h, p, env.now);
    if p.result.OutboundSubstreamRequest? {
      assert p.result.dial in w.h.dialQueue && forall d <- p.h.dialQueue :: d in w.h.dialQueue;
    }
  }

  lemma LivesKeep(lives: map<SubstreamId, Life>, h: HState, p: PollOut, now: nat)
    ensures
      var lives' := LivesAfter(lives, h, p, now);
      lives'.Keys == lives.Keys && forall s <- lives :: lives'[s].dial == lives[s].dial
  {
  }

  lemma WithoutOnly(s: seq<Dial>, i: nat)
    requires i < |s|
    ensures forall d <- Without(s, i) :: d in s
  {
  }

  lemma {:induction false} ServesOnlyRun(w: World, steps: seq<Step>, all: set<Dial>)
    requires Legal(w, steps) && ServesOnly(w, all)
    ensures ServesOnly(Run(w, steps), all + Submissions(w, steps))
    decreases |steps|
  {
    hide Next, Submission, Enabled;
    if steps == [] {
      assert all + {} == all;
    } else {
      var all' := all + Submission(w, steps[0]);
      ServesOnlyStep(w, steps[0], all);
      ServesOnlyRun(Next(w, steps[0]), steps[1..], all');
      assert all' + Submissions(Next(w, steps[0]), steps[1..]) == all + Submissions(w, steps);
      hide ServesOnly;
    }
  }

  /** Over every run each outbound stream serves a request that was submitted. */
  lemma StreamsServeSubmissions(timeout: nat, steps: seq<Step>)
    requires Legal(Start(timeout), steps)
    ensures
      var w, all := Run(Start(timeout), steps), Submissions(Start(timeout), steps);
      && (forall s <- w.hist.lives :: w.hist.lives[s].dial in all)
      && (forall d <- w.h.dialQueue + w.inflight :: d in all)
  {
    ServesOnlyRun(Start(timeout), steps, {});
    assert {} + Submissions(Start(timeout), steps) == Submissions(Start(timeout), steps);
    hide Run, Start, Submissions;
  }

  /* ---- requests that expect one response at most ---- */

  /** The requests the application submits are those of this protocol version. */
  predicate OfToday(step: Step) {
    && (step.DoRequest? ==> step.dial.req == OfBody(step.dial.req.body))
    && (step.DoShutdown? && step.final.Some? ==> step.final.value.req == OfBody(step.final.value.req.body))
  }

  lemma {:induction false} SubmissionsOfToday(w: World, steps: seq<Step>)
    requires Legal(w, steps) && forall step <- steps :: OfToday(step)
    ensures forall d <- Submissions(w, steps) :: d.req.expected <= 1
    decreases |steps|
  {
    hide Next, Enabled;
    if steps != [] {
      assert steps[0] in steps;
      SubmissionsOfToday(Next(w, steps[0]), steps[1..]);
      match Submits(w, steps[0])
      case Some(d) => TodaysRequests(d.req.body);
      case None =>
    }
  }

  /** With them no stream counts chunks and no chunk report is ever made. */
  lemma NoChunksToday(timeout: nat, steps: seq<Step>, env: PollEnv)
    requires Legal(Start(timeout), steps) && Enabled(Run(Start(timeout), steps), DoPoll(env))
    requires forall step <- steps :: OfToday(step)
    ensures !Poll(Run(Start(timeout), steps).h, env).report.Chunk?
  {
    StreamsServeSubmissions(timeout, steps);
    SubmissionsOfToday(Start(timeout), steps);
    var w := Run(Start(timeout), steps);
    assert Reaches(timeout, steps, w);
    NoChunkAfterTheEnd(w, env);
    ReachableInv(w);
    ChunksNeedTwo(w.h, env);
    hide Run, Start, Poll, Submissions;
    assert forall s <- w.h.outbound :: LifeOf(w.h, s, w.hist.lives[s]);
  }

  lemma ChunksNeedTwo(h: HState, env: PollEnv)
    requires Inv(h)
    ensures
      var report := Poll(h, env).report;
      report.Chunk? ==>
        && report.sid in h.outbound && h.outbound[report.sid].state.PendingResponse?
        && h.outbound[report.sid].state.req.expected > 1
  {
    PollEvolves(h, env);
    hide Poll;
    var p := Poll(h, env);
    if p.report.Chunk? {
      assert EvolvesAt(h, p.h, p.report.sid, p.report, env.now);
      assert OutboundOk(h.outbound[p.report.sid]);
    }
  }

  lemma TodaysRequests(body: RPCRequest)
    ensures OfBody(body).expected <= 1
    ensures OfBody(body).expected == 0 <==> body.GoodbyeRequest?
  {
  }
}
