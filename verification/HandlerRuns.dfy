/** Whole runs of the handler inside its connection: which requests were submitted, where each
    of them is, what was reported about it, and what was sent on the inbound streams. The only
    thing assumed of the connection is that a dial it was asked for is answered at most once. */
module HandlerRuns {
  import opened Methods
  import opened Protocols
  import opened DelayQueues
  import opened HandlerModel
  import opened HandlerInvariant
  import opened HandlerAccounting
  import opened HandlerReports
  import opened HandlerStreams

  /** The life of an outbound stream: the request it was opened for, how many responses came,
      whether its last report was made or queued, and when it was created or last got a chunk. */
  datatype Life = Life(dial: Dial, chunks: nat, ended: bool, touched: nat)

  datatype History = History(
    submitted: multiset<RequestId>,
    finished: multiset<RequestId>,
    silent: multiset<RequestId>,
    late: multiset<RequestId>,
    retried: nat,
    failed: nat,
    sends: seq<Send>,
    answers: map<SubstreamId, RPCCodedResponse>,
    lives: map<SubstreamId, Life>)

  /** `inflight` are the dials the connection still has to answer. */
  datatype World = World(h: HState, inflight: seq<Dial>, closed: bool, hist: History)

  datatype Step =
    | DoShutdown(final: Option<Dial>, now: nat)
    | DoRequest(dial: Dial, now: nat)
    | DoResponse(sid: SubstreamId, r: RPCCodedResponse)
    | Accept(req: Request, now: nat)
    | Negotiate(i: nat, now: nat)
    | FailDial(i: nat, e: DialError, now: nat)
    | DoPoll(env: PollEnv)

  function Start(inactiveTimeout: nat): World {
    World(NewHandler(inactiveTimeout), [], false,
          History(multiset{}, multiset{}, multiset{}, multiset{}, 0, 0, [], map[], map[]))
  }

  /** A connection that was closed makes no more calls, and only open dials are answered. */
  predicate Enabled(w: World, step: Step) {
    && !w.closed
    && (step.Negotiate? ==> step.i < |w.inflight| && w.h.dialNegotiated > 0)
    && (step.FailDial? ==> step.i < |w.inflight| && w.h.dialNegotiated > 0)
  }

  /** The request a step submits; a final message counts if the handler is still active. */
  function Submits(w: World, step: Step): Option<Dial> {
    match step
    case DoRequest(d, _) => Some(d)
    case DoShutdown(final, _) => if w.h.state.Active? then final else None
    case _ => None
  }

  function Submit(hist: History, d: Option<Dial>): History {
    if d.Some? then hist.(submitted := hist.submitted + multiset{d.value.id}) else hist
  }

  function Without<T>(s: seq<T>, i: nat): seq<T>
    requires i < |s|
  {
    s[..i] + s[i + 1..]
  }

  /** The first response the application gives for a stream that is still there. */
  function Answer(w: World, sid: SubstreamId, r: RPCCodedResponse): map<SubstreamId, RPCCodedResponse> {
    if sid in w.h.inbound && !w.h.state.Deactivated? && sid !in w.hist.answers
    then w.hist.answers[sid := r] else w.hist.answers
  }

  function Born(w: World, d: Dial, now: nat): History {
    if w.h.state.Deactivated? then w.hist
    else if d.req.expected == 0 then w.hist.(silent := w.hist.silent + multiset{d.id})
    else w.hist.(lives := w.hist.lives[w.h.nextOut := Life(d, 0, false, now)])
  }

  /** The life of a stream after a poll: its last report is made when the poll reports it as final,
      and queued when the stream stops waiting without such a report. */
  function LifeAfter(h: HState, p: PollOut, s: SubstreamId, life: Life, now: nat): Life {
    if p.report.Chunk? && p.report.sid == s then life.(chunks := life.chunks + 1, touched := now)
    else if p.report.Final? && p.report.stream == Some(s) then
      life.(chunks := life.chunks + One(IsChunk(Some(p.result))), ended := true)
    else if Rejects(h, p, s) then life.(ended := true)
    else life
  }

  function LivesAfter(lives: map<SubstreamId, Life>, h: HState, p: PollOut, now: nat): map<SubstreamId, Life> {
    map s | s in lives :: LifeAfter(h, p, s, lives[s], now)
  }

  function Record(hist: History, h: HState, p: PollOut, now: nat): History {
    hist.(finished := if p.report.Final? then hist.finished + multiset{p.report.id} else hist.finished,
          late := if p.report.Late? then hist.late + multiset{p.report.id} else hist.late,
          sends := hist.sends + p.sends,
          lives := LivesAfter(hist.lives, h, p, now))
  }

  function Next(w: World, step: Step): World
    requires Enabled(w, step)
  {
    match step
    case DoShutdown(final, now) =>
      w.(h := Shutdown(w.h, final, now), hist := if w.h.state.Active? then Submit(w.hist, final) else w.hist)
    case DoRequest(d, now) => w.(h := SendRequest(w.h, d, now), hist := Submit(w.hist, Some(d)))
    case DoResponse(sid, r) =>
      w.(h := SendResponse(w.h, sid, r), hist := w.hist.(answers := Answer(w, sid, r)))
    case Accept(req, now) => w.(h := InjectInbound(w.h, req, now))
    case Negotiate(i, now) =>
      w.(h := InjectOutbound(w.h, w.inflight[i], now), inflight := Without(w.inflight, i),
         hist := Born(w, w.inflight[i], now))
    case FailDial(i, e, now) =>
      w.(h := InjectDialError(w.h, w.inflight[i], e, now), inflight := Without(w.inflight, i),
         hist := if Retries(w.h, e) then w.hist.(retried := w.hist.retried + 1)
                 else w.hist.(failed := w.hist.failed + 1))
    case DoPoll(env) =>
      var p := Poll(w.h, env);
      World(p.h, if p.result.OutboundSubstreamRequest? then w.inflight + [p.result.dial] else w.inflight,
            p.result.Close?, Record(w.hist, w.h, p, env.now))
  }

  predicate Legal(w: World, steps: seq<Step>)
    decreases |steps|
  {
    steps == [] || (Enabled(w, steps[0]) && Legal(Next(w, steps[0]), steps[1..]))
  }

  function Run(w: World, steps: seq<Step>): World
    requires Legal(w, steps)
    decreases |steps|
  {
    if steps == [] then w else Run(Next(w, steps[0]), steps[1..])
  }

  /* ---- what holds after every run ---- */

  /** Every submitted request is in exactly one place: on its way out, waiting, about to be
      reported, reported for good, or done without a report because it expected no response. */
  ghost predicate Accounted(w: World) {
    forall x: RequestId :: AccountedAt(w, x)
  }

  ghost predicate AccountedAt(w: World, x: RequestId) {
    w.hist.submitted[x] == DialCount(w.inflight, x) + Load(w.h, x) + w.hist.finished[x] + w.hist.silent[x]
  }

  /** Each late timeout and each ending stream has its own final report, made or queued; and a
      late timeout never overtakes the report. */
  ghost predicate LateAfterFinal(w: World) {
    forall x: RequestId :: LateAfterFinalAt(w, x)
  }

  ghost predicate LateAfterFinalAt(w: World, x: RequestId) {
    && w.hist.late[x] + Ending(w.h, x) <= w.hist.finished[x] + ErrCount(w.h.pendingErrors, x)
    && w.hist.late[x] <= w.hist.finished[x]
  }

  /** Retried dials never give their slot back. */
  ghost predicate DialsOk(w: World) {
    && w.h.dialNegotiated == |w.inflight| + w.hist.retried <= MAX_DIAL_NEGOTIATED
    && w.hist.retried <= 2 * w.hist.failed + w.h.ioRetries
  }

  /** At most one message starts on each inbound stream; it is the expected one, and the stream
      has moved on. */
  ghost predicate SendsSettled(w: World) {
    && MessagesFrom(w.h.inbound, w.hist.answers)
    && (forall s <- w.hist.answers :: s < w.h.nextIn)
    && (forall s <- w.h.inbound :: s < w.h.nextIn)
    && (forall i | 0 <= i < |w.hist.sends| ::
          var send := w.hist.sends[i];
          && send.sid < w.h.nextIn && RankAt(w.h.inbound, send.sid) <= 2
          && Expected(send.sid, send.message, w.hist.answers))
    && (forall i, j | 0 <= i < j < |w.hist.sends| :: w.hist.sends[i].sid != w.hist.sends[j].sid)
  }

  function Left(info: OutboundInfo): nat { if info.remaining.Some? then info.remaining.value else 1 }

  ghost predicate LifeOf(h: HState, s: SubstreamId, life: Life)
    requires s in h.outbound
  {
    var info := h.outbound[s];
    && info.id == life.dial.id && info.proto == life.dial.req.body.Proto()
    && info.key in h.outboundDelay.items
    && h.outboundDelay.items[info.key].deadline == life.touched + RESPONSE_TIMEOUT
    && (info.state.PendingResponse? ==>
          && !life.ended && life.dial.req == info.state.req
          && life.chunks + Left(info) == life.dial.req.expected)
    && (info.state.OutClosing? ==> life.ended)
  }

  ghost predicate LifeBounds(h: HState, s: SubstreamId, life: Life) {
    s < h.nextOut && life.chunks <= life.dial.req.expected && (s !in h.outbound ==> life.ended)
  }

  /** No stream got more chunks than its request expects, and one that waits got exactly those
      that its countdown says. */
  ghost predicate LivesOk(w: World) {
    && (forall s <- w.hist.lives :: LifeBounds(w.h, s, w.hist.lives[s]))
    && (forall s <- w.h.outbound :: s in w.hist.lives && LifeOf(w.h, s, w.hist.lives[s]))
  }

  ghost predicate WorldInv(w: World) {
    && (w.closed || Inv(w.h)) && Clean(w.h)
    && Accounted(w) && LateAfterFinal(w) && DialsOk(w) && SendsSettled(w) && LivesOk(w)
  }

  lemma StartInv(inactiveTimeout: nat)
    ensures WorldInv(Start(inactiveTimeout))
  {
  }

  /* ---- what calls other than poll leave alone ---- */

  ghost predicate SameStreams(h: HState, h': HState) {
    && h'.inbound == h.inbound && h'.nextIn == h.nextIn
    && h'.outbound == h.outbound && h'.outboundDelay == h.outboundDelay && h'.nextOut == h.nextOut
  }

  lemma ShutdownFrame(h: HState, final: Option<Dial>, now: nat)
    ensures
      var h' := Shutdown(h, final, now);
      && SameStreams(h, h') && h'.dialNegotiated == h.dialNegotiated && h'.ioRetries == h.ioRetries
      && forall d <- h'.dialQueue :: d in h.dialQueue || final == Some(d)
  {
    hide UpdateKeepAlive, Rejections;
  }

  lemma SendRequestFrame(h: HState, d: Dial, now: nat)
    ensures
      var h' := SendRequest(h, d, now);
      && SameStreams(h, h') && h'.dialNegotiated == h.dialNegotiated && h'.ioRetries == h.ioRetries
      && forall d' <- h'.dialQueue :: d' in h.dialQueue || d' == d
  {
    hide UpdateKeepAlive;
  }

  lemma AcceptFrame(h: HState, req: Request, now: nat)
    ensures
      var h' := InjectInbound(h, req, now);
      && h'.outbound == h.outbound && h'.outboundDelay == h.outboundDelay && h'.nextOut == h.nextOut
      && h'.dialNegotiated == h.dialNegotiated && h'.ioRetries == h.ioRetries && h'.dialQueue == h.dialQueue
  {
    hide UpdateKeepAlive;
  }

  lemma NegotiateFrame(h: HState, d: Dial, now: nat)
    requires h.dialNegotiated > 0
    ensures
      var h' := InjectOutbound(h, d, now);
      && h'.inbound == h.inbound && h'.nextIn == h.nextIn
      && h'.dialNegotiated == h.dialNegotiated - 1 && h'.ioRetries == h.ioRetries && h'.dialQueue == h.dialQueue
  {
    hide UpdateKeepAlive;
  }

  lemma DialErrorFrame(h: HState, d: Dial, e: DialError, now: nat)
    requires h.dialNegotiated > 0
    ensures
      var h' := InjectDialError(h, d, e, now);
      && SameStreams(h, h')
      && (if Retries(h, e) then h'.dialNegotiated == h.dialNegotiated && h'.ioRetries == h.ioRetries + 1
          else h'.dialNegotiated == h.dialNegotiated - 1 && h'.ioRetries == 0)
      && forall d' <- h'.dialQueue :: d' in h.dialQueue || d' == d
  {
    hide UpdateKeepAlive, SendRequest;
    if Retries(h, e) { SendRequestFrame(h.(ioRetries := h.ioRetries + 1), d, now); }
  }

  lemma StepFrame(w: World, step: Step)
    requires Enabled(w, step) && !step.DoPoll?
    ensures
      var h, h' := w.h, Next(w, step).h;
      && (!step.DoResponse? && !step.Accept? ==> h'.inbound == h.inbound && h'.nextIn == h.nextIn)
      && (!step.Negotiate? ==>
            h'.outbound == h.outbound && h'.outboundDelay == h.outboundDelay && h'.nextOut == h.nextOut)
      && (!step.FailDial? ==> h'.ioRetries == h.ioRetries)
      && (!step.FailDial? && !step.Negotiate? ==> h'.dialNegotiated == h.dialNegotiated)
      && forall d <- h'.dialQueue ::
          || d in h.dialQueue || (step.DoRequest? && d == step.dial)
          || (step.DoShutdown? && step.final == Some(d)) || (step.FailDial? && d == w.inflight[step.i])
  {
    hide Shutdown, SendRequest, SendResponse, InjectInbound, InjectOutbound, InjectDialError, Answer, Born;
    match step
    case DoShutdown(final, now) => ShutdownFrame(w.h, final, now);
    case DoRequest(d, now) => SendRequestFrame(w.h, d, now);
    case DoResponse(sid, r) => RespondSide(w.h, sid, r);
    case Accept(req, now) => AcceptFrame(w.h, req, now);
    case Negotiate(i, now) => NegotiateFrame(w.h, w.inflight[i], now);
    case FailDial(i, e, now) => DialErrorFrame(w.h, w.inflight[i], e, now);
  }

  /* ---- each step keeps it: the handler ---- */

  lemma StepInv(w: World, step: Step)
    requires Enabled(w, step) && Inv(w.h)
    ensures Next(w, step).closed || Inv(Next(w, step).h)
    ensures Clean(Next(w, step).h)
  {
    if step.DoPoll? { PollClean(w.h, step.env); }
    StepKeepsInv(w, step);
    var w' := Next(w, step);
    if !w'.closed { InvClean(w'.h); }
    hide Inv, Clean, Poll, Shutdown, SendRequest, SendResponse, InjectInbound, InjectOutbound, InjectDialError;
  }

  lemma StepKeepsInv(w: World, step: Step)
    requires Enabled(w, step) && Inv(w.h)
    ensures Next(w, step).closed || Inv(Next(w, step).h)
  {
    match step
    case DoShutdown(final, now) => ShutdownInv(w.h, final, now);
    case DoRequest(d, now) => SendRequestInv(w.h, d, now);
    case DoResponse(sid, r) => SendResponseInv(w.h, sid, r);
    case Accept(req, now) => InjectInboundInv(w.h, req, now);
    case Negotiate(i, now) => InjectOutboundInv(w.h, w.inflight[i], now);
    case FailDial(i, e, now) => InjectDialErrorInv(w.h, w.inflight[i], e, now);
    case DoPoll(env) => PollInv(w.h, env);
  }

  /* ---- each step keeps it: the requests ---- */

  lemma {:induction false} DialRemove(s: seq<Dial>, i: nat, x: RequestId)
    requires i < |s|
    ensures DialCount(s, x) == DialCount(Without(s, i), x) + One(s[i].id == x)
  {
    if i == |s| - 1 {
      assert Without(s, i) == s[..|s| - 1];
    } else {
      DialRemove(s[..|s| - 1], i, x);
      assert Without(s, i)[..|s| - 2] == Without(s[..|s| - 1], i);
    }
  }

  /** What a step other than poll adds to the handler's load. */
  function Gain(w: World, step: Step, x: RequestId): nat
    requires Enabled(w, step)
  {
    match step
    case DoShutdown(final, _) => One(w.h.state.Active? && final.Some? && final.value.id == x)
    case DoRequest(d, _) => One(d.id == x)
    case Negotiate(i, _) =>
      One(w.inflight[i].id == x && (w.h.state.Deactivated? || w.inflight[i].req.expected > 0))
    case FailDial(i, _, _) => One(w.inflight[i].id == x)
    case _ => 0
  }

  lemma StepGains(w: World, step: Step, x: RequestId)
    requires Enabled(w, step) && Inv(w.h) && !step.DoPoll?
    ensures Gains(w.h, Next(w, step).h, x, Gain(w, step, x))
  {
    assert w.h.nextOut !in w.h.outbound;
    hide Gains, Inv, Shutdown, SendRequest, SendResponse, InjectInbound, InjectOutbound, InjectDialError;
    match step
    case DoShutdown(final, now) => ShutdownGains(w.h, final, now, x);
    case DoRequest(d, now) => SendRequestGains(w.h, d, now, x);
    case DoResponse(sid, r) => SendResponseGains(w.h, sid, r, x);
    case Accept(req, now) => InjectInboundGains(w.h, req, now, x);
    case Negotiate(i, now) => InjectOutboundGains(w.h, w.inflight[i], now, x);
    case FailDial(i, e, now) => InjectDialErrorGains(w.h, w.inflight[i], e, now, x);
  }

  lemma StepMoves(w: World, step: Step, x: RequestId)
    requires Enabled(w, step) && !step.DoPoll?
    ensures
      var w' := Next(w, step);
      && w'.hist.submitted[x] + DialCount(w.inflight, x) + w.hist.silent[x]
         == w.hist.submitted[x] + DialCount(w'.inflight, x) + w'.hist.silent[x] + Gain(w, step, x)
      && w'.hist.finished == w.hist.finished && w'.hist.late == w.hist.late
  {
    match step
    case Negotiate(i, now) => NegotiateMoves(w, i, now, x);
    case FailDial(i, e, now) => FailDialMoves(w, i, e, now, x);
    case _ =>
      hide DialCount, SendRequest, Shutdown, SendResponse, InjectInbound, InjectOutbound, InjectDialError;
      hide Answer, Born, Retries;
  }

  lemma NegotiateMoves(w: World, i: nat, now: nat, x: RequestId)
    requires Enabled(w, Negotiate(i, now))
    ensures
      var w' := Next(w, Negotiate(i, now));
      && w'.hist.submitted[x] + DialCount(w.inflight, x) + w.hist.silent[x]
         == w.hist.submitted[x] + DialCount(w'.inflight, x) + w'.hist.silent[x] + Gain(w, Negotiate(i, now), x)
      && w'.hist.finished == w.hist.finished && w'.hist.late == w.hist.late
  {
    hide DialCount, InjectOutbound, Without;
    DialRemove(w.inflight, i, x);
  }

  lemma FailDialMoves(w: World, i: nat, e: DialError, now: nat, x: RequestId)
    requires Enabled(w, FailDial(i, e, now))
    ensures
      var w' := Next(w, FailDial(i, e, now));
      && w'.hist.submitted[x] + DialCount(w.inflight, x) + w.hist.silent[x]
         == w.hist.submitted[x] + DialCount(w'.inflight, x) + w'.hist.silent[x] + Gain(w, FailDial(i, e, now), x)
      && w'.hist.finished == w.hist.finished && w'.hist.late == w.hist.late
  {
    hide DialCount, InjectDialError, Without, Retries;
    DialRemove(w.inflight, i, x);
  }

  lemma StepAccounted(w: World, step: Step, x: RequestId)
    requires Enabled(w, step) && Inv(w.h) && AccountedAt(w, x) && LateAfterFinalAt(w, x)
    ensures AccountedAt(Next(w, step), x) && LateAfterFinalAt(Next(w, step), x)
  {
    hide Next, DialCount, ErrCount, StreamCount, Inv;
    if step.DoPoll? {
      PollAccounted(w, step.env, x);
    } else {
      StepGains(w, step, x);
      StepMoves(w, step, x);
    }
  }

  lemma PollAccounted(w: World, env: PollEnv, x: RequestId)
    requires !w.closed && Inv(w.h) && AccountedAt(w, x) && LateAfterFinalAt(w, x)
    ensures AccountedAt(Next(w, DoPoll(env)), x) && LateAfterFinalAt(Next(w, DoPoll(env)), x)
  {
    hide Poll, Inv, Balanced;
    PollBalanced(w.h, env, x);
    LateHasNoErrors(w.h, env, x);
    BalancedAccounts(w, env, x);
    BalancedLate(w, env, x);
    hide Next, AccountedAt, LateAfterFinalAt;
  }

  lemma BalancedAccounts(w: World, env: PollEnv, x: RequestId)
    requires !w.closed && AccountedAt(w, x)
    requires var p := Poll(w.h, env); Balanced(w.h, p.h, Some(p.result), p.report, x)
    ensures AccountedAt(Next(w, DoPoll(env)), x)
  {
    hide DialCount, ErrCount, StreamCount, Poll, LivesAfter;
    var p := Poll(w.h, env);
    if p.result.OutboundSubstreamRequest? { DialAppend(w.inflight, p.result.dial, x); }
  }

  lemma BalancedLate(w: World, env: PollEnv, x: RequestId)
    requires !w.closed && LateAfterFinalAt(w, x)
    requires
      var p := Poll(w.h, env);
      Balanced(w.h, p.h, Some(p.result), p.report, x) && (p.report.Late? ==> ErrCount(p.h.pendingErrors, x) == 0)
    ensures LateAfterFinalAt(Next(w, DoPoll(env)), x)
  {
    hide DialCount, ErrCount, StreamCount, Poll, LivesAfter;
  }

  /** A late timeout is reported only when no error waits to be reported, and every error queued
      in the same poll is about an inbound stream. */
  lemma LateHasNoErrors(h: HState, env: PollEnv, x: RequestId)
    requires Inv(h)
    ensures var p := Poll(h, env); p.report.Late? ==> ErrCount(p.h.pendingErrors, x) == 0
  {
    if h.pendingErrors == [] && h.eventsOut == [] {
      var h1 := CheckShutdown(h, env.now);
      CheckShutdownInv(h, env.now);
      FireInboundsUntouched(h1, env.inboundExpired, x);
      FireInboundsInv(h1, env.inboundExpired);
      var h2 := FireInbounds(h1, env.inboundExpired);
      FireOutboundsInv(h2, env.outboundExpired, env.now);
      FireOutboundsErrors(h2, env.outboundExpired, env.now);
      PollStreamsEvolve(FireOutbounds(h2, env.outboundExpired, env.now).h, env);
      hide Inv, FireInbounds, FireOutbounds, PollStreams, Evolves;
    }
  }

  /* ---- each step keeps it: the dials ---- */

  lemma StepDialsOk(w: World, step: Step)
    requires Enabled(w, step) && Inv(w.h) && DialsOk(w)
    ensures DialsOk(Next(w, step))
  {
    hide Poll, Shutdown, SendRequest, SendResponse, InjectInbound, InjectOutbound, InjectDialError, Answer, Inv;
    InvRetry(w.h);
    if step.DoPoll? {
      PollDials(w.h, step.env);
    } else {
      StepFrame(w, step);
      if step.Negotiate? { NegotiateFrame(w.h, w.inflight[step.i], step.now); }
      if step.FailDial? { DialErrorFrame(w.h, w.inflight[step.i], step.e, step.now); }
    }
  }

  /* ---- each step keeps it: the inbound streams ---- */

  /** Streams that exist only move towards their end, and messages come from where they should. */
  ghost predicate Settles(w: World, w': World) {
    && MessagesFrom(w'.h.inbound, w'.hist.answers)
    && w'.h.nextIn >= w.h.nextIn
    && (forall s: SubstreamId | s < w.h.nextIn :: RankAt(w'.h.inbound, s) <= RankAt(w.h.inbound, s))
    && (forall s <- w'.h.inbound :: s < w'.h.nextIn)
    && (forall s <- w'.hist.answers :: s < w'.h.nextIn)
    && (forall s <- w.hist.answers :: s in w'.hist.answers && w'.hist.answers[s] == w.hist.answers[s])
  }

  lemma StepSettles(w: World, step: Step)
    requires Enabled(w, step) && Inv(w.h) && SendsSettled(w)
    ensures Settles(w, Next(w, step))
  {
    hide Inv, MessagesFrom, Rank;
    match step
    case DoResponse(sid, r) => ResponseSettles(w, sid, r);
    case DoPoll(env) => PollSettles(w, env);
    case Accept(req, now) => AcceptSettles(w, req, now);
    case _ =>
      OutboundStepsLeaveInbound(w, step);
      hide Next;
  }

  lemma OutboundStepsLeaveInbound(w: World, step: Step)
    requires Enabled(w, step) && !step.DoResponse? && !step.DoPoll? && !step.Accept?
    ensures
      var w' := Next(w, step);
      w'.h.inbound == w.h.inbound && w'.hist.answers == w.hist.answers && w'.h.nextIn == w.h.nextIn
  {
    StepFrame(w, step);
    hide Shutdown, SendRequest, InjectOutbound, InjectDialError;
  }

  lemma ResponseSettles(w: World, sid: SubstreamId, r: RPCCodedResponse)
    requires !w.closed && Inv(w.h) && SendsSettled(w)
    ensures Settles(w, Next(w, DoResponse(sid, r)))
  {
    hide SendResponse, Rank, Inv;
    SendResponseSinks(w.h, sid, r, w.hist.answers);
  }

  lemma PollSettles(w: World, env: PollEnv)
    requires !w.closed && Inv(w.h) && SendsSettled(w)
    ensures Settles(w, Next(w, DoPoll(env)))
  {
    hide Poll, Inv, MessagesFrom;
    PollInbound(w.h, env, w.hist.answers);
    var p := Poll(w.h, env);
    assert forall s <- p.h.inbound :: RankAt(p.h.inbound, s) <= RankAt(w.h.inbound, s);
  }

  lemma AcceptSettles(w: World, req: Request, now: nat)
    requires !w.closed && Inv(w.h) && SendsSettled(w)
    ensures Settles(w, Next(w, Accept(req, now)))
  {
    hide UpdateKeepAlive, Rank, Inv;
    assert w.h.nextIn !in w.hist.answers;
  }

  lemma StepSends(w: World, step: Step)
    requires Enabled(w, step) && Inv(w.h) && SendsSettled(w)
    ensures SendsSettled(Next(w, step))
  {
    StepSettles(w, step);
    if step.DoPoll? {
      PollInbound(w.h, step.env, w.hist.answers);
      SendsConcat(w, step.env);
    } else {
      assert Next(w, step).hist.sends == w.hist.sends by { hide UpdateKeepAlive; }
      hide Next, Rank, Inv;
    }
  }

  lemma SendsConcat(w: World, env: PollEnv)
    requires !w.closed && SendsSettled(w)
    requires InboundPolled(w.h, Poll(w.h, env), w.hist.answers)
    requires Settles(w, Next(w, DoPoll(env)))
    ensures SendsSettled(Next(w, DoPoll(env)))
  {
    hide Poll, Rank, MessagesFrom;
    var p, w' := Poll(w.h, env), Next(w, DoPoll(env));
    forall i | 0 <= i < |w'.hist.sends|
      ensures w'.hist.sends[i].sid < w'.h.nextIn && RankAt(w'.h.inbound, w'.hist.sends[i].sid) <= 2
      ensures Expected(w'.hist.sends[i].sid, w'.hist.sends[i].message, w'.hist.answers)
    {
      if i >= |w.hist.sends| {
        var send := p.sends[i - |w.hist.sends|];
        assert w'.hist.sends[i] == send && send.sid in w.h.inbound;
      } else {
        assert w'.hist.sends[i] == w.hist.sends[i];
      }
    }
  }

  /* ---- each step keeps it: the outbound streams ---- */

  lemma PollLifeAt(w: World, env: PollEnv, s: SubstreamId)
    requires !w.closed && Inv(w.h) && LivesOk(w) && s in Poll(w.h, env).h.outbound
    ensures
      var w' := Next(w, DoPoll(env));
      s in w'.hist.lives && LifeOf(w'.h, s, w'.hist.lives[s])
  {
    hide Poll, Inv;
    PollEvolves(w.h, env);
    var p := Poll(w.h, env);
    assert EvolvesAt(w.h, p.h, s, p.report, env.now);
    assert LifeOf(w.h, s, w.hist.lives[s]);
    InvOutboundOk(w.h, s);
  }

  lemma PollLifeBounds(w: World, env: PollEnv, s: SubstreamId)
    requires !w.closed && Inv(w.h) && LivesOk(w) && s in w.hist.lives
    ensures
      var w' := Next(w, DoPoll(env));
      s in w'.hist.lives && LifeBounds(w'.h, s, w'.hist.lives[s])
  {
    hide Poll, Inv;
    PollEvolves(w.h, env);
    assert LifeBounds(w.h, s, w.hist.lives[s]);
    if s in w.h.outbound {
      InvOutboundOk(w.h, s);
      assert LifeOf(w.h, s, w.hist.lives[s]);
    }
    var p := Poll(w.h, env);
    if p.report.Chunk? && p.report.sid == s { assert EvolvesAt(w.h, p.h, s, p.report, env.now); }
  }

  lemma PollLives(w: World, env: PollEnv)
    requires !w.closed && Inv(w.h) && LivesOk(w)
    ensures LivesOk(Next(w, DoPoll(env)))
  {
    hide Poll, Inv, LifeOf, LifeBounds, LifeAfter;
    var w' := Next(w, DoPoll(env));
    forall s <- w'.h.outbound ensures s in w'.hist.lives && LifeOf(w'.h, s, w'.hist.lives[s]) {
      PollLifeAt(w, env, s);
    }
    forall s <- w'.hist.lives ensures LifeBounds(w'.h, s, w'.hist.lives[s]) {
      PollLifeBounds(w, env, s);
    }
  }

  lemma StepLives(w: World, step: Step)
    requires Enabled(w, step) && Inv(w.h) && LivesOk(w)
    ensures LivesOk(Next(w, step))
  {
    if step.DoPoll? {
      PollLives(w, step.env);
    } else if step.Negotiate? {
      NegotiateLives(w, step.i, step.now);
    } else {
      StepOutbound(w, step);
      hide Next, Inv;
    }
  }

  lemma StepOutbound(w: World, step: Step)
    requires Enabled(w, step) && !step.DoPoll? && !step.Negotiate?
    ensures
      var w' := Next(w, step);
      && w'.h.outbound == w.h.outbound && w'.h.outboundDelay == w.h.outboundDelay && w'.h.nextOut == w.h.nextOut
      && w'.hist.lives == w.hist.lives
  {
    hide Shutdown, SendRequest, SendResponse, InjectInbound, InjectDialError, Answer;
    StepFrame(w, step);
  }

  lemma NegotiateLives(w: World, i: nat, now: nat)
    requires Enabled(w, Negotiate(i, now)) && Inv(w.h) && LivesOk(w)
    ensures LivesOk(Next(w, Negotiate(i, now)))
  {
    hide UpdateKeepAlive, LifeOf, Inv;
    var w' := Next(w, Negotiate(i, now));
    forall s <- w'.h.outbound ensures s in w'.hist.lives && LifeOf(w'.h, s, w'.hist.lives[s]) {
      NegotiateLifeAt(w, i, now, s);
    }
  }

  lemma BornAt(h: HState, d: Dial, now: nat, s: SubstreamId)
    requires h.dialNegotiated > 0 && s in InjectOutbound(h, d, now).outbound
    ensures
      var h' := InjectOutbound(h, d, now);
      var info := h'.outbound[s];
      if s == h.nextOut && !h.state.Deactivated? && d.req.expected > 0 then
        && info == OutboundInfo(PendingResponse(d.req), h.outboundDelay.NewKey(), d.req.body.Proto(),
                                if d.req.expected > 1 then Some(d.req.expected) else None, d.id)
        && h'.outboundDelay == h.outboundDelay.Insert(h.nextOut, now + RESPONSE_TIMEOUT)
      else
        && s in h.outbound && info == h.outbound[s]
        && (info.key in h.outboundDelay.items ==>
              info.key in h'.outboundDelay.items && h'.outboundDelay.items[info.key] == h.outboundDelay.items[info.key])
  {
    hide UpdateKeepAlive;
  }

  lemma NegotiateLifeAt(w: World, i: nat, now: nat, s: SubstreamId)
    requires Enabled(w, Negotiate(i, now)) && Inv(w.h) && LivesOk(w) && s in Next(w, Negotiate(i, now)).h.outbound
    ensures
      var w' := Next(w, Negotiate(i, now));
      s in w'.hist.lives && LifeOf(w'.h, s, w'.hist.lives[s])
  {
    hide UpdateKeepAlive, Inv;
    InvNextOut(w.h);
    BornAt(w.h, w.inflight[i], now, s);
    hide InjectOutbound;
    if s in w.h.outbound {
      InvOutboundOk(w.h, s);
      assert LifeOf(w.h, s, w.hist.lives[s]);
    }
  }

  /* ---- runs ---- */

  lemma StepWorldInv(w: World, step: Step)
    requires Enabled(w, step) && WorldInv(w)
    ensures WorldInv(Next(w, step))
  {
    StepInv(w, step);
    StepDialsOk(w, step);
    StepSends(w, step);
    StepLives(w, step);
    forall x: RequestId ensures AccountedAt(Next(w, step), x) && LateAfterFinalAt(Next(w, step), x) {
      StepAccounted(w, step, x);
    }
    hide Next, Inv, Clean, AccountedAt, LateAfterFinalAt, DialsOk, SendsSettled, LivesOk;
  }

  /** Whatever the application, the peer, the timers and the connection do, in any order. */
  lemma {:induction false} RunInv(w: World, steps: seq<Step>)
    requires WorldInv(w) && Legal(w, steps)
    ensures WorldInv(Run(w, steps))
    decreases |steps|
  {
    hide WorldInv, Next;
    if steps != [] {
      StepWorldInv(w, steps[0]);
      RunInv(Next(w, steps[0]), steps[1..]);
    }
  }
}
