/** Runs that show that what the theorems about the handler allow does happen. */
module HandlerWitnesses {
  import opened Methods
  import opened Protocols
  import opened DelayQueues
  import opened HandlerModel
  import opened HandlerInvariant
  import opened HandlerAccounting
  import opened HandlerReports
  import opened HandlerOutcomes
  import opened HandlerRuns
  import opened HandlerTheorems
  import opened HandlerDelivery
  import opened HandlerKeepAlive

  /** A poll at time 0 in which no timer expires and nothing is ready. */
  function Quiet(): PollEnv {
    PollEnv(0, [], false, [], false,
            [], (s: SubstreamId, i: nat) => InboundIo(Pending, false, Pending, Pending),
            [], (s: SubstreamId) => OutboundIo(NotReady, false))
  }

  lemma QuietPoll(h: HState)
    requires h.pendingErrors == [] && h.eventsOut == [] && h.state.Active?
    ensures Poll(h, Quiet()) == PollOut(Establish(h, 0).h, Establish(h, 0).result.value, NoReport, [])
  {
  }

  /* ---- dials that fail with IO errors ---- */

  /** The request that is dialed in these runs. */
  const BYE: Dial := Dial(Behaviour, OfBody(GoodbyeRequest([])))

  /** A handler that has used `n` slots and retried `r` times in a row. */
  function Dialing(n: nat, r: nat, queue: seq<Dial>): HState {
    NewHandler(30).(dialNegotiated := n, ioRetries := r, dialQueue := queue)
  }

  const IO_FAILURE: DialError := Apply(IoError(""))

  lemma DialOnce(n: nat, r: nat)
    requires n < 8
    ensures
      Establish(Dialing(n, r, [BYE]), 0)
      == Stage(Dialing(n + 1, r, []), Some(OutboundSubstreamRequest(BYE)), NoReport)
  {
  }

  function ByeFailed(): HandlerErr { OutboundErr(BYE.id, BYE.req.body.Proto(), IoError("")) }

  lemma FailOnce(n: nat, r: nat)
    requires n > 0
    ensures Dialing(n, r, []).dialNegotiated == n
    ensures Retries(Dialing(n, r, []), IO_FAILURE) <==> r < 2
    ensures r < 2 ==> InjectDialError(Dialing(n, r, []), BYE, IO_FAILURE, 0) == Dialing(n, r + 1, [BYE])
    ensures r == 2 && n > 1 ==>
      InjectDialError(Dialing(n, r, []), BYE, IO_FAILURE, 0)
      == Dialing(n - 1, 0, []).(pendingErrors := [ByeFailed()])
  {
  }

  /** A world between two dials, with as many slots gone as retries were made. */
  ghost predicate Between(w: World, r: nat, queue: seq<Dial>) {
    && Reachable(w) && !w.closed && w.inflight == []
    && w.h == Dialing(w.hist.retried, r, queue)
  }

  /** The queued request is dialed. */
  lemma Dialed(w: World, r: nat) returns (w': World)
    requires Between(w, r, [BYE]) && w.hist.retried < 8
    ensures Reachable(w') && !w'.closed && w'.inflight == [BYE] && w'.hist.retried == w.hist.retried
    ensures w'.h == Dialing(w.hist.retried + 1, r, [])
  {
    QuietPoll(w.h);
    DialOnce(w.hist.retried, r);
    hide Reachable, Poll, Establish, Quiet;
    ReachableStep(w, DoPoll(Quiet()));
    w' := Next(w, DoPoll(Quiet()));
  }

  lemma Retry(w: World, r: nat) returns (w': World)
    requires Between(w, r, [BYE]) && w.hist.retried < 8 && r < 2
    ensures Between(w', r + 1, [BYE]) && w'.hist.retried == w.hist.retried + 1
  {
    var w1 := Dialed(w, r);
    FailOnce(w.hist.retried + 1, r);
    hide Reachable, InjectDialError, Dialing, Retries;
    ReachableStep(w1, FailDial(0, IO_FAILURE, 0));
    w' := Next(w1, FailDial(0, IO_FAILURE, 0));
  }

  /** The third failure in a row is reported, and the count of retries starts again. */
  lemma GiveUp(w: World) returns (w': World)
    requires Between(w, 2, [BYE]) && 0 < w.hist.retried < 8
    ensures Between(w', 0, []) && w'.hist.retried == w.hist.retried
  {
    var w1 := Dialed(w, 2);
    FailOnce(w.hist.retried + 1, 2);
    hide Reachable, InjectDialError, Retries;
    ReachableStep(w1, FailDial(0, IO_FAILURE, 0));
    var w2 := Next(w1, FailDial(0, IO_FAILURE, 0));
    assert w2.inflight == [];
    hide PollTimers;
    ReachableStep(w2, DoPoll(Quiet()));
    w' := Next(w2, DoPoll(Quiet()));
    assert w'.h.pendingErrors == [];
  }

  lemma Submitted(w: World) returns (w': World)
    requires Between(w, 0, [])
    ensures Between(w', 0, [BYE]) && w'.hist.retried == w.hist.retried
  {
    hide Reachable;
    ReachableStep(w, DoRequest(BYE, 0));
    w' := Next(w, DoRequest(BYE, 0));
    assert [] + [BYE] == [BYE];
  }

  lemma Round(w: World) returns (w': World)
    requires Between(w, 0, []) && w.hist.retried < 6
    ensures Between(w', 0, []) && w'.hist.retried == w.hist.retried + 2
  {
    hide Between;
    w' := Submitted(w);
    w' := Retry(w', 0);
    w' := Retry(w', 1);
    w' := GiveUp(w');
  }

  lemma Begin() returns (w: World)
    ensures Between(w, 0, []) && w.hist.retried == 0
  {
    w := Start(30);
    StartReachable(30);
    hide Reachable;
  }

  /** Four requests whose dials fail with IO errors use up all slots: the fourth stays in the queue
      for good. */
  lemma EightRetriesHappen() returns (w: World)
    ensures Reachable(w) && !w.closed && w.hist.retried == 8 && w.h.dialQueue == [BYE]
  {
    w := Begin();
    w := Round(w);
    w := Round(w);
    w := Round(w);
    w := Submitted(w);
    w := Retry(w, 0);
    w := Retry(w, 1);
    hide Reachable;
  }

  /** One IO error during the dial of a goodbye, which then succeeds, and nothing is left to do for
      the handler, which keeps its connection alive. */
  lemma OneRetryKeepsTheConnection() returns (w: World)
    ensures Reachable(w) && !w.closed && NothingToDo(w) && w.hist.retried == 1 && w.h.keepAlive == Yes
  {
    w := Begin();
    w := Submitted(w);
    w := Retry(w, 0);
    w := Dialed(w, 1);
    ByeNegotiated();
    hide Reachable, InjectOutbound;
    ReachableStep(w, Negotiate(0, 0));
    w := Next(w, Negotiate(0, 0));
  }

  lemma ByeNegotiated()
    ensures InjectOutbound(Dialing(2, 1, []), BYE, 0) == Dialing(1, 1, [])
  {
  }

  /* ---- idle handlers that never retried ---- */

  /** The peer says goodbye: the decision is made while the event is queued, and not again when it
      is handed out. */
  lemma GoodbyeKeepsTheConnection() returns (w: World)
    ensures Reachable(w) && !w.closed && NothingToDo(w) && w.hist.retried == 0 && w.h.keepAlive == Yes
  {
    StartReachable(30);
    var goodbye := Accept(BYE.req, 0);
    hide Reachable;
    ReachableStep(Start(30), goodbye);
    w := EventTaken(Next(Start(30), goodbye), NewHandler(30).(nextIn := 1));
  }

  const STATUS: Request := OfBody(StatusRequest([]))

  /** The peer asks for a status, and the timer of its stream expires when the sink is ready for
      everything. `k` is the key of that timer. */
  function Expiry(k: Key): PollEnv {
    PollEnv(10, [k], false, [], false,
            [0], (s: SubstreamId, i: nat) => InboundIo(Ready, true, Ready, Ready),
            [], (s: SubstreamId) => OutboundIo(NotReady, false))
  }

  function Asked(k: Key): HState {
    NewHandler(30).(
      nextIn := 1,
      inbound := map[0 := InboundInfo(Idle, Some(k), StatusProtocol)],
      inboundDelay := DelayQueue(map[k := Timer(0, RESPONSE_TIMEOUT)]))
  }

  function TimedOutErr(): HandlerErr { InboundErr(0, StatusProtocol, StreamTimeout) }

  /** The handler while the timeout error is on its way through the stream. */
  function Sending(s: InboundState): HState {
    NewHandler(30).(
      nextIn := 1, pendingErrors := [TimedOutErr()], queued := map[0 := []],
      inbound := map[0 := InboundInfo(s, None, StatusProtocol)])
  }

  lemma AskedByPeer() returns (k: Key)
    ensures Asked(k).pendingErrors == [] && Asked(k).eventsOut == []
    ensures
      InjectInbound(NewHandler(30), STATUS, 0) == Asked(k).(eventsOut := [ReceivedRequest(0, STATUS)])
  {
    k := NewHandler(30).inboundDelay.NewKey();
  }

  lemma StreamExpires(k: Key)
    ensures FireInbounds(Asked(k), [k]) == Sending(PendingSend(ServerError(TIMED_OUT), true))
  {
    var h := Asked(k);
    assert h.inboundDelay.Remove(k) == EmptyQueue();
    assert h.inbound[0 := InboundInfo(PendingSend(ServerError(TIMED_OUT), true), None, StatusProtocol)]
        == map[0 := InboundInfo(PendingSend(ServerError(TIMED_OUT), true), None, StatusProtocol)];
    assert FireInbound(h, k) == Sending(PendingSend(ServerError(TIMED_OUT), true));
    assert [k][1..] == [];
  }

  lemma StreamEnds(io: (SubstreamId, nat) -> InboundIo)
    requires forall i: nat :: io(0, i) == InboundIo(Ready, true, Ready, Ready)
    ensures
      var d := DriveStream(Sending(PendingSend(ServerError(TIMED_OUT), true)), 0, io, 0, 10);
      && d.h == NewHandler(30).(nextIn := 1, pendingErrors := [TimedOutErr()])
      && d.close == None
  {
    var ready := InboundIo(Ready, true, Ready, Ready);
    var h0, h1, h2 := Sending(PendingSend(ServerError(TIMED_OUT), true)), Sending(PendingFlush(true)), Sending(Closing);
    assert DriveOnce(h0, 0, ready, 10).h == h1;
    assert DriveOnce(h1, 0, ready, 10).h == h2;
    assert h2.inbound - {0} == map[] && h2.queued - {0} == map[];
    assert DriveOnce(h2, 0, ready, 10).h == NewHandler(30).(nextIn := 1, pendingErrors := [TimedOutErr()]);
    assert DriveStream(h2, 0, io, 2, 10).h == NewHandler(30).(nextIn := 1, pendingErrors := [TimedOutErr()]);
    hide UpdateKeepAlive;
  }

  lemma ExpiryPoll(k: Key)
    ensures
      var p := Poll(Asked(k), Expiry(k));
      && p.h == NewHandler(30).(nextIn := 1, pendingErrors := [TimedOutErr()])
      && p.result == PollPending && p.report == NoReport
  {
    StreamExpires(k);
    var h := Sending(PendingSend(ServerError(TIMED_OUT), true));
    StreamEnds(Expiry(k).inboundIo);
    var d := DriveStream(h, 0, Expiry(k).inboundIo, 0, 10);
    hide DriveStream, FireInbounds;
    assert [0][1..] == [];
    assert DriveStreams(d.h, [], Expiry(k).inboundIo, 10) == Drive(d.h, false, None, []);
    assert DriveStreams(h, [0], Expiry(k).inboundIo, 10).h == d.h;
  }

  /** A stream of the peer times out, is told so and closes, all in one poll: the decision is made
      while the error about it is queued, and not again when it is handed out. */
  lemma TimeoutKeepsTheConnection() returns (w: World)
    ensures Reachable(w) && !w.closed && NothingToDo(w) && w.hist.retried == 0 && w.h.keepAlive == Yes
  {
    var k;
    w, k := AskedWorld();
    ExpiryPoll(k);
    hide Reachable, Poll, Expiry, Quiet, Asked, LivesAfter;
    ReachableStep(w, DoPoll(Expiry(k)));
    w := Next(w, DoPoll(Expiry(k)));
    w := ErrorTaken(w, NewHandler(30).(nextIn := 1));
  }

  lemma AskedWorld() returns (w: World, k: Key)
    ensures Reachable(w) && !w.closed && w.h == Asked(k) && w.inflight == [] && w.hist.retried == 0
  {
    StartReachable(30);
    k := AskedByPeer();
    hide Reachable, InjectInbound, Asked;
    ReachableStep(Start(30), Accept(STATUS, 0));
    w := EventTaken(Next(Start(30), Accept(STATUS, 0)), Asked(k));
  }

  /* ---- an answer on its way ---- */

  const ANSWER: RPCCodedResponse := Success(Status([1]))

  /** A poll in which the sink of stream 0 takes its message and flushes it later. */
  function Taking(): PollEnv {
    PollEnv(1, [], false, [], false,
            [0], (s: SubstreamId, i: nat) => InboundIo(Ready, true, Pending, Pending),
            [], (s: SubstreamId) => OutboundIo(NotReady, false))
  }

  lemma TakingGetsThere(h: HState)
    requires !HandsOut(h) && h.inbound.Keys == {0} && h.inbound[0].state.PendingSend?
    ensures DrivesStreams(h, Taking())
  {
    var states := StatesAfterTimers(h.inbound, []);
    assert [0][1..] == [];
    assert FailureOf(0, states[0], DeadAt(h, 1), Taking().inboundIo) == None;
    assert FirstFailure(states, [], DeadAt(h, 1), Taking().inboundIo) == None;
  }

  lemma AnswerGiven(w: World, k: Key) returns (w': World)
    requires Reachable(w) && !w.closed && w.h == Asked(k)
    ensures Reachable(w') && !w'.closed && AwaitsSend(w', 0, ANSWER)
    ensures !HandsOut(w'.h) && w'.h.state.Active? && w'.h.inbound.Keys == {0}
  {
    hide Reachable;
    ReachableStep(w, DoResponse(0, ANSWER));
    w' := Next(w, DoResponse(0, ANSWER));
  }

  lemma TakingKeepsOpen(w: World)
    requires Reachable(w) && !w.closed && DrivesStreams(w.h, Taking())
    ensures !Next(w, DoPoll(Taking())).closed
  {
    ReachableInv(w);
    NotClosed(w.h, Taking());
    hide Inv, Reachable, Poll, Returned, LivesAfter;
    PollReturns(w.h, Taking());
  }

  /** The peer asks for a status, is answered, and the answer goes out. */
  lemma AnAnswerIsSent() returns (w: World)
    ensures Reachable(w) && !w.closed && Send(0, ANSWER, true) in w.hist.sends
    ensures 0 in w.h.inbound && w.h.inbound[0].state == PendingFlush(true)
  {
    var k;
    w, k := AskedWorld();
    w := AnswerGiven(w, k);
    TakingGetsThere(w.h);
    hide Reachable, Poll, Asked, LivesAfter, DrivesStreams, HandsOut;
    ReadySinkGetsMessage(w, Taking(), 0, ANSWER);
    TakingKeepsOpen(w);
    ReachableStep(w, DoPoll(Taking()));
    w := Next(w, DoPoll(Taking()));
  }

  lemma EventTaken(w: World, h: HState) returns (w': World)
    requires Reachable(w) && !w.closed && h.pendingErrors == [] && h.eventsOut == []
    requires |w.h.eventsOut| == 1 && w.h == h.(eventsOut := w.h.eventsOut)
    ensures Reachable(w') && !w'.closed && w'.h == h && w'.inflight == w.inflight && w'.hist.retried == w.hist.retried
  {
    hide Reachable, PollTimers, LivesAfter;
    ReachableStep(w, DoPoll(Quiet()));
    w' := Next(w, DoPoll(Quiet()));
    assert w'.h.eventsOut == [];
  }

  lemma ErrorTaken(w: World, h: HState) returns (w': World)
    requires Reachable(w) && !w.closed && h.pendingErrors == []
    requires |w.h.pendingErrors| == 1 && w.h == h.(pendingErrors := w.h.pendingErrors)
    ensures Reachable(w') && !w'.closed && w'.h == h && w'.inflight == w.inflight && w'.hist.retried == w.hist.retried
  {
    hide Reachable, PollTimers, LivesAfter;
    ReachableStep(w, DoPoll(Quiet()));
    w' := Next(w, DoPoll(Quiet()));
    assert w'.h.pendingErrors == [];
  }

  /* ---- a timeout after the last report ---- */

  const PING: Dial := Dial(Behaviour, OfBody(PingRequest([])))

  function Pinged(k: Key, s: OutboundState): HState {
    NewHandler(30).(
      nextOut := 1,
      outbound := map[0 := OutboundInfo(s, k, PingProtocol, None, Behaviour)],
      outboundDelay := DelayQueue(map[k := Timer(0, RESPONSE_TIMEOUT)]))
  }

  lemma PingDialed() returns (k: Key)
    ensures SendRequest(NewHandler(30), PING, 0) == NewHandler(30).(dialQueue := [PING])
    ensures
      Establish(NewHandler(30).(dialQueue := [PING]), 0)
      == Stage(NewHandler(30).(dialNegotiated := 1), Some(OutboundSubstreamRequest(PING)), NoReport)
    ensures
      InjectOutbound(NewHandler(30).(dialNegotiated := 1), PING, 0) == Pinged(k, PendingResponse(PING.req))
  {
    k := NewHandler(30).outboundDelay.NewKey();
  }

  /** The answer arrives, and the stream cannot be closed yet. */
  function Answered(): PollEnv {
    PollEnv(1, [], false, [], false,
            [], (s: SubstreamId, i: nat) => InboundIo(Pending, false, Pending, Pending),
            [0], (s: SubstreamId) => OutboundIo(Item(Success(Pong([1]))), false))
  }

  lemma PingAnswered(k: Key)
    ensures
      var p := Poll(Pinged(k, PendingResponse(PING.req)), Answered());
      p.h == Pinged(k, OutClosing) && p.result == Custom(Ok(ReceivedResponse(Behaviour, Pong([1]))))
  {
    var h := Pinged(k, PendingResponse(PING.req));
    assert h.outbound[0 := h.outbound[0].(state := OutClosing)] == Pinged(k, OutClosing).outbound;
  }

  /** The timer of an answered request expires before its stream is closed. */
  function TimerOf(k: Key): PollEnv { Quiet().(now := 10, outboundExpired := [k]) }

  /** The application got the answer to its ping, and the next poll tells it that the ping timed out. */
  lemma LateTimeoutHappens() returns (w: World, env: PollEnv)
    ensures Reachable(w) && Enabled(w, DoPoll(env)) && w.hist.finished[Behaviour] == 1
    ensures
      && Poll(w.h, env).report.Late?
      && Poll(w.h, env).result == Custom(Err(OutboundErr(Behaviour, PingProtocol, StreamTimeout)))
  {
    hide Reachable, Poll;
    var k := PingDialed();
    LastTimer(k);
    w := AnsweredPing(k);
    env := TimerOf(k);
  }

  lemma LastTimer(k: Key)
    ensures
      var p := Poll(Pinged(k, OutClosing), TimerOf(k));
      p.report == Late(Behaviour, 0) && p.result == Custom(Err(OutboundErr(Behaviour, PingProtocol, StreamTimeout)))
  {
    var h := Pinged(k, OutClosing);
    assert FirstLive(h.outboundDelay, [k]) == Some(k);
    hide UpdateKeepAlive;
  }

  /** The ping is dialed. */
  lemma PingOnItsWay() returns (w: World)
    requires SendRequest(NewHandler(30), PING, 0) == NewHandler(30).(dialQueue := [PING])
    requires
      Establish(NewHandler(30).(dialQueue := [PING]), 0)
      == Stage(NewHandler(30).(dialNegotiated := 1), Some(OutboundSubstreamRequest(PING)), NoReport)
    ensures Reachable(w) && !w.closed && w.h == NewHandler(30).(dialNegotiated := 1) && w.inflight == [PING]
    ensures w.hist.finished[Behaviour] == 0
  {
    StartReachable(30);
    QuietPoll(NewHandler(30).(dialQueue := [PING]));
    hide Reachable, Poll, Establish, SendRequest, Quiet, LivesAfter;
    ReachableStep(Start(30), DoRequest(PING, 0));
    w := Next(Start(30), DoRequest(PING, 0));
    ReachableStep(w, DoPoll(Quiet()));
    w := Next(w, DoPoll(Quiet()));
  }

  /** Its stream waits for the answer. */
  lemma WaitingPing(k: Key) returns (w: World)
    requires SendRequest(NewHandler(30), PING, 0) == NewHandler(30).(dialQueue := [PING])
    requires
      Establish(NewHandler(30).(dialQueue := [PING]), 0)
      == Stage(NewHandler(30).(dialNegotiated := 1), Some(OutboundSubstreamRequest(PING)), NoReport)
    requires
      InjectOutbound(NewHandler(30).(dialNegotiated := 1), PING, 0) == Pinged(k, PendingResponse(PING.req))
    ensures Reachable(w) && !w.closed && w.h == Pinged(k, PendingResponse(PING.req))
    ensures w.hist.finished[Behaviour] == 0
  {
    hide Reachable, Establish, SendRequest, InjectOutbound, LivesAfter;
    w := PingOnItsWay();
    ReachableStep(w, Negotiate(0, 0));
    w := Next(w, Negotiate(0, 0));
  }

  lemma AnsweredPing(k: Key) returns (w: World)
    requires SendRequest(NewHandler(30), PING, 0) == NewHandler(30).(dialQueue := [PING])
    requires
      Establish(NewHandler(30).(dialQueue := [PING]), 0)
      == Stage(NewHandler(30).(dialNegotiated := 1), Some(OutboundSubstreamRequest(PING)), NoReport)
    requires
      InjectOutbound(NewHandler(30).(dialNegotiated := 1), PING, 0) == Pinged(k, PendingResponse(PING.req))
    ensures Reachable(w) && !w.closed && w.h == Pinged(k, OutClosing) && w.hist.finished[Behaviour] == 1
  {
    PingAnswered(k);
    PollOfAnswer(k);
    hide Reachable, Poll, Establish, SendRequest, InjectOutbound, Answered, LivesAfter;
    w := WaitingPing(k);
    ReachableStep(w, DoPoll(Answered()));
    w := Next(w, DoPoll(Answered()));
  }

  lemma PollOfAnswer(k: Key)
    ensures Poll(Pinged(k, PendingResponse(PING.req)), Answered()).report == Final(Behaviour, Some(0))
  {
  }
}
