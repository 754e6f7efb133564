/** What every method of the RPC protocol handler computes, as functions on the values of
    its fields. The class in `Handler` is proved equal to these, step by step. */
module HandlerModel {
  import opened Methods
  import opened Protocols
  import opened DelayQueues

  /** Seconds before a substream that awaits a response times out. */
  const RESPONSE_TIMEOUT: nat := 10
  /** Outbound upgrades are tried this often in the case of IO errors. */
  const IO_ERROR_RETRIES: nat := 3
  /** Seconds given to the handler to perform shutdown operations. */
  const SHUTDOWN_TIMEOUT_SECS: nat := 15
  /** Maximum number of concurrent outbound substreams being opened. */
  const MAX_DIAL_NEGOTIATED: nat := 8

  type SubstreamId = nat
  type Key = nat

  /** A request as the handler sees it: its body and how many responses it expects. The
      handler works for any number; `OfBody` gives the numbers in use today. */
  datatype Request = Request(body: RPCRequest, expected: nat)

  function OfBody(body: RPCRequest): Request { Request(body, body.ExpectedResponses()) }

  /** An outbound request with the identifier the application gave it. */
  datatype Dial = Dial(id: RequestId, req: Request)

  datatype HandlerErr =
    | InboundErr(sid: SubstreamId, proto: Protocol, error: RPCError)
    | OutboundErr(id: RequestId, proto: Protocol, error: RPCError)

  datatype RPCReceived =
    | ReceivedRequest(sid: SubstreamId, req: Request)
    | ReceivedResponse(id: RequestId, resp: RPCResponse)

  datatype KeepAlive = Yes | Until(deadline: nat) | No

  datatype Lifecycle = Active | ShuttingDown(deadline: nat) | Deactivated

  datatype InboundState =
    | PendingSend(message: RPCCodedResponse, closing: bool)
    | PendingFlush(closing: bool)
    | Idle
    | Closing
    | Poisoned

  datatype InboundInfo = InboundInfo(state: InboundState, key: Option<Key>, proto: Protocol)

  datatype OutboundState = PendingResponse(req: Request) | OutClosing | OutPoisoned

  datatype OutboundInfo =
    OutboundInfo(state: OutboundState, key: Key, proto: Protocol, remaining: Option<nat>, id: RequestId)

  datatype HState = HState(
    pendingErrors: seq<HandlerErr>,
    eventsOut: seq<RPCReceived>,
    dialQueue: seq<Dial>,
    dialNegotiated: nat,
    inbound: map<SubstreamId, InboundInfo>,
    inboundDelay: DelayQueue<SubstreamId>,
    outbound: map<SubstreamId, OutboundInfo>,
    outboundDelay: DelayQueue<SubstreamId>,
    queued: map<SubstreamId, seq<RPCCodedResponse>>,
    nextIn: SubstreamId,
    nextOut: SubstreamId,
    keepAlive: KeepAlive,
    state: Lifecycle,
    inactiveTimeout: nat,
    ioRetries: nat)

  function NewHandler(inactiveTimeout: nat): HState {
    HState([], [], [], 0, map[], EmptyQueue(), map[], EmptyQueue(), map[], 0, 0, Yes, Active,
           inactiveTimeout, 0)
  }

  /* ---- keep-alive, shutdown, requests ---- */

  predicate ShouldShutdown(h: HState) {
    && h.dialQueue == []
    && |h.outbound| == 0
    && |h.inbound| == 0
    && h.pendingErrors == []
    && h.eventsOut == []
    && h.dialNegotiated == 0
  }

  /** Called after most changes; sets nothing else. */
  function UpdateKeepAlive(h: HState, now: nat): (r: HState)
    ensures r == h.(keepAlive := r.keepAlive)
  {
    match h.keepAlive
    case Yes => if ShouldShutdown(h) then h.(keepAlive := Until(now + h.inactiveTimeout)) else h
    case Until(_) => if ShouldShutdown(h) then h else h.(keepAlive := Yes)
    case No => h
  }

  lemma KeepAliveIgnoresRetries(h: HState, n: nat, now: nat)
    ensures UpdateKeepAlive(h.(ioRetries := n), now) == UpdateKeepAlive(h, now).(ioRetries := n)
  {
  }

  function Rejection(d: Dial): HandlerErr { OutboundErr(d.id, d.req.body.Proto(), HandlerRejected) }

  /** The queue is emptied from its end. */
  function Rejections(dials: seq<Dial>): seq<HandlerErr> {
    if dials == [] then []
    else [Rejection(dials[|dials| - 1])] + Rejections(dials[..|dials| - 1])
  }

  function Shutdown(h: HState, final: Option<Dial>, now: nat): HState {
    UpdateKeepAlive(
      if h.state.Active? then
        h.(pendingErrors := h.pendingErrors + Rejections(h.dialQueue),
           dialQueue := if final.Some? then [final.value] else [],
           state := ShuttingDown(now + SHUTDOWN_TIMEOUT_SECS))
      else h,
      now)
  }

  function SendRequest(h: HState, d: Dial, now: nat): HState {
    if h.state.Active? then UpdateKeepAlive(h.(dialQueue := h.dialQueue + [d]), now)
    else h.(pendingErrors := h.pendingErrors + [Rejection(d)])
  }

  /* ---- responses ---- */

  function SetIn(h: HState, sid: SubstreamId, s: InboundState): HState
    requires sid in h.inbound
  {
    h.(inbound := h.inbound[sid := h.inbound[sid].(state := s)])
  }

  function QueueOf(queued: map<SubstreamId, seq<RPCCodedResponse>>, sid: SubstreamId): seq<RPCCodedResponse> {
    if sid in queued then queued[sid] else []
  }

  function PushError(h: HState, e: HandlerErr): HState {
    h.(pendingErrors := h.pendingErrors + [e])
  }

  /** An error response is reported back even when it is not going to be sent. */
  function ReportResponse(h: HState, sid: SubstreamId, r: RPCCodedResponse): HState
    requires sid in h.inbound
  {
    if r.IsError()
    then PushError(h, InboundErr(sid, h.inbound[sid].proto, ErrorResponse(r.CodeOfError().value, r.Payload())))
    else h
  }

  function EnqueueResponse(h: HState, sid: SubstreamId, r: RPCCodedResponse): HState {
    h.(queued := h.queued[sid := QueueOf(h.queued, sid) + [r]])
  }

  /** An idle stream takes the response; a busy one has it queued if more than one may follow, and
      otherwise is told to close, the response being lost. */
  function PlaceResponse(h: HState, sid: SubstreamId, r: RPCCodedResponse): HState
    requires sid in h.inbound
  {
    match h.inbound[sid].state
    case Idle => SetIn(h, sid, PendingSend(r, !r.MultipleResponses() || r.IsError()))
    case PendingSend(m, _) =>
      if r.MultipleResponses() then EnqueueResponse(h, sid, r) else SetIn(h, sid, PendingSend(m, true))
    case PendingFlush(_) =>
      if r.MultipleResponses() then EnqueueResponse(h, sid, r) else SetIn(h, sid, PendingFlush(true))
    case Closing => h
    case Poisoned => h
  }

  function SendResponse(h: HState, sid: SubstreamId, r: RPCCodedResponse): HState {
    if sid !in h.inbound then h
    else
      var h := ReportResponse(h, sid, r);
      if h.state.Deactivated? then h else PlaceResponse(h, sid, r)
  }

  /* ---- negotiated substreams and failed dials ---- */

  function InjectInbound(h: HState, req: Request, now: nat): HState {
    if !h.state.Active? then h
    else
      var h1 :=
        if req.expected > 0 then
          h.(inboundDelay := h.inboundDelay.Insert(h.nextIn, now + RESPONSE_TIMEOUT),
             inbound := h.inbound[h.nextIn := InboundInfo(Idle, Some(h.inboundDelay.NewKey()), req.body.Proto())])
        else h;
      UpdateKeepAlive(
        h1.(eventsOut := h1.eventsOut + [ReceivedRequest(h1.nextIn, req)], nextIn := h1.nextIn + 1), now)
  }

  function InjectOutbound(h: HState, d: Dial, now: nat): HState
    requires h.dialNegotiated > 0
  {
    var h1 := h.(dialNegotiated := h.dialNegotiated - 1);
    if h.state.Deactivated? then PushError(h1, Rejection(d))
    else
      UpdateKeepAlive(
        if d.req.expected > 0 then
          h1.(outboundDelay := h1.outboundDelay.Insert(h1.nextOut, now + RESPONSE_TIMEOUT),
              outbound := h1.outbound[h1.nextOut := OutboundInfo(
                PendingResponse(d.req), h1.outboundDelay.NewKey(), d.req.body.Proto(),
                if d.req.expected > 1 then Some(d.req.expected) else None, d.id)],
              nextOut := h1.nextOut + 1)
        else h1,
        now)
  }

  /** Why the upgrade of an outbound substream failed. */
  datatype DialError =
    | TimerFailed
    | TimedOut
    | Apply(e: RPCError)
    | SelectFailed
    | SelectIo(what: string)
    | InvalidProtocol
    | InvalidMessage
    | TooManyProtocols
  {
    function ToRPCError(): RPCError {
      match this
      case TimerFailed => InternalError("Timer failed")
      case TimedOut => NegotiationTimeout
      case Apply(e) => e
      case SelectFailed => UnsupportedProtocol
      case SelectIo(what) => IoError(what)
      case InvalidProtocol => InternalError("Protocol was deemed invalid")
      case InvalidMessage => InvalidData
      case TooManyProtocols => InvalidData
    }

    predicate IsIo() { Apply? && e.IoError? }
  }

  /** Whether this failure is answered by another attempt, not by a report. */
  predicate Retries(h: HState, e: DialError) { e.IsIo() && h.ioRetries + 1 < IO_ERROR_RETRIES }

  /** A retried dial keeps its `dialNegotiated` slot, and the error report of a final failure is
      queued after the keep-alive was computed. */
  function InjectDialError(h: HState, d: Dial, e: DialError, now: nat): HState
    requires Retries(h, e) || h.dialNegotiated > 0
  {
    if Retries(h, e) then SendRequest(h.(ioRetries := h.ioRetries + 1), d, now)
    else
      var h := UpdateKeepAlive(h.(dialNegotiated := h.dialNegotiated - 1), now);
      PushError(h.(ioRetries := 0), OutboundErr(d.id, d.req.body.Proto(), e.ToRPCError()))
  }

  /* ---- poll: inputs and outputs ---- */

  datatype Io = Ready | Failed(e: RPCError) | Pending

  /** How the substream answers the next write-side calls. */
  datatype InboundIo = InboundIo(ready: Io, sendOk: bool, flush: Io, close: Io)

  datatype NextItem = Item(r: RPCCodedResponse) | ItemErr(e: RPCError) | End | NotReady

  datatype OutboundIo = OutboundIo(next: NextItem, closed: bool)

  /** Everything `poll` learns from the outside: the time, the timers that expired (in order,
      possibly followed by a timer failure), the order in which the hash maps list their
      keys, and what the substreams answer. `inboundIo(sid, i)` is the answer of stream
      `sid` in the i-th turn of its drive loop. */
  datatype PollEnv = PollEnv(
    now: nat,
    inboundExpired: seq<Key>, inboundTimerFails: bool,
    outboundExpired: seq<Key>, outboundTimerFails: bool,
    inboundOrder: seq<SubstreamId>, inboundIo: (SubstreamId, nat) -> InboundIo,
    outboundOrder: seq<SubstreamId>, outboundIo: SubstreamId -> OutboundIo)

  predicate Distinct<T(==)>(s: seq<T>) {
    forall i, j | 0 <= i < j < |s| :: s[i] != s[j]
  }

  /** What the runtime and the hash maps guarantee: expired timers are distinct, live and due,
      and a map lists each of its keys once. */
  ghost predicate EnvOk(h: HState, env: PollEnv) {
    && Distinct(env.inboundExpired) && Distinct(env.outboundExpired)
    && (forall k <- env.inboundExpired ::
          k in h.inboundDelay.items && h.inboundDelay.items[k].deadline <= env.now)
    && (forall k <- env.outboundExpired ::
          k in h.outboundDelay.items && h.outboundDelay.items[k].deadline <= env.now)
    && Distinct(env.inboundOrder) && (forall s :: s in env.inboundOrder <==> s in h.inbound)
    && Distinct(env.outboundOrder) && (forall s :: s in env.outboundOrder <==> s in h.outbound)
  }

  datatype PollResult =
    | Custom(event: Result<RPCReceived, HandlerErr>)
    | OutboundSubstreamRequest(dial: Dial)
    | Close(error: RPCError)
    | PollPending

  /** What a poll result means for the request it is about: its last report, one chunk of
      several, or a timeout of a stream whose last report was already queued. The substream
      is named when the report comes from one. */
  datatype Report =
    | NoReport
    | Final(id: RequestId, stream: Option<SubstreamId>)
    | Chunk(id: RequestId, sid: SubstreamId)
    | Late(id: RequestId, sid: SubstreamId)

  /** An attempt to start sending a message on an inbound substream. */
  datatype Send = Send(sid: SubstreamId, message: RPCCodedResponse, accepted: bool)

  /* ---- poll: timers ---- */

  /** Asks a stream to end: an idle one sends an error and closes, a busy one gets the error
      queued unless it is going to close anyway. */
  function CloseStream(s: InboundState, queue: seq<RPCCodedResponse>): (r: (InboundState, seq<RPCCodedResponse>)) {
    match s
    case PendingSend(_, closing) => (s, if closing then queue else queue + [ServerError(TIMED_OUT)])
    case PendingFlush(closing) => (s, if closing then queue else queue + [ServerError(TIMED_OUT)])
    case Idle => (PendingSend(ServerError(TIMED_OUT), true), queue)
    case Closing => (s, queue)
    case Poisoned => (s, queue)
  }

  function FireInbound(h: HState, k: Key): HState
    requires k in h.inboundDelay.items
  {
    var sid := h.inboundDelay.items[k].value;
    var h := h.(inboundDelay := h.inboundDelay.Remove(k));
    if sid !in h.inbound then h
    else
      var info := h.inbound[sid];
      var (s, q) := CloseStream(info.state, QueueOf(h.queued, sid));
      PushError(h, InboundErr(sid, info.proto, StreamTimeout)).(
        inbound := h.inbound[sid := InboundInfo(s, None, info.proto)],
        queued := h.queued[sid := q])
  }

  /** An entry that is not in the queue any more cannot expire. */
  function FireInbounds(h: HState, expired: seq<Key>): HState
    decreases |expired|
  {
    if expired == [] then h
    else
      FireInbounds(if expired[0] in h.inboundDelay.items then FireInbound(h, expired[0]) else h, expired[1..])
  }

  /** Result of a stage of `poll`: the new state, and what `poll` returns if it returns here. */
  datatype Stage = Stage(h: HState, result: Option<PollResult>, report: Report)

  function Continue(h: HState): Stage { Stage(h, None, NoReport) }

  function FireOutbound(h: HState, k: Key, now: nat): Stage
    requires k in h.outboundDelay.items
  {
    var sid := h.outboundDelay.items[k].value;
    var h := h.(outboundDelay := h.outboundDelay.Remove(k));
    if sid !in h.outbound then Continue(h)
    else
      var info := h.outbound[sid];
      Stage(UpdateKeepAlive(h.(outbound := h.outbound - {sid}), now),
            Some(Custom(Err(OutboundErr(info.id, info.proto, StreamTimeout)))),
            if info.state.PendingResponse? then Final(info.id, Some(sid)) else Late(info.id, sid))
  }

  function FireOutbounds(h: HState, expired: seq<Key>, now: nat): Stage
    decreases |expired|
  {
    if expired == [] then Continue(h)
    else if expired[0] !in h.outboundDelay.items then FireOutbounds(h, expired[1..], now)
    else
      var s := FireOutbound(h, expired[0], now);
      if s.result.Some? then s else FireOutbounds(s.h, expired[1..], now)
  }

  /* ---- poll: inbound streams ---- */

  /** Result of driving inbound streams: whether the loop goes on, the error with which `poll`
      closes the connection if it does, and the sends that were started. */
  datatype Drive = Drive(h: HState, further: bool, close: Option<RPCError>, sends: seq<Send>)

  function DropInbound(h: HState, sid: SubstreamId, now: nat): HState
    requires sid in h.inbound
  {
    var key := h.inbound[sid].key;
    UpdateKeepAlive(
      h.(inboundDelay := if key.Some? then h.inboundDelay.Remove(key.value) else h.inboundDelay,
         queued := h.queued - {sid},
         inbound := h.inbound - {sid}),
      now)
  }

  /** Takes the next queued response, or leaves the stream idle. */
  function ApplyQueued(h: HState, sid: SubstreamId, sends: seq<Send>): Drive
    requires sid in h.inbound
  {
    var q := QueueOf(h.queued, sid);
    if q != [] then
      Drive(SetIn(h, sid, PendingSend(q[0], false)).(queued := h.queued[sid := q[1..]]), true, None, sends)
    else Drive(SetIn(h, sid, Idle), false, None, sends)
  }

  function CloseAfter(h: HState, sid: SubstreamId, closing: bool, sends: seq<Send>): Drive
    requires sid in h.inbound
  {
    var rejected := InboundErr(sid, h.inbound[sid].proto, HandlerRejected);
    Drive(SetIn(if closing then h else PushError(h, rejected), sid, Closing), true, None, sends)
  }

  /** One turn of the drive loop. */
  function DriveOnce(h: HState, sid: SubstreamId, io: InboundIo, now: nat): Drive
    requires sid in h.inbound
  {
    var dead := h.state.Deactivated?;
    match h.inbound[sid].state
    case PendingSend(message, closing) =>
      if dead then CloseAfter(h, sid, closing, [])
      else (
        match io.ready
        case Ready =>
          var sends := [Send(sid, message, io.sendOk)];
          if io.sendOk then Drive(SetIn(h, sid, PendingFlush(closing)), true, None, sends)
          else if closing then Drive(SetIn(h, sid, Closing), true, None, sends)
          else ApplyQueued(h, sid, sends)
        case Failed(e) => Drive(UpdateKeepAlive(h.(inbound := h.inbound - {sid}), now), false, Some(e), [])
        case Pending => Drive(h, false, None, [])
      )
    case PendingFlush(closing) => (
      match io.flush
      case Ready => if closing || dead then CloseAfter(h, sid, closing, []) else ApplyQueued(h, sid, [])
      case Failed(_) => Drive(DropInbound(h, sid, now), false, None, [])
      case Pending => Drive(h, false, None, [])
    )
    case Idle =>
      if !dead then ApplyQueued(h, sid, []) else Drive(SetIn(h, sid, Closing), true, None, [])
    case Closing =>
      if io.close.Pending? then Drive(h, false, None, [])
      else Drive(DropInbound(h, sid, now), false, None, [])
    case Poisoned => Drive(h, false, None, [])
  }

  /** How far a stream is from its end; 0 is left for streams that are gone. */
  function Rank(s: InboundState): nat {
    match s
    case Idle => 4
    case PendingSend(_, _) => 3
    case PendingFlush(_) => 2
    case Closing => 1
    case Poisoned => 5
  }

  /** A turn that asks for another one leaves the stream in place and makes progress: it takes a
      queued response, or moves the stream closer to its end. No assumption on `closing`. */
  lemma DriveOnceProgress(h: HState, sid: SubstreamId, io: InboundIo, now: nat)
    requires sid in h.inbound
    ensures
      var d := DriveOnce(h, sid, io, now);
      d.further ==>
        && sid in d.h.inbound
        && (|| |QueueOf(d.h.queued, sid)| < |QueueOf(h.queued, sid)|
            || (&& QueueOf(d.h.queued, sid) == QueueOf(h.queued, sid)
                && Rank(d.h.inbound[sid].state) < Rank(h.inbound[sid].state)))
  {
    hide UpdateKeepAlive;
  }

  /** The drive loop of one stream, from its i-th turn. */
  function DriveStream(h: HState, sid: SubstreamId, io: (SubstreamId, nat) -> InboundIo, i: nat, now: nat): Drive
    requires sid in h.inbound
    decreases |QueueOf(h.queued, sid)|, Rank(h.inbound[sid].state)
  {
    var d := DriveOnce(h, sid, io(sid, i), now);
    if !d.further then d
    else
      DriveOnceProgress(h, sid, io(sid, i), now);
      var r := DriveStream(d.h, sid, io, i + 1, now);
      r.(sends := d.sends + r.sends)
  }

  function DriveStreams(h: HState, order: seq<SubstreamId>, io: (SubstreamId, nat) -> InboundIo, now: nat): Drive
    decreases |order|
  {
    if order == [] then Drive(h, false, None, [])
    else if order[0] !in h.inbound then DriveStreams(h, order[1..], io, now)
    else
      var d := DriveStream(h, order[0], io, 0, now);
      if d.close.Some? then d
      else
        var r := DriveStreams(d.h, order[1..], io, now);
        r.(sends := d.sends + r.sends)
  }

  /* ---- poll: outbound streams ---- */

  function SetOut(h: HState, sid: SubstreamId, s: OutboundState): HState
    requires sid in h.outbound
  {
    h.(outbound := h.outbound[sid := h.outbound[sid].(state := s)])
  }

  function DropOutbound(h: HState, sid: SubstreamId, now: nat): HState
    requires sid in h.outbound
  {
    UpdateKeepAlive(
      h.(outboundDelay := h.outboundDelay.Remove(h.outbound[sid].key), outbound := h.outbound - {sid}), now)
  }

  function ChunksLeft(remaining: Option<nat>): nat {
    if remaining.Some? && remaining.value > 0 then remaining.value - 1 else 0
  }

  /** Whether a response leaves its stream waiting for more. */
  predicate KeepsWaiting(info: OutboundInfo, r: RPCCodedResponse) {
    && info.state.PendingResponse?
    && info.state.req.expected > 1 && !r.IsError() && ChunksLeft(info.remaining) > 0
  }

  function Received(info: OutboundInfo, r: RPCCodedResponse): Result<RPCReceived, HandlerErr> {
    match r
    case Success(resp) => Ok(ReceivedResponse(info.id, resp))
    case _ => Err(OutboundErr(info.id, info.proto, ErrorResponse(r.CodeOfError().value, r.Payload())))
  }

  function ReceiveItem(h: HState, sid: SubstreamId, r: RPCCodedResponse, now: nat): Stage
    requires sid in h.outbound
  {
    var info := h.outbound[sid];
    if KeepsWaiting(info, r) then
      Stage(h.(outbound := h.outbound[sid := info.(remaining := Some(ChunksLeft(info.remaining)))],
               outboundDelay := h.outboundDelay.Reset(info.key, now + RESPONSE_TIMEOUT)),
            Some(Custom(Received(info, r))), Chunk(info.id, sid))
    else Stage(SetOut(h, sid, OutClosing), Some(Custom(Received(info, r))), Final(info.id, Some(sid)))
  }

  function DriveOutbound(h: HState, sid: SubstreamId, io: OutboundIo, now: nat): Stage
    requires sid in h.outbound
  {
    var info := h.outbound[sid];
    match info.state
    case PendingResponse(req) =>
      if h.state.Deactivated? then
        Continue(PushError(SetOut(h, sid, OutClosing), OutboundErr(info.id, info.proto, HandlerRejected)))
      else (
        match io.next
        case Item(r) => ReceiveItem(h, sid, r, now)
        case End =>
          Stage(DropOutbound(h, sid, now),
                Some(Custom(Err(OutboundErr(info.id, req.body.Proto(), IncompleteStream)))), Final(info.id, Some(sid)))
        case NotReady => Continue(h)
        case ItemErr(e) =>
          Stage(DropOutbound(h, sid, now),
                Some(Custom(Err(OutboundErr(info.id, info.proto, e)))), Final(info.id, Some(sid)))
      )
    case OutClosing => Continue(if io.closed then DropOutbound(h, sid, now) else h)
    case OutPoisoned => Continue(h)
  }

  function DriveOutbounds(h: HState, order: seq<SubstreamId>, io: SubstreamId -> OutboundIo, now: nat): Stage
    decreases |order|
  {
    if order == [] then Continue(h)
    else if order[0] !in h.outbound then DriveOutbounds(h, order[1..], io, now)
    else
      var s := DriveOutbound(h, order[0], io(order[0]), now);
      if s.result.Some? then s else DriveOutbounds(s.h, order[1..], io, now)
  }

  /* ---- poll ---- */

  function Establish(h: HState, now: nat): Stage {
    if h.dialQueue != [] && h.dialNegotiated < MAX_DIAL_NEGOTIATED then
      Stage(UpdateKeepAlive(h.(dialNegotiated := h.dialNegotiated + 1, dialQueue := h.dialQueue[1..]), now),
            Some(OutboundSubstreamRequest(h.dialQueue[0])), NoReport)
    else Stage(h, Some(PollPending), NoReport)
  }

  /** A handler whose shutdown timer ran out is deactivated and forgets the queued responses. */
  function CheckShutdown(h: HState, now: nat): HState {
    if h.state.ShuttingDown? && h.state.deadline <= now then h.(state := Deactivated, queued := map[]) else h
  }

  datatype PollOut = PollOut(h: HState, result: PollResult, report: Report, sends: seq<Send>)

  function CloseWith(h: HState, e: RPCError, sends: seq<Send>): PollOut {
    PollOut(h, Close(e), NoReport, sends)
  }

  function PollOutboundStreams(h: HState, env: PollEnv, sends: seq<Send>): PollOut {
    var s := DriveOutbounds(h, env.outboundOrder, env.outboundIo, env.now);
    var s := if s.result.Some? then s else Establish(s.h, env.now);
    PollOut(s.h, s.result.value, s.report, sends)
  }

  function PollStreams(h: HState, env: PollEnv): PollOut {
    var d := DriveStreams(h, env.inboundOrder, env.inboundIo, env.now);
    if d.close.Some? then CloseWith(d.h, d.close.value, d.sends)
    else PollOutboundStreams(d.h, env, d.sends)
  }

  function PollTimers(h: HState, env: PollEnv): PollOut {
    var h := FireInbounds(CheckShutdown(h, env.now), env.inboundExpired);
    if env.inboundTimerFails then CloseWith(h, InternalError("Could not poll inbound stream timer"), [])
    else
      var s := FireOutbounds(h, env.outboundExpired, env.now);
      if s.result.Some? then PollOut(s.h, s.result.value, s.report, [])
      else if env.outboundTimerFails then
        CloseWith(s.h, InternalError("Could not poll outbound stream timer"), [])
      else PollStreams(s.h, env)
  }

  function FinalOfError(e: HandlerErr): Report {
    if e.OutboundErr? then Final(e.id, None) else NoReport
  }

  function Poll(h: HState, env: PollEnv): PollOut {
    if h.pendingErrors != [] then
      PollOut(h.(pendingErrors := h.pendingErrors[1..]), Custom(Err(h.pendingErrors[0])),
              FinalOfError(h.pendingErrors[0]), [])
    else if h.eventsOut != [] then
      PollOut(h.(eventsOut := h.eventsOut[1..]), Custom(Ok(h.eventsOut[0])), NoReport, [])
    else PollTimers(h, env)
  }
}
