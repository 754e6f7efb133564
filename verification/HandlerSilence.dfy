/** Requests that expect no response, such as a goodbye, are done in silence once they are
    negotiated. No other request is: over every run those that expect a response are reported. */
module HandlerSilence {
  import opened Methods
  import opened HandlerModel
  import opened HandlerInvariant
  import opened HandlerAccounting
  import opened HandlerStreams
  import opened HandlerReports
  import opened HandlerRuns

  function MuteOf(d: Dial, x: RequestId): nat { One(d.id == x && d.req.expected == 0) }

  /** The dials for request `x` that expect no response. */
  function MuteCount(s: seq<Dial>, x: RequestId): nat {
    if s == [] then 0 else MuteCount(s[..|s| - 1], x) + MuteOf(s[|s| - 1], x)
  }

  lemma MuteAppend(s: seq<Dial>, d: Dial, x: RequestId)
    ensures MuteCount(s + [d], x) == MuteCount(s, x) + MuteOf(d, x)
  {
    assert (s + [d])[..|s|] == s;
  }

  lemma {:induction false} MuteRemove(s: seq<Dial>, i: nat, x: RequestId)
    requires i < |s|
    ensures MuteCount(s, x) == MuteCount(Without(s, i), x) + MuteOf(s[i], x)
  {
    if i == |s| - 1 {
      assert Without(s, i) == s[..|s| - 1];
    } else {
      MuteRemove(s[..|s| - 1], i, x);
      assert Without(s, i)[..|s| - 2] == Without(s[..|s| - 1], i);
    }
  }

  function SubmitsMute(w: World, step: Step, x: RequestId): nat {
    match Submits(w, step) case Some(d) => MuteOf(d, x) case None => 0
  }

  function SubmitsAnswerable(w: World, step: Step, x: RequestId): nat {
    match Submits(w, step) case Some(d) => One(d.id == x && d.req.expected > 0) case None => 0
  }

  /** How often a run submits `x` as a request that expects no response. */
  function Mutes(w: World, steps: seq<Step>, x: RequestId): nat
    requires Legal(w, steps)
    decreases |steps|
  {
    if steps == [] then 0 else SubmitsMute(w, steps[0], x) + Mutes(Next(w, steps[0]), steps[1..], x)
  }

  /** How often a run submits `x` as a request that expects a response. */
  function Answerables(w: World, steps: seq<Step>, x: RequestId): nat
    requires Legal(w, steps)
    decreases |steps|
  {
    if steps == [] then 0 else SubmitsAnswerable(w, steps[0], x) + Answerables(Next(w, steps[0]), steps[1..], x)
  }

  /** Mute requests that are done, and those that may still be. */
  function Silence(w: World, x: RequestId): nat {
    w.hist.silent[x] + MuteCount(w.h.dialQueue, x) + MuteCount(w.inflight, x)
  }

  lemma SendRequestQueue(h: HState, d: Dial, now: nat)
    ensures SendRequest(h, d, now).dialQueue == if h.state.Active? then h.dialQueue + [d] else h.dialQueue
  {
    hide UpdateKeepAlive;
  }

  lemma ShutdownQueue(h: HState, final: Option<Dial>, now: nat)
    ensures
      Shutdown(h, final, now).dialQueue
      == if !h.state.Active? then h.dialQueue else if final.Some? then [final.value] else []
  {
    hide UpdateKeepAlive, Rejections;
  }

  lemma DialErrorQueue(h: HState, d: Dial, e: DialError, now: nat)
    requires h.dialNegotiated > 0
    ensures
      var q := InjectDialError(h, d, e, now).dialQueue;
      q == h.dialQueue || q == h.dialQueue + [d]
  {
    hide UpdateKeepAlive, SendRequest;
    if Retries(h, e) { SendRequestQueue(h.(ioRetries := h.ioRetries + 1), d, now); }
  }

  lemma SubmitSilence(w: World, step: Step, x: RequestId)
    requires Enabled(w, step) && (step.DoRequest? || step.DoShutdown?)
    ensures Silence(Next(w, step), x) <= Silence(w, x) + SubmitsMute(w, step, x)
  {
    hide Shutdown, SendRequest, MuteCount;
    match step
    case DoRequest(d, now) =>
      SendRequestQueue(w.h, d, now);
      MuteAppend(w.h.dialQueue, d, x);
    case DoShutdown(final, now) =>
      ShutdownQueue(w.h, final, now);
      NoneMute(x);
      if final.Some? {
        MuteAppend([], final.value, x);
        assert [] + [final.value] == [final.value];
      }
  }

  lemma NoneMute(x: RequestId)
    ensures MuteCount([], x) == 0
  {
  }

  lemma AnswerSilence(w: World, step: Step, x: RequestId)
    requires Enabled(w, step) && (step.Negotiate? || step.FailDial?)
    ensures Silence(Next(w, step), x) <= Silence(w, x)
  {
    hide InjectOutbound, InjectDialError, MuteCount, Without;
    var d := w.inflight[step.i];
    MuteRemove(w.inflight, step.i, x);
    MuteAppend(w.h.dialQueue, d, x);
    match step
    case Negotiate(_, now) => NegotiateFrame(w.h, d, now);
    case FailDial(_, e, now) => DialErrorQueue(w.h, d, e, now);
  }

  lemma PollSilence(w: World, env: PollEnv, x: RequestId)
    requires !w.closed
    ensures Silence(Next(w, DoPoll(env)), x) == Silence(w, x)
  {
    hide Poll, MuteCount, LivesAfter;
    PollDials(w.h, env);
    var p := Poll(w.h, env);
    if p.result.OutboundSubstreamRequest? {
      MuteAppend(w.inflight, p.result.dial, x);
      MuteRemove(w.h.dialQueue, 0, x);
      assert Without(w.h.dialQueue, 0) == p.h.dialQueue;
    }
  }

  lemma StepSilence(w: World, step: Step, x: RequestId)
    requires Enabled(w, step)
    ensures Silence(Next(w, step), x) <= Silence(w, x) + SubmitsMute(w, step, x)
  {
    hide MuteCount, Poll, SendResponse, InjectInbound, Answer;
    match step
    case DoRequest(_, _) => SubmitSilence(w, step, x);
    case DoShutdown(_, _) => SubmitSilence(w, step, x);
    case Negotiate(_, _) => AnswerSilence(w, step, x);
    case FailDial(_, _, _) => AnswerSilence(w, step, x);
    case DoPoll(env) => PollSilence(w, env, x);
    case DoResponse(sid, r) => RespondSide(w.h, sid, r);
    case Accept(req, now) => AcceptFrame(w.h, req, now);
  }

  lemma StepSubmits(w: World, step: Step, x: RequestId)
    requires Enabled(w, step)
    ensures
      Next(w, step).hist.submitted[x]
      == w.hist.submitted[x] + SubmitsMute(w, step, x) + SubmitsAnswerable(w, step, x)
  {
    hide Poll, Shutdown, SendRequest, SendResponse, InjectInbound, InjectOutbound, InjectDialError, Answer, LivesAfter;
  }

  lemma {:induction false} RunSilence(w: World, steps: seq<Step>, x: RequestId)
    requires Legal(w, steps)
    ensures Silence(Run(w, steps), x) <= Silence(w, x) + Mutes(w, steps, x)
    ensures
      Run(w, steps).hist.submitted[x] == w.hist.submitted[x] + Mutes(w, steps, x) + Answerables(w, steps, x)
    decreases |steps|
  {
    hide Next, Enabled, Silence, SubmitsMute, SubmitsAnswerable;
    if steps != [] {
      StepSilence(w, steps[0], x);
      StepSubmits(w, steps[0], x);
      RunSilence(Next(w, steps[0]), steps[1..], x);
    }
  }

  /** Over every run: no more requests are done in silence than were submitted to expect no
      response. So once nothing of `x` is queued, in flight or waiting, `x` was reported for good at
      least as often as it was submitted to be answered, and never more often than submitted. */
  lemma AnswerableRequestsAreReported(timeout: nat, steps: seq<Step>, x: RequestId)
    requires Legal(Start(timeout), steps)
    ensures
      var w := Run(Start(timeout), steps);
      && w.hist.silent[x] <= Mutes(Start(timeout), steps, x)
      && w.hist.finished[x] <= w.hist.submitted[x]
      && (DialCount(w.inflight, x) == 0 && Load(w.h, x) == 0 ==>
            w.hist.finished[x] >= Answerables(Start(timeout), steps, x))
  {
    StartInv(timeout);
    RunInv(Start(timeout), steps);
    RunSilence(Start(timeout), steps, x);
    StartSilent(timeout, x);
    hide Run, Start, Inv, DialCount, ErrCount, StreamCount, MuteCount, Mutes, Answerables;
    assert AccountedAt(Run(Start(timeout), steps), x);
  }

  lemma StartSilent(timeout: nat, x: RequestId)
    ensures Silence(Start(timeout), x) == 0 && Start(timeout).hist.submitted[x] == 0
  {
  }
}
