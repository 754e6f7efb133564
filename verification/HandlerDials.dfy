/** Requests are dialed in the order in which they were queued, and unchanged. */
module HandlerDials {
  import opened Methods
  import opened Protocols
  import opened DelayQueues
  import opened HandlerModel
  import opened HandlerInvariant
  import opened HandlerAccounting
  import opened HandlerStreams
  import opened HandlerOutcomes
  import opened HandlerRuns
  import opened HandlerTheorems

  /** What a step puts at the end of the dial queue of an active handler: a request of the
      application, or one whose dial failed with an IO error and is tried again. */
  function QueuedBy(w: World, step: Step): seq<Dial>
    requires Enabled(w, step)
  {
    if !w.h.state.Active? then []
    else if step.DoRequest? then [step.dial]
    else if step.FailDial? && step.e.Apply? && step.e.e.IoError? && w.h.ioRetries < 2 then [w.inflight[step.i]]
    else []
  }

  /** The dial a step starts. */
  function DialedBy(w: World, step: Step): seq<Dial> {
    if !step.DoPoll? then []
    else
      match Poll(w.h, step.env).result
      case OutboundSubstreamRequest(d) => [d]
      case _ => []
  }

  predicate ShutsDown(w: World, step: Step) { step.DoShutdown? && w.h.state.Active? }

  /** A shutdown replaces the queue by its final message; otherwise the queue changes at its ends
      alone. */
  lemma StepDials(w: World, step: Step)
    requires Enabled(w, step)
    ensures
      var q, q' := w.h.dialQueue, Next(w, step).h.dialQueue;
      if ShutsDown(w, step) then q' == FinalQueue(step.final)
      else DialedBy(w, step) + q' == q + QueuedBy(w, step)
  {
    var q := w.h.dialQueue;
    assert q + [] == q && [] + q == q;
    match step
    case DoPoll(env) =>
      hide Poll, LivesAfter;
      PollDials(w.h, env);
    case DoShutdown(final, now) =>
      if w.h.state.Active? { ShutdownLeaves(w.h, final, now); }
      hide Rejections, UpdateKeepAlive;
    case DoRequest(d, now) =>
      hide UpdateKeepAlive;
      assert [] + (q + [d]) == q + [d];
    case DoResponse(sid, r) =>
      hide SendResponse;
      RespondSide(w.h, sid, r);
    case FailDial(i, e, now) =>
      hide UpdateKeepAlive;
      assert [] + (q + [w.inflight[i]]) == q + [w.inflight[i]];
    case _ => hide UpdateKeepAlive;
  }

  function Queued(w: World, steps: seq<Step>): seq<Dial>
    requires Legal(w, steps)
    decreases |steps|
  {
    if steps == [] then [] else QueuedBy(w, steps[0]) + Queued(Next(w, steps[0]), steps[1..])
  }

  function Dialed(w: World, steps: seq<Step>): seq<Dial>
    requires Legal(w, steps)
    decreases |steps|
  {
    if steps == [] then [] else DialedBy(w, steps[0]) + Dialed(Next(w, steps[0]), steps[1..])
  }

  predicate NoShutdown(w: World, steps: seq<Step>)
    requires Legal(w, steps)
    decreases |steps|
  {
    steps == [] || (!ShutsDown(w, steps[0]) && NoShutdown(Next(w, steps[0]), steps[1..]))
  }

  /** As long as no shutdown clears the queue, what was dialed and what still waits are exactly what
      waited at first and was queued since, in this order. */
  lemma {:induction false} DialsInOrder(w: World, steps: seq<Step>)
    requires Legal(w, steps) && NoShutdown(w, steps)
    ensures Dialed(w, steps) + Run(w, steps).h.dialQueue == w.h.dialQueue + Queued(w, steps)
    decreases |steps|
  {
    hide Next, Enabled, DialedBy, QueuedBy;
    if steps == [] {
      assert [] + w.h.dialQueue == w.h.dialQueue + [];
    } else {
      StepDials(w, steps[0]);
      var w1 := Next(w, steps[0]);
      DialsInOrder(w1, steps[1..]);
      var first, rest, last := DialedBy(w, steps[0]), Dialed(w1, steps[1..]), Run(w1, steps[1..]).h.dialQueue;
      var got, more := QueuedBy(w, steps[0]), Queued(w1, steps[1..]);
      Associative(first, rest, last);
      Associative(first, w1.h.dialQueue, more);
      Associative(w.h.dialQueue, got, more);
    }
  }

  /** From its beginning, and if no shutdown comes, a handler dials what it was given, in order. */
  lemma RequestsAreDialedInOrder(timeout: nat, steps: seq<Step>)
    requires Legal(Start(timeout), steps) && NoShutdown(Start(timeout), steps)
    ensures Dialed(Start(timeout), steps) + Run(Start(timeout), steps).h.dialQueue == Queued(Start(timeout), steps)
  {
    DialsInOrder(Start(timeout), steps);
    EmptyAtFirst(timeout);
    hide Run, Dialed, Queued, Start;
    assert [] + Queued(Start(timeout), steps) == Queued(Start(timeout), steps);
  }

  lemma EmptyAtFirst(timeout: nat)
    ensures Start(timeout).h.dialQueue == []
  {
  }
}
