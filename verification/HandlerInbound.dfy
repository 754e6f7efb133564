/** Inbound streams keep their protocol and their timer, and answers reach idle streams only. */
module HandlerInbound {
  import opened Methods
  import opened Protocols
  import opened DelayQueues
  import opened HandlerModel
  import opened HandlerInvariant
  import opened HandlerAccounting
  import opened HandlerStreams
  import opened HandlerOutcomes
  import opened HandlerRuns
  import opened HandlerTheorems

  /** The answer changes the stream it is for, if that is idle, and nothing else among the streams. */
  lemma AnswersReachIdleStreams(w: World, s: SubstreamId, r: RPCCodedResponse)
    requires Enabled(w, DoResponse(s, r)) && Inv(w.h)
    ensures
      var m, h' := w.h.inbound, Next(w, DoResponse(s, r)).h;
      && h'.inboundDelay == w.h.inboundDelay
      && h'.inbound
         == if s in m && m[s].state.Idle? && !w.h.state.Deactivated?
            then m[s := InboundInfo(PendingSend(r, true), m[s].key, m[s].proto)] else m
  {
    if s in w.h.inbound { InvInboundOk(w.h, s); }
    hide Inv;
    if s in w.h.inbound { assert w.h.inbound[s := w.h.inbound[s]] == w.h.inbound; }
  }

  /** No stream is new; one that stays keeps its protocol, and its timer unless that expired; and a
      timer that stays keeps its deadline. */
  ghost predicate KeepsStreams(h: HState, h': HState, expired: seq<Key>) {
    && (forall s <- h'.inbound ::
          && s in h.inbound && h'.inbound[s].proto == h.inbound[s].proto
          && h'.inbound[s].key == KeyAfter(h.inbound[s].key, expired))
    && (forall k <- h'.inboundDelay.items ::
          k in h.inboundDelay.items && h'.inboundDelay.items[k] == h.inboundDelay.items[k])
  }

  function KeyAfter(key: Option<Key>, expired: seq<Key>): Option<Key> {
    if key.Some? && key.value in expired then None else key
  }

  lemma KeepsTrans(h: HState, h1: HState, h2: HState, expired: seq<Key>)
    requires KeepsStreams(h, h1, expired) && KeepsStreams(h1, h2, [])
    ensures KeepsStreams(h, h2, expired)
  {
  }

  lemma SameKeeps(h: HState, h': HState)
    requires h'.inbound == h.inbound && h'.inboundDelay == h.inboundDelay
    ensures KeepsStreams(h, h', [])
  {
  }

  lemma SetKeeps(h: HState, s: SubstreamId, state: InboundState, h': HState)
    requires s in h.inbound
    requires h'.inbound == SetIn(h, s, state).inbound && h'.inboundDelay == h.inboundDelay
    ensures KeepsStreams(h, h', [])
  {
  }

  lemma DropKeeps(h: HState, s: SubstreamId, now: nat)
    requires s in h.inbound
    ensures KeepsStreams(h, DropInbound(h, s, now), [])
  {
    hide UpdateKeepAlive;
  }

  lemma TurnKeeps(h: HState, s: SubstreamId, io: InboundIo, now: nat)
    requires s in h.inbound
    ensures KeepsStreams(h, DriveOnce(h, s, io, now).h, [])
  {
    var h' := DriveOnce(h, s, io, now).h;
    SameKeeps(h, h);
    DropKeeps(h, s, now);
    GoneKeeps(h, s, now);
    hide UpdateKeepAlive, DropInbound, KeepsStreams, SetIn;
    if h' != h && h' != DropInbound(h, s, now) && h' != UpdateKeepAlive(h.(inbound := h.inbound - {s}), now) {
      TurnSets(h, s, io, now);
      SetKeeps(h, s, h'.inbound[s].state, h');
    }
  }

  lemma GoneKeeps(h: HState, s: SubstreamId, now: nat)
    requires s in h.inbound
    ensures KeepsStreams(h, UpdateKeepAlive(h.(inbound := h.inbound - {s}), now), [])
  {
    hide UpdateKeepAlive;
  }

  /** What a turn can do to the streams: nothing, end the stream, or move it on. */
  ghost predicate Turned(h: HState, s: SubstreamId, now: nat, h': HState)
    requires s in h.inbound
  {
    || h' == h || h' == DropInbound(h, s, now) || h' == UpdateKeepAlive(h.(inbound := h.inbound - {s}), now)
    || (&& s in h'.inbound && h'.inbound == SetIn(h, s, h'.inbound[s].state).inbound
        && h'.inboundDelay == h.inboundDelay)
  }

  lemma TurnSets(h: HState, s: SubstreamId, io: InboundIo, now: nat)
    requires s in h.inbound
    ensures Turned(h, s, now, DriveOnce(h, s, io, now).h)
  {
    if h.inbound[s].state.PendingSend? {
      SendTurns(h, s, io, now);
    } else {
      OtherTurns(h, s, io, now);
    }
    hide Turned, DriveOnce;
  }

  lemma SendTurns(h: HState, s: SubstreamId, io: InboundIo, now: nat)
    requires s in h.inbound && h.inbound[s].state.PendingSend?
    ensures Turned(h, s, now, DriveOnce(h, s, io, now).h)
  {
    hide UpdateKeepAlive, DropInbound;
  }

  lemma OtherTurns(h: HState, s: SubstreamId, io: InboundIo, now: nat)
    requires s in h.inbound && !h.inbound[s].state.PendingSend?
    ensures Turned(h, s, now, DriveOnce(h, s, io, now).h)
  {
    hide UpdateKeepAlive, DropInbound;
  }

  lemma {:induction false} StreamKeeps(h: HState, s: SubstreamId, io: SinkAnswers, i: nat, now: nat)
    requires s in h.inbound
    ensures KeepsStreams(h, DriveStream(h, s, io, i, now).h, [])
    decreases |QueueOf(h.queued, s)|, Rank(h.inbound[s].state)
  {
    hide DriveOnce, KeepsStreams;
    TurnKeeps(h, s, io(s, i), now);
    DriveOnceProgress(h, s, io(s, i), now);
    var d := DriveOnce(h, s, io(s, i), now);
    if d.further {
      StreamKeeps(d.h, s, io, i + 1, now);
      KeepsTrans(h, d.h, DriveStream(d.h, s, io, i + 1, now).h, []);
    }
  }

  lemma {:induction false} StreamsKeep(h: HState, order: seq<SubstreamId>, io: SinkAnswers, now: nat)
    ensures KeepsStreams(h, DriveStreams(h, order, io, now).h, [])
    decreases |order|
  {
    hide DriveStream, KeepsStreams;
    if order == [] {
      SameKeeps(h, h);
    } else if order[0] !in h.inbound {
      StreamsKeep(h, order[1..], io, now);
    } else {
      StreamKeeps(h, order[0], io, 0, now);
      var d := DriveStream(h, order[0], io, 0, now);
      StreamsKeep(d.h, order[1..], io, now);
      KeepsTrans(h, d.h, DriveStreams(d.h, order[1..], io, now).h, []);
    }
  }

  lemma TimerKeeps(h: HState, k: Key, h': HState, rest: seq<Key>)
    requires Inv(h) && k in h.inboundDelay.items && KeepsStreams(FireInbound(h, k), h', rest)
    ensures KeepsStreams(h, h', [k] + rest)
  {
    InvTimer(h, k);
    FireInboundOwn(h, k);
    var t, h1 := h.inboundDelay.items[k].value, FireInbound(h, k);
    assert forall j :: j in [k] + rest <==> j == k || j in rest;
    forall s <- h'.inbound
      ensures s in h.inbound && h'.inbound[s].proto == h.inbound[s].proto
      ensures h'.inbound[s].key == KeyAfter(h.inbound[s].key, [k] + rest)
    {
      assert s in h1.inbound;
      if s != t {
        if h.inbound[s].key == Some(k) { OneStreamPerTimer(h, s, k); }
        assert h1.inbound[s] == h.inbound[s];
      }
    }
  }

  lemma OneStreamPerTimer(h: HState, s: SubstreamId, k: Key)
    requires Inv(h) && s in h.inbound && h.inbound[s].key == Some(k)
    ensures k in h.inboundDelay.items && h.inboundDelay.items[k].value == s
  {
  }

  lemma {:induction false} TimersKeep(h: HState, expired: seq<Key>)
    requires Inv(h)
    ensures KeepsStreams(h, FireInbounds(h, expired), expired)
    decreases |expired|
  {
    if expired == [] {
      hide Inv;
    } else {
      var k, rest := expired[0], expired[1..];
      assert [k] + rest == expired;
      if k in h.inboundDelay.items {
        FireInboundInv(h, k);
        hide Inv, FireInbound, KeepsStreams;
        TimersKeep(FireInbound(h, k), rest);
        TimerKeeps(h, k, FireInbounds(h, expired), rest);
      } else {
        hide FireInbounds;
        TimersKeep(h, rest);
        DeadKey(h, k, FireInbounds(h, rest), rest);
        hide Inv, KeepsStreams;
        assert FireInbounds(h, expired) == FireInbounds(h, rest) by { FireDeadKey(h, k, rest); }
      }
    }
  }

  lemma FireDeadKey(h: HState, k: Key, rest: seq<Key>)
    requires k !in h.inboundDelay.items
    ensures FireInbounds(h, [k] + rest) == FireInbounds(h, rest)
  {
    assert ([k] + rest)[0] == k && ([k] + rest)[1..] == rest;
  }

  lemma DeadKey(h: HState, k: Key, h': HState, rest: seq<Key>)
    requires Inv(h) && k !in h.inboundDelay.items && KeepsStreams(h, h', rest)
    ensures KeepsStreams(h, h', [k] + rest)
  {
    assert forall j :: j in [k] + rest <==> j == k || j in rest;
    forall s <- h'.inbound ensures h'.inbound[s].key == KeyAfter(h.inbound[s].key, [k] + rest) {
      if h.inbound[s].key == Some(k) { OneStreamPerTimer(h, s, k); }
    }
  }

  lemma {:induction false} OutTimersKeep(h: HState, expired: seq<Key>, now: nat)
    ensures FireOutbounds(h, expired, now).h.inboundDelay == h.inboundDelay
    decreases |expired|
  {
    hide UpdateKeepAlive;
    if expired != [] {
      if expired[0] in h.outboundDelay.items {
        OutTimersKeep(FireOutbound(h, expired[0], now).h, expired[1..], now);
      } else {
        OutTimersKeep(h, expired[1..], now);
      }
    }
  }

  lemma OutStreamKeeps(h: HState, s: SubstreamId, io: OutboundIo, now: nat)
    requires s in h.outbound
    ensures DriveOutbound(h, s, io, now).h.inboundDelay == h.inboundDelay
  {
    hide UpdateKeepAlive;
  }

  lemma {:induction false} OutStreamsKeep(
    h: HState, order: seq<SubstreamId>, io: SubstreamId -> OutboundIo, now: nat)
    ensures DriveOutbounds(h, order, io, now).h.inboundDelay == h.inboundDelay
    decreases |order|
  {
    hide DriveOutbound;
    if order == [] {
    } else if order[0] !in h.outbound {
      OutStreamsKeep(h, order[1..], io, now);
    } else {
      OutStreamKeeps(h, order[0], io(order[0]), now);
      OutStreamsKeep(DriveOutbound(h, order[0], io(order[0]), now).h, order[1..], io, now);
    }
  }

  lemma PollStreamsKeeps(h: HState, env: PollEnv)
    ensures KeepsStreams(h, PollStreams(h, env).h, [])
  {
    hide DriveStreams, DriveOutbounds, UpdateKeepAlive, KeepsStreams;
    StreamsKeep(h, env.inboundOrder, env.inboundIo, env.now);
    var d := DriveStreams(h, env.inboundOrder, env.inboundIo, env.now);
    OutStreamsKeep(d.h, env.outboundOrder, env.outboundIo, env.now);
    PollOutboundSide(d.h, env, d.sends);
    if d.close.None? {
      SameKeeps(d.h, PollStreams(h, env).h);
      KeepsTrans(h, d.h, PollStreams(h, env).h, []);
    }
  }

  /** Whatever a poll does, the streams of the peer that it leaves keep protocol and timer. */
  lemma PollKeepsStreams(h: HState, env: PollEnv)
    requires Inv(h)
    ensures KeepsStreams(h, Poll(h, env).h, if HandsOut(h) then [] else env.inboundExpired)
  {
    if HandsOut(h) {
      HandingOut(h, env);
      hide Inv, Poll;
      SameKeeps(h, Poll(h, env).h);
    } else {
      CheckShutdownInv(h, env.now);
      hide Inv, FireInbounds, FireOutbounds, PollStreams, KeepsStreams;
      var h1 := CheckShutdown(h, env.now);
      TimersKeep(h1, env.inboundExpired);
      var h2 := FireInbounds(h1, env.inboundExpired);
      FromChecked(h, env.now, h2, env.inboundExpired);
      SameKeeps(h2, h2);
      OutTimersKeep(h2, env.outboundExpired, env.now);
      FireOutboundsSide(h2, env.outboundExpired, env.now);
      var h3 := FireOutbounds(h2, env.outboundExpired, env.now).h;
      SameKeeps(h2, h3);
      PollStreamsKeeps(h3, env);
      KeepsTrans(h2, h3, PollStreams(h3, env).h, []);
      assert KeepsStreams(h2, Poll(h, env).h, []);
      KeepsTrans(h, h2, Poll(h, env).h, env.inboundExpired);
    }
  }

  lemma HandingOut(h: HState, env: PollEnv)
    requires HandsOut(h)
    ensures Poll(h, env).h.inbound == h.inbound && Poll(h, env).h.inboundDelay == h.inboundDelay
  {
  }

  lemma FromChecked(h: HState, now: nat, h': HState, expired: seq<Key>)
    requires KeepsStreams(CheckShutdown(h, now), h', expired)
    ensures KeepsStreams(h, h', expired)
  {
  }
}
