/** The timers, the peer book and the connections of libp2p agree over every run. */
module PeerManagerTheorems {
  import opened Methods
  import opened PeerDB
  import opened PeerManagerModel

  /** A peer booked as connected is connected, once, and the connection is booked as one we dialed.
      Whoever has a ping timer is connected or being
      dialed. Not too many disconnected peers are remembered. */
  ghost predicate Agreement(w: World) {
    && |DisconnectedPeers(w.m.peers)| <= MAX_DC_PEERS
    && (forall p <- w.m.peers ::
          w.m.peers[p].status.Connected? ==> Open(w, p) > 0 && w.m.peers[p].status == Connected(0, 1))
    && w.m.pings.Keys <= ConnectedOrDialing(w.m.peers)
  }

  lemma BookedKeeps(peers: Peers, p: PeerId, s: PeerConnectionStatus)
    requires s.Up()
    ensures ConnectedOrDialing(WithStatus(peers, p, s)) == ConnectedOrDialing(peers) + {p}
    ensures DisconnectedPeers(WithStatus(peers, p, s)) == DisconnectedPeers(peers) - {p}
  {
  }

  /** Who leaves is no longer up; nobody else is affected but peers that had left before. */
  lemma PartedKeeps(m: Manager, p: PeerId, now: nat, after: Manager)
    requires NotifyDisconnect(m, p, now, after) && |DisconnectedPeers(m.peers)| <= MAX_DC_PEERS
    ensures ConnectedOrDialing(after.peers) == ConnectedOrDialing(m.peers) - {p}
    ensures |DisconnectedPeers(after.peers)| <= MAX_DC_PEERS
    ensures forall q <- after.peers :: q != p ==> q in m.peers && after.peers[q] == m.peers[q]
    ensures p in after.peers ==> !after.peers[p].status.Up()
    ensures m.peers.Keys - after.peers.Keys <= DisconnectedPeers(m.peers) + {p}
    ensures |m.peers.Keys - after.peers.Keys| <= 1
  {
    hide Shrunk, WithStatus, Parted, StatusOf, DisconnectedPeers, ConnectedOrDialing;
    var parted := WithStatus(m.peers, p, Parted(StatusOf(m.peers, p), now));
    PartedOnly(m.peers, p, now);
    Fewer(DisconnectedPeers(parted), DisconnectedPeers(m.peers) + {p});
    ShrunkByOne(parted, after.peers);
    Fewer(m.peers.Keys - after.peers.Keys, parted.Keys - after.peers.Keys);
  }

  lemma PartedOnly(peers: Peers, p: PeerId, now: nat)
    ensures
      var parted := WithStatus(peers, p, Parted(StatusOf(peers, p), now));
      && ConnectedOrDialing(parted) == ConnectedOrDialing(peers) - {p}
      && DisconnectedPeers(parted) <= DisconnectedPeers(peers) + {p}
      && parted.Keys == peers.Keys + {p}
      && (forall q <- peers :: q != p ==> parted[q] == peers[q])
      && !parted[p].status.Up()
  {
  }

  lemma {:induction false} Fewer(a: set<PeerId>, b: set<PeerId>)
    requires a <= b
    ensures |a| <= |b|
    decreases |a|
  {
    if a != {} {
      var x :| x in a;
      Fewer(a - {x}, b - {x});
    }
  }

  lemma PolledKeeps(w: World, results: seq<DiscoveryEvent>, now: nat, target: nat, after: World)
    requires Step(w, Poll(results), now, target, after)
    ensures SameStatuses(w.m.peers, after.m.peers) && after.open == w.open
    ensures after.m.pings.Keys == w.m.pings.Keys && after.m.statuses.Keys == w.m.statuses.Keys
    ensures Due(after.m.pings, now) == {} && Due(after.m.statuses, now) == {}
  {
    hide SameStatuses, AllDiscovered, Pings, Statuses;
    AllDiscoveredKeeps(w.m, results, target);
    var d := AllDiscovered(w.m, results, target);
    RearmedKeeps(d.pings, now, PING_INTERVAL);
    RearmedKeeps(d.statuses, now, STATUS_INTERVAL);
  }

  lemma StepAgreement(w: World, e: SwarmEvent, now: nat, target: nat, after: World)
    requires Agreement(w) && Step(w, e, now, target, after)
    ensures Agreement(after)
  {
    hide ConnectedOrDialing, DisconnectedPeers, Polled, WithStatus, StatusOf, Parted;
    match e
    case Established(p, listener) => EstablishedAgreement(w, p, listener, now, target, after);
    case Closed(p) =>
      if Open(w, p) == 1 { PartedAgreement(w, p, now, after); }
    case Unreachable(p) => PartedAgreement(w, p, now, after);
    case DialingStarted(p) => DialingAgreement(w, p, now, target, after);
    case Statusd(p) =>
    case Poll(results) =>
      hide Step;
      PollAgreement(w, results, now, target, after);
  }

  lemma DialingAgreement(w: World, p: PeerId, now: nat, target: nat, after: World)
    requires Agreement(w) && Step(w, DialingStarted(p), now, target, after)
    ensures Agreement(after)
  {
    hide ConnectedOrDialing, DisconnectedPeers;
    BookedKeeps(w.m.peers, p, Dialing(now));
    Fewer(DisconnectedPeers(after.m.peers), DisconnectedPeers(w.m.peers));
  }

  lemma PollAgreement(w: World, results: seq<DiscoveryEvent>, now: nat, target: nat, after: World)
    requires Agreement(w) && Step(w, Poll(results), now, target, after)
    ensures Agreement(after)
  {
    hide Step, ConnectedOrDialing, DisconnectedPeers;
    PolledKeeps(w, results, now, target, after);
    forall p <- after.m.peers ensures after.m.peers[p].status == StatusOf(w.m.peers, p) {
      assert StatusOf(after.m.peers, p) == StatusOf(w.m.peers, p);
    }
  }

  lemma EstablishedAgreement(w: World, p: PeerId, listener: bool, now: nat, target: nat, after: World)
    requires Agreement(w) && Step(w, Established(p, listener), now, target, after)
    ensures Agreement(after)
  {
    hide ConnectedOrDialing, DisconnectedPeers, WithStatus, StatusOf;
    if Open(w, p) == 0 { BookedAgreement(w, p, after); }
  }

  /** The first connection of a peer is booked, with a timer or without. */
  lemma BookedAgreement(w: World, p: PeerId, after: World)
    requires Agreement(w) && Open(w, p) == 0 && after.open == w.open[p := 1]
    requires after.m.peers == WithStatus(w.m.peers, p, StatusOf(w.m.peers, p).ConnectOutgoing())
    requires after.m.pings.Keys <= w.m.pings.Keys + {p}
    ensures Agreement(after)
  {
    hide ConnectedOrDialing, DisconnectedPeers;
    var s := StatusOf(w.m.peers, p);
    assert !s.Connected?;
    BookedKeeps(w.m.peers, p, s.ConnectOutgoing());
    Fewer(DisconnectedPeers(after.m.peers), DisconnectedPeers(w.m.peers));
  }

  lemma PartedAgreement(w: World, p: PeerId, now: nat, after: World)
    requires Agreement(w) && NotifyDisconnect(w.m, p, now, after.m)
    requires forall q :: q != p ==> Open(after, q) == Open(w, q)
    ensures Agreement(after)
  {
    hide Shrunk, ConnectedOrDialing, DisconnectedPeers, WithStatus, Parted, StatusOf;
    PartedKeeps(w.m, p, now, after.m);
  }

  /** In every world of every run: whoever has a ping timer is connected or being dialed, a booked
      connection is a real one, and no peer counts more than one connection, so that the one-byte
      counters cannot overflow. */
  lemma {:induction false} TimersAgree(worlds: seq<World>, events: seq<Timed>, target: nat, i: nat)
    requires Run(worlds, events, target) && i < |worlds|
    ensures Agreement(worlds[i])
  {
    if i > 0 {
      TimersAgree(worlds, events, target, i - 1);
      var e := events[i - 1];
      StepAgreement(worlds[i - 1], e.event, e.at, target, worlds[i]);
    } else {
      assert DisconnectedPeers(START.m.peers) == {};
    }
  }

  /** The direction of a connection is booked right exactly if we dialed it: the manager swaps the
      directions of those of the peer, and those we dialed do not pass through it. */
  lemma DirectionRightIffDialed(worlds: seq<World>, events: seq<Timed>, target: nat, i: nat, p: PeerId, listener: bool)
    requires Run(worlds, events, target) && i < |events|
    requires events[i].event == Established(p, listener) && Open(worlds[i], p) == 0
    ensures
      var s := StatusOf(worlds[i + 1].m.peers, p);
      && s == Connected(0, 1)
      && (s == (if listener then Connected(1, 0) else Connected(0, 1)) <==> !listener)
  {
    TimersAgree(worlds, events, target, i);
    var w := worlds[i];
    assert Step(w, events[i].event, events[i].at, target, worlds[i + 1]);
    StatusSet(w.m.peers, p, StatusOf(w.m.peers, p).ConnectOutgoing());
    assert !StatusOf(w.m.peers, p).Connected?;
  }

  predicate Parts(e: SwarmEvent, p: PeerId) { (e.Closed? || e.Unreachable?) && e.peer == p }

  /** No event makes the book forget a peer with a ping timer, or more than one peer. */
  lemma ForgottenHaveNoTimer(worlds: seq<World>, events: seq<Timed>, target: nat, i: nat)
    requires Run(worlds, events, target) && i < |events|
    ensures
      var before, after := worlds[i].m, worlds[i + 1].m;
      var forgotten := before.peers.Keys - after.peers.Keys;
      && |forgotten| <= 1
      && forall p <- forgotten ::
          && p !in after.pings
          && (p in DisconnectedPeers(before.peers) || Parts(events[i].event, p))
  {
    TimersAgree(worlds, events, target, i);
    TimersAgree(worlds, events, target, i + 1);
    StepForgets(worlds[i], events[i].event, events[i].at, target, worlds[i + 1]);
    hide Step, Agreement, ConnectedOrDialing, DisconnectedPeers;
  }

  lemma StepForgets(w: World, e: SwarmEvent, now: nat, target: nat, after: World)
    requires Agreement(w) && Agreement(after) && Step(w, e, now, target, after)
    ensures
      var forgotten := w.m.peers.Keys - after.m.peers.Keys;
      && |forgotten| <= 1
      && forall p <- forgotten ::
          && p !in after.m.pings
          && (p in DisconnectedPeers(w.m.peers) || Parts(e, p))
  {
    var forgotten := w.m.peers.Keys - after.m.peers.Keys;
    if (e.Closed? && Open(w, e.peer) == 1) || e.Unreachable? {
      PartedKeeps(w.m, e.peer, now, after.m);
      forall p <- forgotten ensures p !in after.m.pings { assert p !in ConnectedOrDialing(after.m.peers); }
      hide Step, NotifyDisconnect;
    } else {
      if e.Poll? { PolledKeeps(w, e.results, now, target, after); }
      assert forgotten == {};
    }
  }

  /** A ping timer runs until its peer's last connection closes or dialing it fails. */
  lemma TimerPersists(w: World, e: SwarmEvent, now: nat, target: nat, after: World, p: PeerId)
    requires Step(w, e, now, target, after) && p in w.m.pings
    ensures p !in after.m.pings <==> Parts(e, p) && (e.Closed? ==> Open(w, p) == 1)
  {
    hide Shrunk, Polled, SameStatuses, WithStatus, StatusOf, Parted, Due;
    match e
    case Established(_, _) =>
    case Closed(_) =>
    case Unreachable(_) =>
    case DialingStarted(_) =>
    case Statusd(_) =>
    case Poll(results) =>
      PolledKeeps(w, results, now, target, after);
      hide Step;
      assert p in after.m.pings;
  }

  /** A poll hands out, or queues, exactly one ping for each peer whose ping timer was due. */
  lemma OnePingEach(m: Manager, results: seq<DiscoveryEvent>, target: nat, now: nat,
                    pinged: seq<PeerId>, asked: seq<PeerId>, after: Manager, p: PeerId)
    requires Polled(m, results, target, now, pinged, asked, after)
    ensures
      multiset(after.events)[Ping(p)]
      == multiset(AllDiscovered(m, results, target).events)[Ping(p)] + (if p in Due(m.pings, now) then 1 else 0)
  {
    AllDiscoveredKeeps(m, results, target);
    var d := AllDiscovered(m, results, target);
    PingsCount(pinged, p);
    StatusesCount(asked, p);
    assert multiset(after.events) == multiset(d.events) + multiset(Pings(pinged)) + multiset(Statuses(asked));
    assert multiset(Due(m.pings, now))[p] == if p in Due(m.pings, now) then 1 else 0;
  }

  lemma {:induction false} PingsCount(order: seq<PeerId>, p: PeerId)
    ensures multiset(Pings(order))[Ping(p)] == multiset(order)[p]
  {
    if order != [] {
      var front, last := order[..|order| - 1], order[|order| - 1];
      PingsCount(front, p);
      assert order == front + [last];
    }
  }

  lemma {:induction false} StatusesCount(order: seq<PeerId>, p: PeerId)
    ensures multiset(Statuses(order))[Ping(p)] == 0
  {
    if order != [] { StatusesCount(order[..|order| - 1], p); }
  }

  /* ---- the status timers ---- */

  ghost predicate StatusesAgree(w: World) { w.m.statuses.Keys <= ConnectedOrDialing(w.m.peers) }

  /** The status timers agree with the book in the same way, except that a status message starts a
      timer whoever sent it: agreement survives exactly if the sender is connected or being dialed. */
  lemma StatusesStep(w: World, e: SwarmEvent, now: nat, target: nat, after: World)
    requires Agreement(w) && StatusesAgree(w) && Step(w, e, now, target, after)
    ensures StatusesAgree(after) <==> (e.Statusd? ==> StatusOf(w.m.peers, e.peer).Up())
  {
    match e
    case Established(p, listener) =>
      if Open(w, p) == 0 { BookedKeeps(w.m.peers, p, StatusOf(w.m.peers, p).ConnectOutgoing()); }
    case Closed(p) => if Open(w, p) == 1 { PartedKeeps(w.m, p, now, after.m); }
    case Unreachable(p) => PartedKeeps(w.m, p, now, after.m);
    case DialingStarted(p) => BookedKeeps(w.m.peers, p, Dialing(now));
    case Statusd(p) =>
      assert p in after.m.statuses;
      assert p in ConnectedOrDialing(w.m.peers) <==> StatusOf(w.m.peers, p).Up();
    case Poll(results) => PolledKeeps(w, results, now, target, after);
  }

  lemma {:induction false} StatusTimersAgree(worlds: seq<World>, events: seq<Timed>, target: nat, i: nat)
    requires Run(worlds, events, target) && i < |worlds|
    requires
      forall j :: 0 <= j < i && events[j].event.Statusd? ==> StatusOf(worlds[j].m.peers, events[j].event.peer).Up()
    ensures StatusesAgree(worlds[i])
  {
    if i > 0 {
      StatusTimersAgree(worlds, events, target, i - 1);
      TimersAgree(worlds, events, target, i - 1);
      var e := events[i - 1];
      StatusesStep(worlds[i - 1], e.event, e.at, target, worlds[i]);
    }
  }

  /** The gap is real: while we dial a peer it connects to us, our dial fails, and the peer sends a
      status message over the connection that stands. */
  lemma StatusTimerOfDisconnectedPeer(p: PeerId, target: nat) returns (worlds: seq<World>, events: seq<Timed>)
    ensures Run(worlds, events, target)
    ensures var w := worlds[|worlds| - 1]; Open(w, p) == 1 && StatusOf(w.m.peers, p).Disconnected? && p in w.m.statuses
  {
    var m1 := ConnectPeer(START.m, p, DialingIt, 0);
    var m2 := ConnectPeer(m1, p, IngoingConnected, 0);
    var m3 := Manager(WithStatus(m2.peers, p, Disconnected(0)), map[], map[], []);
    var w1, w2, w3 := World(m1, map[]), World(m2, map[p := 1]), World(m3, map[p := 1]);
    var w4 := World(m3.(statuses := map[p := STATUS_INTERVAL]), map[p := 1]);
    worlds := [START, w1, w2, w3, w4];
    events := [Timed(DialingStarted(p), 0), Timed(Established(p, true), 0), Timed(Unreachable(p), 0),
               Timed(Statusd(p), 0)];
    assert DisconnectedPeers(m3.peers) == {p};
    assert Shrunk(WithStatus(m2.peers, p, Parted(StatusOf(m2.peers, p), 0)), m3.peers);
    assert Step(START, DialingStarted(p), 0, target, w1);
    assert Step(w1, Established(p, true), 0, target, w2);
    assert Step(w2, Unreachable(p), 0, target, w3);
    assert Step(w3, Statusd(p), 0, target, w4);
  }

  /* ---- peers without a timer ---- */

  /** Whoever is connected or being dialed has a ping timer. */
  ghost predicate UpHaveTimers(w: World) { ConnectedOrDialing(w.m.peers) <= w.m.pings.Keys }

  /** The event starts no timer for a peer that has none: the first connection to it is one we
      dialed. */
  predicate LacksTimer(w: World, e: SwarmEvent) {
    e.Established? && !e.listener && Open(w, e.peer) == 0 && e.peer !in w.m.pings
  }

  /** Every peer that is up keeps a ping timer exactly as long as no such event happens. */
  lemma TimersStep(w: World, e: SwarmEvent, now: nat, target: nat, after: World)
    requires Agreement(w) && UpHaveTimers(w) && Step(w, e, now, target, after)
    ensures UpHaveTimers(after) <==> !LacksTimer(w, e)
  {
    hide Agreement, Shrunk, Polled, Parted, ConnectedOrDialing, DisconnectedPeers, StatusOf, WithStatus;
    assert |DisconnectedPeers(w.m.peers)| <= MAX_DC_PEERS by { AgreementBound(w); }
    match e
    case Established(p, listener) =>
      if Open(w, p) == 0 { BookedKeeps(w.m.peers, p, StatusOf(w.m.peers, p).ConnectOutgoing()); }
    case Closed(p) =>
      if Open(w, p) == 1 { PartedKeeps(w.m, p, now, after.m); }
    case Unreachable(p) => PartedKeeps(w.m, p, now, after.m);
    case DialingStarted(p) => BookedKeeps(w.m.peers, p, Dialing(now));
    case Statusd(p) =>
    case Poll(results) =>
      hide Step;
      PolledKeeps(w, results, now, target, after);
  }

  lemma AgreementBound(w: World)
    requires Agreement(w)
    ensures |DisconnectedPeers(w.m.peers)| <= MAX_DC_PEERS
  {
  }

  lemma {:induction false} PingTimersComplete(worlds: seq<World>, events: seq<Timed>, target: nat, i: nat)
    requires Run(worlds, events, target) && i < |worlds|
    requires forall j :: 0 <= j < i ==> !LacksTimer(worlds[j], events[j].event)
    ensures UpHaveTimers(worlds[i])
  {
    if i > 0 {
      PingTimersComplete(worlds, events, target, i - 1);
      TimersAgree(worlds, events, target, i - 1);
      var e := events[i - 1];
      TimersStep(worlds[i - 1], e.event, e.at, target, worlds[i]);
    }
  }

  /** A peer that was dialed by its address is booked as connected and has no timer. */
  lemma DialedPeerHasNoTimers(p: PeerId, target: nat) returns (worlds: seq<World>, events: seq<Timed>)
    ensures Run(worlds, events, target)
    ensures
      var w := worlds[|worlds| - 1];
      StatusOf(w.m.peers, p).Connected? && p !in w.m.pings && p !in w.m.statuses
  {
    var w1 := World(START.m.(peers := WithStatus(map[], p, Connected(0, 1))), map[p := 1]);
    worlds := [START, w1];
    events := [Timed(Established(p, false), 0)];
    assert Step(START, Established(p, false), 0, target, w1);
  }

  /* ---- connections that are not booked ---- */

  /** Whoever has a connection is booked as connected. */
  ghost predicate OpenAreBooked(w: World) {
    forall p: PeerId :: Open(w, p) > 0 ==> StatusOf(w.m.peers, p).Connected?
  }

  /** The event is about dialing a peer that has a connection: a new dial, or one that failed. */
  predicate DialsConnected(w: World, e: SwarmEvent) {
    (e.Unreachable? || e.DialingStarted?) && Open(w, e.peer) > 0
  }

  /** Every connection stays booked exactly as long as no such event happens. */
  lemma BookingStep(w: World, e: SwarmEvent, now: nat, target: nat, after: World)
    requires Agreement(w) && OpenAreBooked(w) && Step(w, e, now, target, after)
    ensures OpenAreBooked(after) <==> !DialsConnected(w, e)
  {
    match e
    case Poll(results) =>
      hide Step, ConnectedOrDialing, DisconnectedPeers;
      PolledKeeps(w, results, now, target, after);
    case Closed(p) =>
      if Open(w, p) == 1 { PartedBooks(w, p, now, after); }
      hide NotifyDisconnect, Agreement, WithStatus, StatusOf;
    case Unreachable(p) =>
      PartedBooks(w, p, now, after);
      hide NotifyDisconnect, Agreement, WithStatus, StatusOf;
    case DialingStarted(p) => StatusSet(w.m.peers, p, Dialing(now));
    case Established(p, _) => StatusSet(w.m.peers, p, StatusOf(w.m.peers, p).ConnectOutgoing());
    case Statusd(_) =>
  }

  lemma UpPeer(peers: Peers, p: PeerId)
    ensures p in ConnectedOrDialing(peers) <==> p in peers && peers[p].status.Up()
  {
  }

  lemma StatusSet(peers: Peers, p: PeerId, s: PeerConnectionStatus)
    ensures forall q: PeerId :: StatusOf(WithStatus(peers, p, s), q) == if q == p then s else StatusOf(peers, q)
  {
  }

  /** Of the peers with a connection only the one that parts stops being booked. */
  lemma PartedBooks(w: World, p: PeerId, now: nat, after: World)
    requires Agreement(w) && NotifyDisconnect(w.m, p, now, after.m)
    ensures !StatusOf(after.m.peers, p).Connected?
    ensures forall q: PeerId | q != p :: StatusOf(w.m.peers, q).Connected? ==> StatusOf(after.m.peers, q).Connected?
  {
    hide Shrunk, ConnectedOrDialing, DisconnectedPeers, Parted, WithStatus;
    PartedKeeps(w.m, p, now, after.m);
    forall q: PeerId | q != p && StatusOf(w.m.peers, q).Connected? ensures StatusOf(after.m.peers, q).Connected? {
      UpPeer(w.m.peers, q);
      UpPeer(after.m.peers, q);
    }
  }

  lemma {:induction false} ConnectionsAreBooked(worlds: seq<World>, events: seq<Timed>, target: nat, i: nat)
    requires Run(worlds, events, target) && i < |worlds|
    requires forall j :: 0 <= j < i ==> !DialsConnected(worlds[j], events[j].event)
    ensures OpenAreBooked(worlds[i])
  {
    if i > 0 {
      ConnectionsAreBooked(worlds, events, target, i - 1);
      TimersAgree(worlds, events, target, i - 1);
      var e := events[i - 1];
      BookingStep(worlds[i - 1], e.event, e.at, target, worlds[i]);
    }
  }
}
