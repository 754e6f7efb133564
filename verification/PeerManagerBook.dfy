/** What each swarm event makes of the entries of the peer book, of the deadlines, and of the dials. */
module PeerManagerBook {
  import opened Methods
  import opened PeerDB
  import opened PeerManagerModel
  import opened PeerManagerTheorems

  /* ---- entries ---- */

  /** The status of a peer with one more connection, booked as one we dialed. */
  function OneMoreOutgoing(peers: Peers, p: PeerId): PeerConnectionStatus {
    if p in peers && peers[p].status.Connected?
    then Connected(peers[p].status.nIn, peers[p].status.nOut + 1) else Connected(0, 1)
  }

  /** Results of discovery change ttls alone, and only to later times; peers that are new to the book
      get an entry of their own. */
  ghost predicate OnlyTtls(before: Peers, after: Peers) {
    && before.Keys <= after.Keys
    && (forall q <- before ::
          && after[q].reputation == before[q].reputation && after[q].status == before[q].status
          && (before[q].minTtl.Some? ==>
                after[q].minTtl.Some? && after[q].minTtl.value >= before[q].minTtl.value))
    && (forall q <- after | q !in before ::
          after[q].reputation == 50 && after[q].status == PeerConnectionStatus.Unknown)
  }

  lemma {:induction false} DiscoveredTtls(m: Manager, found: seq<PeerId>, minTtl: Option<nat>, target: nat)
    ensures OnlyTtls(m.peers, PeersDiscovered(m, found, minTtl, target).peers)
    decreases |found|
  {
    if found != [] {
      var front, p := found[..|found| - 1], found[|found| - 1];
      DiscoveredTtls(m, front, minTtl, target);
      var mid := PeersDiscovered(m, front, minTtl, target);
      if minTtl.Some? { WithTtlBooks(mid.peers, p, minTtl.value); }
      hide WithTtl, Wanted;
      if minTtl.Some? { OneTtlMore(m.peers, mid.peers, WithTtl(mid.peers, p, minTtl.value), p, minTtl.value); }
    }
  }

  lemma OneTtlMore(before: Peers, mid: Peers, after: Peers, p: PeerId, ttl: nat)
    requires OnlyTtls(before, mid) && TtlBooked(mid, after, p, ttl)
    ensures OnlyTtls(before, after)
  {
  }

  lemma OnlyTtlsTrans(a: Peers, b: Peers, c: Peers)
    requires OnlyTtls(a, b) && OnlyTtls(b, c)
    ensures OnlyTtls(a, c)
  {
  }

  lemma {:induction false} AllDiscoveredTtls(m: Manager, results: seq<DiscoveryEvent>, target: nat)
    ensures OnlyTtls(m.peers, AllDiscovered(m, results, target).peers)
    decreases |results|
  {
    if results != [] {
      var front, r := results[..|results| - 1], results[|results| - 1];
      AllDiscoveredTtls(m, front, target);
      hide OnlyTtls, PeersDiscovered;
      var mid := AllDiscovered(m, front, target);
      if r.QueryResult? {
        DiscoveredTtls(mid, r.peers, r.minTtl, target);
        OnlyTtlsTrans(m.peers, mid.peers, AllDiscovered(m, results, target).peers);
      }
    }
  }

  /** What a swarm event may do to the book. */
  ghost predicate BookChanges(w: World, e: SwarmEvent, now: nat, before: Peers, after: Peers) {
    match e
    case Established(p, _) =>
      if Open(w, p) == 0 then Rebooked(before, after, p, OneMoreOutgoing(before, p)) else after == before
    case Closed(p) => if Open(w, p) == 1 then Evicted(before, after, p, now) else after == before
    case Unreachable(p) => Evicted(before, after, p, now)
    case DialingStarted(p) => Rebooked(before, after, p, Dialing(now))
    case Statusd(_) => after == before
    case Poll(_) => OnlyTtls(before, after)
  }

  /** Entry by entry: a first connection and a dial change the status of their peer alone; a lost
      one parts the peer, and forgets the worst peer if there are too many; polls change ttls alone. */
  lemma BookStep(w: World, e: SwarmEvent, now: nat, target: nat, after: World)
    requires |DisconnectedPeers(w.m.peers)| <= MAX_DC_PEERS && Step(w, e, now, target, after)
    ensures BookChanges(w, e, now, w.m.peers, after.m.peers)
  {
    hide Shrunk, Evicted, Parted, Rebooked, OnlyTtls, DisconnectedPeers, WithStatus;
    match e
    case Established(p, _) => WithStatusRebooks(w.m.peers, p, StatusOf(w.m.peers, p).ConnectOutgoing());
    case Closed(p) => if Open(w, p) == 1 { ShrunkEvicts(w.m.peers, after.m.peers, p, now); }
    case Unreachable(p) => ShrunkEvicts(w.m.peers, after.m.peers, p, now);
    case DialingStarted(p) => WithStatusRebooks(w.m.peers, p, Dialing(now));
    case Statusd(_) =>
    case Poll(results) =>
      AllDiscoveredTtls(w.m, results, target);
      hide AllDiscovered, Due, Rearmed, Pings, Statuses;
  }

  /** No swarm event changes a reputation: who is in the book before and after has the same, and who
      is new has 50. */
  lemma ReputationsStay(w: World, e: SwarmEvent, now: nat, target: nat, after: World, p: PeerId)
    requires |DisconnectedPeers(w.m.peers)| <= MAX_DC_PEERS && Step(w, e, now, target, after)
    requires p in after.m.peers
    ensures after.m.peers[p].reputation == if p in w.m.peers then w.m.peers[p].reputation else 50
  {
    BookStep(w, e, now, target, after);
    hide Step, DisconnectedPeers, Leavers, PartedStatus, OneMoreOutgoing;
  }

  /** Over every run a reputation other than 50 can only come from a report about the peer. */
  lemma {:induction false} UnreportedReputations(
    worlds: seq<World>, events: seq<Timed>, target: nat, i: nat, p: PeerId)
    requires Run(worlds, events, target) && i < |worlds| && p in worlds[i].m.peers
    ensures worlds[i].m.peers[p].reputation == 50
  {
    if i > 0 {
      TimersAgree(worlds, events, target, i - 1);
      var w, e := worlds[i - 1], events[i - 1];
      AgreementBound(w);
      ReputationsStay(w, e.event, e.at, target, worlds[i], p);
      if p in w.m.peers { UnreportedReputations(worlds, events, target, i - 1, p); }
    }
  }

  /** A ttl is set only by a result of discovery, which never makes it earlier. */
  lemma TtlsOnlyGrow(w: World, e: SwarmEvent, now: nat, target: nat, after: World, p: PeerId)
    requires |DisconnectedPeers(w.m.peers)| <= MAX_DC_PEERS && Step(w, e, now, target, after)
    requires p in w.m.peers && p in after.m.peers && w.m.peers[p].minTtl.Some?
    ensures
      var was, latest := w.m.peers[p].minTtl, after.m.peers[p].minTtl;
      latest.Some? && latest.value >= was.value && (!e.Poll? ==> latest == was)
  {
    hide Step, DisconnectedPeers, BookChanges;
    BookStep(w, e, now, target, after);
    BookTtls(w, e, now, w.m.peers, after.m.peers, p);
  }

  lemma BookTtls(w: World, e: SwarmEvent, now: nat, before: Peers, after: Peers, p: PeerId)
    requires BookChanges(w, e, now, before, after) && p in before && p in after && before[p].minTtl.Some?
    ensures after[p].minTtl.Some? && after[p].minTtl.value >= before[p].minTtl.value
    ensures !e.Poll? ==> after[p].minTtl == before[p].minTtl
  {
    hide Leavers, PartedStatus, OneMoreOutgoing;
  }

  /* ---- deadlines ---- */

  /** The event starts both timers of `p`: the peer connected to us, or we dial it. */
  predicate StartsTimers(w: World, e: SwarmEvent, p: PeerId) {
    || e == DialingStarted(p)
    || (e == Established(p, true) && Open(w, p) == 0)
  }

  /** The event ends both timers of `p`. */
  predicate EndsTimers(w: World, e: SwarmEvent, p: PeerId) {
    e == Unreachable(p) || (e == Closed(p) && Open(w, p) == 1)
  }

  function DeadlineOf(deadlines: map<PeerId, nat>, p: PeerId): Option<nat> {
    if p in deadlines then Some(deadlines[p]) else None
  }

  /** The deadline of a timer after an event, if it runs then. */
  function Expected(was: Option<nat>, starts: bool, ends: bool, polled: bool, now: nat, interval: nat): Option<nat> {
    if starts then Some(now + interval)
    else if ends then None
    else if polled && was.Some? && was.value <= now then Some(now + interval)
    else was
  }

  /** A peer that connects to us or is dialed is to be pinged in 30 seconds and asked for its status
      in 300; whenever one of these is due, the next poll starts it again; a status message starts the
      latter; nothing else touches a timer but the loss of the connection or of the dial. */
  lemma DeadlinesStep(w: World, e: SwarmEvent, now: nat, target: nat, after: World, p: PeerId)
    requires Step(w, e, now, target, after)
    ensures
      DeadlineOf(after.m.pings, p)
      == Expected(DeadlineOf(w.m.pings, p), StartsTimers(w, e, p), EndsTimers(w, e, p), e.Poll?, now, 30)
    ensures
      DeadlineOf(after.m.statuses, p)
      == Expected(DeadlineOf(w.m.statuses, p), StartsTimers(w, e, p) || e == Statusd(p), EndsTimers(w, e, p),
                  e.Poll?, now, 300)
  {
    hide Shrunk, WithStatus, StatusOf, Parted, Polled;
    match e
    case Poll(results) =>
      PollDeadlines(w.m, results, now, target, p);
      PolledDeadlines(w, results, now, target, after);
      hide Step, AllDiscovered, Rearmed;
    case _ =>
  }

  lemma PolledDeadlines(w: World, results: seq<DiscoveryEvent>, now: nat, target: nat, after: World)
    requires Step(w, Poll(results), now, target, after)
    ensures
      var d := AllDiscovered(w.m, results, target);
      after.m.pings == Rearmed(d.pings, now, 30) && after.m.statuses == Rearmed(d.statuses, now, 300)
  {
    hide AllDiscovered, Rearmed, Due, Pings, Statuses;
  }

  lemma PollDeadlines(m: Manager, results: seq<DiscoveryEvent>, now: nat, target: nat, p: PeerId)
    ensures
      var d := AllDiscovered(m, results, target);
      && DeadlineOf(Rearmed(d.pings, now, 30), p) == Expected(DeadlineOf(m.pings, p), false, false, true, now, 30)
      && DeadlineOf(Rearmed(d.statuses, now, 300), p)
         == Expected(DeadlineOf(m.statuses, p), false, false, true, now, 300)
  {
    AllDiscoveredKeeps(m, results, target);
    hide AllDiscovered, SameStatuses;
  }

  /* ---- dials ---- */

  /** A discovered peer is wanted while fewer than `target` peers are connected or being dialed, and
      it is neither, nor banned. */
  lemma WantedPeers(peers: Peers, p: PeerId, target: nat)
    ensures
      Wanted(peers, p, target)
      <==> |set q | q in peers && (peers[q].status.Connected? || peers[q].status.Dialing?)| < target
           && (p in peers ==> peers[p].status.Disconnected? || peers[p].status.Unknown?)
  {
    assert ConnectedOrDialing(peers)
        == set q | q in peers && (peers[q].status.Connected? || peers[q].status.Dialing?);
  }

  /** A peer is dialed once for each time it was found, if it is wanted, and not at all if not. */
  lemma {:induction false} DialedAsFound(m: Manager, found: seq<PeerId>, minTtl: Option<nat>, target: nat, p: PeerId)
    ensures
      var after := PeersDiscovered(m, found, minTtl, target);
      multiset(after.events)[Dial(p)]
      == multiset(m.events)[Dial(p)] + if Wanted(m.peers, p, target) then multiset(found)[p] else 0
  {
    hide Wanted;
    DialsWanted(m, found, minTtl, target);
    DialsCount(m.peers, found, target, p);
  }

  lemma {:induction false} DialsCount(peers: Peers, found: seq<PeerId>, target: nat, p: PeerId)
    ensures
      multiset(WantedOnly(peers, found, target))[Dial(p)]
      == if Wanted(peers, p, target) then multiset(found)[p] else 0
    decreases |found|
  {
    hide Wanted;
    if found != [] {
      var front, last := found[..|found| - 1], found[|found| - 1];
      DialsCount(peers, front, target, p);
      assert found == front + [last];
    }
  }

  /** The wanted peers of a result are needed until its time, and nobody else's ttl changes. */
  lemma {:induction false} TtlsAsFound(m: Manager, found: seq<PeerId>, minTtl: Option<nat>, target: nat, p: PeerId)
    ensures
      var before, after := m.peers, PeersDiscovered(m, found, minTtl, target).peers;
      if minTtl.Some? && p in found && Wanted(before, p, target) then
        && p in after && after[p].minTtl.Some? && after[p].minTtl.value >= minTtl.value
        && (after[p].minTtl == minTtl || (p in before && after[p].minTtl == before[p].minTtl))
      else (p in after <==> p in before) && (p in before ==> after[p] == before[p])
    decreases |found|
  {
    if found != [] {
      var front, last := found[..|found| - 1], found[|found| - 1];
      TtlsAsFound(m, front, minTtl, target, p);
      DialsWanted(m, front, minTtl, target);
      assert found == front + [last];
      var mid := PeersDiscovered(m, front, minTtl, target);
      assert Wanted(mid.peers, last, target) == Wanted(m.peers, last, target);
      if minTtl.Some? { WithTtlBooks(mid.peers, last, minTtl.value); }
      hide WithTtl, Wanted, SameStatuses, WantedOnly;
    }
  }

  /* ---- status events ---- */

  /** A poll asks the application for the status of each peer whose status timer was due, once. */
  lemma OneStatusEach(m: Manager, results: seq<DiscoveryEvent>, target: nat, now: nat,
                      pinged: seq<PeerId>, asked: seq<PeerId>, after: Manager, p: PeerId)
    requires Polled(m, results, target, now, pinged, asked, after)
    ensures
      multiset(after.events)[StatusOfPeer(p)]
      == multiset(AllDiscovered(m, results, target).events)[StatusOfPeer(p)]
         + if p in m.statuses && m.statuses[p] <= now then 1 else 0
  {
    AllDiscoveredKeeps(m, results, target);
    var d := AllDiscovered(m, results, target);
    AskedCount(pinged, asked, p);
    assert multiset(after.events) == multiset(d.events) + multiset(Pings(pinged)) + multiset(Statuses(asked));
    assert multiset(Due(m.statuses, now))[p] == if p in Due(m.statuses, now) then 1 else 0;
  }

  lemma {:induction false} AskedCount(pinged: seq<PeerId>, asked: seq<PeerId>, p: PeerId)
    ensures multiset(Pings(pinged))[StatusOfPeer(p)] == 0
    ensures multiset(Statuses(asked))[StatusOfPeer(p)] == multiset(asked)[p]
    decreases |asked|
  {
    NoneAsked(pinged, p);
    hide Pings;
    if asked != [] {
      var front, last := asked[..|asked| - 1], asked[|asked| - 1];
      AskedCount(pinged, front, p);
      assert asked == front + [last];
    }
  }

  lemma {:induction false} NoneAsked(pinged: seq<PeerId>, p: PeerId)
    ensures multiset(Pings(pinged))[StatusOfPeer(p)] == 0
  {
    if pinged != [] { NoneAsked(pinged[..|pinged| - 1], p); }
  }
}
