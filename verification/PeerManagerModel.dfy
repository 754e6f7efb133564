/** The peer manager as values, and what the swarm does to it. */
module PeerManagerModel {
  import opened Methods
  import opened PeerDB

  const PING_INTERVAL: nat := 30
  const STATUS_INTERVAL: nat := 300

  datatype Event =
    | Dial(peer: PeerId)
    | Ping(peer: PeerId)
    | StatusOfPeer(peer: PeerId)
    | SocketUpdated(address: nat)

  /** The peer book, the deadlines of the ping and the status timers, and the events to produce. */
  datatype Manager = Manager(
    peers: Peers, pings: map<PeerId, nat>, statuses: map<PeerId, nat>, events: seq<Event>)

  /* ---- connections ---- */

  datatype ConnectingType = DialingIt | IngoingConnected | OutgoingConnected

  /** An ingoing connection is booked as outgoing and the other way round. */
  function ConnectedAs(s: PeerConnectionStatus, c: ConnectingType, now: nat): PeerConnectionStatus {
    match c
    case DialingIt => Dialing(now)
    case IngoingConnected => s.ConnectOutgoing()
    case OutgoingConnected => s.ConnectIngoing()
  }

  function ConnectPeer(m: Manager, p: PeerId, c: ConnectingType, now: nat): Manager {
    m.(peers := WithStatus(m.peers, p, ConnectedAs(StatusOf(m.peers, p), c, now)),
       pings := m.pings[p := now + PING_INTERVAL],
       statuses := m.statuses[p := now + STATUS_INTERVAL])
  }

  ghost predicate NotifyDisconnect(m: Manager, p: PeerId, now: nat, after: Manager) {
    && Shrunk(WithStatus(m.peers, p, Parted(StatusOf(m.peers, p), now)), after.peers)
    && after == m.(peers := after.peers, pings := m.pings - {p}, statuses := m.statuses - {p})
  }

  /* ---- discovered peers ---- */

  predicate Wanted(peers: Peers, p: PeerId, target: nat) {
    && |ConnectedOrDialing(peers)| < target
    && !StatusOf(peers, p).Up() && !StatusOf(peers, p).Banned?
  }

  function PeersDiscovered(m: Manager, found: seq<PeerId>, minTtl: Option<nat>, target: nat): Manager {
    if found == [] then m
    else
      var m := PeersDiscovered(m, found[..|found| - 1], minTtl, target);
      var p := found[|found| - 1];
      if Wanted(m.peers, p, target) then
        m.(peers := if minTtl.Some? then WithTtl(m.peers, p, minTtl.value) else m.peers, events := m.events + [Dial(p)])
      else m
  }

  /** What discovery has to tell: the result of a query, or a new address of our own. */
  datatype DiscoveryEvent = QueryResult(minTtl: Option<nat>, peers: seq<PeerId>) | NewSocket(address: nat)

  function Discovered(m: Manager, e: DiscoveryEvent, target: nat): Manager {
    match e
    case QueryResult(minTtl, peers) => PeersDiscovered(m, peers, minTtl, target)
    case NewSocket(address) => m.(events := m.events + [SocketUpdated(address)])
  }

  function AllDiscovered(m: Manager, results: seq<DiscoveryEvent>, target: nat): Manager {
    if results == [] then m
    else Discovered(AllDiscovered(m, results[..|results| - 1], target), results[|results| - 1], target)
  }

  function WantedOnly(peers: Peers, found: seq<PeerId>, target: nat): seq<Event> {
    if found == [] then []
    else
      var p := found[|found| - 1];
      WantedOnly(peers, found[..|found| - 1], target) + (if Wanted(peers, p, target) then [Dial(p)] else [])
  }

  ghost predicate SameStatuses(peers: Peers, others: Peers) {
    && (forall p :: StatusOf(peers, p) == StatusOf(others, p))
    && peers.Keys <= others.Keys
    && ConnectedOrDialing(peers) == ConnectedOrDialing(others)
    && DisconnectedPeers(peers) == DisconnectedPeers(others)
  }

  lemma TtlKeepsStatuses(peers: Peers, p: PeerId, ttl: nat)
    ensures SameStatuses(peers, WithTtl(peers, p, ttl))
  {
  }

  /** Which peers are dialed is settled when the results come in: those that are wanted then, in the
      order found. Dials of the same batch do not count towards the target. */
  lemma {:induction false} DialsWanted(m: Manager, found: seq<PeerId>, minTtl: Option<nat>, target: nat)
    ensures
      var after := PeersDiscovered(m, found, minTtl, target);
      && SameStatuses(m.peers, after.peers)
      && after.events == m.events + WantedOnly(m.peers, found, target)
      && after.pings == m.pings && after.statuses == m.statuses
    decreases |found|
  {
    if found != [] {
      var front, p := found[..|found| - 1], found[|found| - 1];
      DialsWanted(m, front, minTtl, target);
      var before := PeersDiscovered(m, front, minTtl, target);
      if minTtl.Some? { TtlKeepsStatuses(before.peers, p, minTtl.value); }
      assert Wanted(before.peers, p, target) == Wanted(m.peers, p, target);
    }
  }

  lemma {:induction false} AllDiscoveredKeeps(m: Manager, results: seq<DiscoveryEvent>, target: nat)
    ensures
      var after := AllDiscovered(m, results, target);
      && SameStatuses(m.peers, after.peers) && after.pings == m.pings && after.statuses == m.statuses
      && m.events <= after.events
    decreases |results|
  {
    if results != [] {
      var front, r := results[..|results| - 1], results[|results| - 1];
      AllDiscoveredKeeps(m, front, target);
      if r.QueryResult? { DialsWanted(AllDiscovered(m, front, target), r.peers, r.minTtl, target); }
    }
  }

  /* ---- timers ---- */

  function Due(deadlines: map<PeerId, nat>, now: nat): set<PeerId> {
    set p | p in deadlines && deadlines[p] <= now
  }

  /** Every timer that is due is started again. */
  function Rearmed(deadlines: map<PeerId, nat>, now: nat, interval: nat): map<PeerId, nat> {
    map p | p in deadlines :: if deadlines[p] <= now then now + interval else deadlines[p]
  }

  function Pings(order: seq<PeerId>): (r: seq<Event>)
    ensures |r| == |order|
  {
    if order == [] then [] else Pings(order[..|order| - 1]) + [Ping(order[|order| - 1])]
  }

  function Statuses(order: seq<PeerId>): (r: seq<Event>)
    ensures |r| == |order|
  {
    if order == [] then [] else Statuses(order[..|order| - 1]) + [StatusOfPeer(order[|order| - 1])]
  }

  /** One poll, before an event is handed out: results of discovery, then one ping event and one
      status event for each peer whose timer is due, in some order. */
  ghost predicate Polled(m: Manager, results: seq<DiscoveryEvent>, target: nat, now: nat,
                         pinged: seq<PeerId>, asked: seq<PeerId>, after: Manager)
  {
    var d := AllDiscovered(m, results, target);
    && multiset(pinged) == multiset(Due(d.pings, now))
    && multiset(asked) == multiset(Due(d.statuses, now))
    && after == d.(pings := Rearmed(d.pings, now, PING_INTERVAL), statuses := Rearmed(d.statuses, now, STATUS_INTERVAL),
                   events := d.events + Pings(pinged) + Statuses(asked))
  }

  /** On the way there: the timers in `done` were started again. */
  function PartlyRearmed(was: map<PeerId, nat>, done: set<PeerId>, now: nat, interval: nat): map<PeerId, nat> {
    map p | p in was :: if p in done then now + interval else was[p]
  }

  lemma RearmStep(was: map<PeerId, nat>, done: set<PeerId>, now: nat, interval: nat, p: PeerId)
    requires interval > 0
    requires var m := PartlyRearmed(was, done, now, interval); p in m && m[p] <= now
    ensures p in Due(was, now) && p !in done
    ensures (PartlyRearmed(was, done, now, interval) - {p})[p := now + interval]
         == PartlyRearmed(was, done + {p}, now, interval)
    ensures |Due(was, now) - (done + {p})| < |Due(was, now) - done|
    ensures multiset(done + {p}) == multiset(done) + multiset{p}
  {
    assert Due(was, now) - done == (Due(was, now) - (done + {p})) + {p};
  }

  lemma RearmEnd(was: map<PeerId, nat>, done: set<PeerId>, now: nat, interval: nat)
    requires done <= Due(was, now)
    requires var m := PartlyRearmed(was, done, now, interval); forall p <- m :: m[p] > now
    ensures done == Due(was, now) && PartlyRearmed(was, done, now, interval) == Rearmed(was, now, interval)
  {
    var m := PartlyRearmed(was, done, now, interval);
    forall p <- Due(was, now) ensures p in done { assert p in m; }
  }

  lemma RearmStart(was: map<PeerId, nat>, now: nat, interval: nat)
    ensures PartlyRearmed(was, {}, now, interval) == was
  {
  }

  lemma NoneYet()
    ensures Pings([]) == [] && Statuses([]) == []
  {
  }

  lemma OneMore(order: seq<PeerId>, p: PeerId)
    ensures Pings(order + [p]) == Pings(order) + [Ping(p)]
    ensures Statuses(order + [p]) == Statuses(order) + [StatusOfPeer(p)]
  {
    assert (order + [p])[..|order|] == order;
  }

  lemma RearmedKeeps(deadlines: map<PeerId, nat>, now: nat, interval: nat)
    requires interval > 0
    ensures Rearmed(deadlines, now, interval).Keys == deadlines.Keys
    ensures Due(Rearmed(deadlines, now, interval), now) == {}
  {
  }

  /* ---- the swarm ---- */

  datatype SwarmEvent =
    | Established(peer: PeerId, listener: bool)
    | Closed(peer: PeerId)
    | Unreachable(peer: PeerId)
    | DialingStarted(peer: PeerId)
    | Statusd(peer: PeerId)
    | Poll(results: seq<DiscoveryEvent>)

  /** The manager and the number of connections libp2p holds open for each peer. */
  datatype World = World(m: Manager, open: map<PeerId, nat>)

  function Open(w: World, p: PeerId): nat { if p in w.open then w.open[p] else 0 }

  /** Only the first connection and the loss of the last one reach the peer book. A connection we
      dialed is booked without starting timers. */
  ghost predicate Step(w: World, e: SwarmEvent, now: nat, target: nat, after: World) {
    match e
    case Established(p, listener) =>
      && after.open == w.open[p := Open(w, p) + 1]
      && after.m == (if Open(w, p) > 0 then w.m
                     else if listener then ConnectPeer(w.m, p, IngoingConnected, now)
                     else w.m.(peers := WithStatus(w.m.peers, p, StatusOf(w.m.peers, p).ConnectOutgoing())))
    case Closed(p) =>
      && Open(w, p) > 0 && after.open == w.open[p := Open(w, p) - 1]
      && if Open(w, p) == 1 then NotifyDisconnect(w.m, p, now, after.m) else after.m == w.m
    case Unreachable(p) => after.open == w.open && NotifyDisconnect(w.m, p, now, after.m)
    case DialingStarted(p) => after == w.(m := ConnectPeer(w.m, p, DialingIt, now))
    case Statusd(p) => after == w.(m := w.m.(statuses := w.m.statuses[p := now + STATUS_INTERVAL]))
    case Poll(results) =>
      exists polled: Manager, pinged: seq<PeerId>, asked: seq<PeerId> ::
        && Polled(w.m, results, target, now, pinged, asked, polled)
        && after == w.(m := if polled.events == [] then polled else polled.(events := polled.events[1..]))
  }

  const START: World := World(Manager(map[], map[], map[], []), map[])

  datatype Timed = Timed(event: SwarmEvent, at: nat)

  /** A run visits one world more than it has events. */
  ghost predicate Run(worlds: seq<World>, events: seq<Timed>, target: nat) {
    && |worlds| == |events| + 1 && worlds[0] == START
    && forall i :: 0 <= i < |events| ==> Step(worlds[i], events[i].event, events[i].at, target, worlds[i + 1])
  }
}
