/** The peer manager and the loop that feeds it swarm events, as objects. */
module PeerManager {
  import opened Methods
  import opened PeerDB
  import opened PeerManagerModel
  import opened HashSetDelay
  import DiscoveryModel
  import Discovery

  class PeerManager {
    const peers: PeerDB
    const pingPeers: HashSetDelay<PeerId>
    const statusPeers: HashSetDelay<PeerId>
    const targetPeers: nat
    var events: seq<Event>

    ghost predicate Valid()
      reads this, peers, pingPeers, statusPeers
    {
      && peers.Valid() && pingPeers.Valid() && statusPeers.Valid() && pingPeers != statusPeers
      && pingPeers.defaultEntryTimeout == PING_INTERVAL && statusPeers.defaultEntryTimeout == STATUS_INTERVAL
    }

    ghost function State(): Manager
      reads this, peers, pingPeers, statusPeers
      requires Valid()
    {
      Manager(peers.peers, pingPeers.Deadlines(), statusPeers.Deadlines(), events)
    }

    constructor (targetPeers: nat)
      ensures Valid() && State() == START.m && this.targetPeers == targetPeers
      ensures fresh(peers) && fresh(pingPeers) && fresh(statusPeers)
    {
      this.targetPeers := targetPeers;
      events := [];
      peers := new PeerDB();
      pingPeers := new HashSetDelay(PING_INTERVAL);
      statusPeers := new HashSetDelay(STATUS_INTERVAL);
    }

    method NotifyDisconnect(p: PeerId, now: nat)
      requires Valid()
      modifies peers, pingPeers, statusPeers
      ensures Valid() && PeerManagerModel.NotifyDisconnect(old(State()), p, now, State())
    {
      hide Shrunk, Evicted, WithStatus, DisconnectedPeers, DeadlinesOf, Linked, After, Instants, PossibleRun;
      peers.Disconnect(p, now);
      var _ := pingPeers.Remove(p);
      var _ := statusPeers.Remove(p);
    }

    method ConnectPeer(p: PeerId, connection: ConnectingType, now: nat)
      requires Valid()
      modifies peers, pingPeers, statusPeers
      ensures Valid() && State() == PeerManagerModel.ConnectPeer(old(State()), p, connection, now)
    {
      hide DisconnectedPeers, WithStatus, Rebooked, DeadlinesOf, Linked, After, Instants, PossibleRun;
      match connection {
        case DialingIt => peers.DialingPeer(p, now);
        case IngoingConnected => peers.ConnectOutgoing(p);
        case OutgoingConnected => peers.ConnectIngoing(p);
      }
      pingPeers.Insert(p, now);
      statusPeers.Insert(p, now);
    }

    method PeerStatusd(p: PeerId, now: nat)
      requires Valid()
      modifies statusPeers
      ensures Valid() && State() == old(State()).(statuses := old(State()).statuses[p := now + STATUS_INTERVAL])
    {
      hide DisconnectedPeers, DeadlinesOf, Linked, After, Instants, PossibleRun;
      statusPeers.Insert(p, now);
    }

    method PeersDiscovered(found: seq<PeerId>, minTtl: Option<nat>)
      requires Valid()
      modifies this`events, peers`peers
      ensures Valid() && State() == PeerManagerModel.PeersDiscovered(old(State()), found, minTtl, targetPeers)
    {
      hide DisconnectedPeers, DeadlinesOf, Linked, After, Instants, PossibleRun, WithTtl, TtlBooked, ConnectedOrDialing;
      assert found[..0] == [];
      for i := 0 to |found|
        invariant Valid()
        invariant State() == PeerManagerModel.PeersDiscovered(old(State()), found[..i], minTtl, targetPeers)
      {
        assert found[..i + 1][..i] == found[..i];
        var p := found[i];
        if |ConnectedOrDialing(peers.peers)| < targetPeers && !peers.IsConnectedOrDialing(p) && !peers.PeerBanned(p) {
          if minTtl.Some? { peers.UpdateMinTtl(p, minTtl.value); }
          events := events + [Dial(p)];
        }
      }
      assert found[..|found|] == found;
    }

    /** Starts the ping timers that have run out again, and queues a ping for each: a started timer
        does not run out at once, so that the loop ends. */
    method PollPings(now: nat) returns (ghost pinged: seq<PeerId>)
      requires Valid()
      modifies this`events, pingPeers
      ensures Valid()
      ensures multiset(pinged) == multiset(Due(old(State()).pings, now))
      ensures State() == old(State()).(
                pings := Rearmed(old(State()).pings, now, PING_INTERVAL), events := old(events) + Pings(pinged))
    {
      hide DeadlinesOf, Linked, After, Instants, PossibleRun, DisconnectedPeers;
      hide Due, PartlyRearmed, Rearmed, Pings, Statuses;
      NoneYet();
      ghost var was, done: set<PeerId> := pingPeers.Deadlines(), {};
      RearmStart(was, now, PING_INTERVAL);
      pinged := [];
      while true
        invariant Valid() && done <= Due(was, now) && multiset(pinged) == multiset(done)
        invariant State() == old(State()).(
                    pings := PartlyRearmed(was, done, now, PING_INTERVAL), events := old(events) + Pings(pinged))
        decreases |Due(was, now) - done|
      {
        var next := pingPeers.PollNext(now);
        match next {
          case Some(Ok(p)) =>
            RearmStep(was, done, now, PING_INTERVAL, p);
            pingPeers.Insert(p, now);
            events := events + [Ping(p)];
            OneMore(pinged, p);
            pinged, done := pinged + [p], done + {p};
          case Some(Err(_)) => assert false;
          case None =>
            RearmEnd(was, done, now, PING_INTERVAL);
            return;
        }
      }
    }

    method PollStatuses(now: nat) returns (ghost asked: seq<PeerId>)
      requires Valid()
      modifies this`events, statusPeers
      ensures Valid()
      ensures multiset(asked) == multiset(Due(old(State()).statuses, now))
      ensures State() == old(State()).(
                statuses := Rearmed(old(State()).statuses, now, STATUS_INTERVAL),
                events := old(events) + Statuses(asked))
    {
      hide DeadlinesOf, Linked, After, Instants, PossibleRun, DisconnectedPeers;
      hide Due, PartlyRearmed, Rearmed, Pings, Statuses;
      NoneYet();
      ghost var was, done: set<PeerId> := statusPeers.Deadlines(), {};
      RearmStart(was, now, STATUS_INTERVAL);
      asked := [];
      while true
        invariant Valid() && done <= Due(was, now) && multiset(asked) == multiset(done)
        invariant State() == old(State()).(
                    statuses := PartlyRearmed(was, done, now, STATUS_INTERVAL),
                    events := old(events) + Statuses(asked))
        decreases |Due(was, now) - done|
      {
        var next := statusPeers.PollNext(now);
        match next {
          case Some(Ok(p)) =>
            RearmStep(was, done, now, STATUS_INTERVAL, p);
            statusPeers.Insert(p, now);
            events := events + [StatusOfPeer(p)];
            OneMore(asked, p);
            asked, done := asked + [p], done + {p};
          case Some(Err(_)) => assert false;
          case None =>
            RearmEnd(was, done, now, STATUS_INTERVAL);
            return;
        }
      }
    }

    /** The heartbeat asks discovery for peers while there are too few. */
    method Heartbeat(discovery: Discovery.Discovery)
      requires Valid() && discovery.Valid()
      modifies discovery`queuedQueries
      ensures discovery.Valid()
      ensures
        discovery.State()
        == if |ConnectedOrDialing(peers.peers)| < targetPeers then
             DiscoveryModel.DiscoverPeers(old(discovery.State()))
           else old(discovery.State())
    {
      var peerCount := |ConnectedOrDialing(peers.peers)|;
      if peerCount < targetPeers { discovery.DiscoverPeers(); }
    }

    /** One poll: everything that came up is turned into events, of which the oldest is handed out. */
    method PollNext(results: seq<DiscoveryEvent>, now: nat) returns (r: Option<Event>, ghost polled: Manager,
                                                                ghost pinged: seq<PeerId>, ghost asked: seq<PeerId>)
      requires Valid()
      modifies this`events, peers`peers, pingPeers, statusPeers
      ensures Valid() && Polled(old(State()), results, targetPeers, now, pinged, asked, polled)
      ensures r == if polled.events == [] then None else Some(polled.events[0])
      ensures State() == if polled.events == [] then polled else polled.(events := polled.events[1..])
    {
      hide DeadlinesOf, Linked, After, Instants, PossibleRun, DisconnectedPeers, PeerManagerModel.PeersDiscovered;
      hide Due, Rearmed, Pings, Statuses;
      assert results[..0] == [];
      for i := 0 to |results|
        invariant Valid() && State() == AllDiscovered(old(State()), results[..i], targetPeers)
      {
        assert results[..i + 1][..i] == results[..i];
        match results[i] {
          case QueryResult(minTtl, found) => PeersDiscovered(found, minTtl);
          case NewSocket(address) => events := events + [SocketUpdated(address)];
        }
      }
      assert results[..|results|] == results;
      pinged := PollPings(now);
      asked := PollStatuses(now);
      polled := State();
      if events != [] {
        r := Some(events[0]);
        events := events[1..];
      } else {
        r := None;
      }
    }
  }

  /** The event loop of the service, with the number of connections of each peer as libp2p reports it. */
  class Service {
    const peerManager: PeerManager
    ghost var open: map<PeerId, nat>

    constructor (targetPeers: nat)
      ensures peerManager.Valid() && CurrentWorld() == START && peerManager.targetPeers == targetPeers
      ensures fresh(peerManager) && fresh(peerManager.peers)
      ensures fresh(peerManager.pingPeers) && fresh(peerManager.statusPeers)
    {
      peerManager := new PeerManager(targetPeers);
      open := map[];
    }

    ghost function CurrentWorld(): World
      reads this, peerManager, peerManager.peers, peerManager.pingPeers, peerManager.statusPeers
      requires peerManager.Valid()
    {
      World(peerManager.State(), open)
    }

    method OnConnectionEstablished(p: PeerId, listener: bool, numEstablished: nat, now: nat)
      requires peerManager.Valid() && numEstablished == Open(CurrentWorld(), p) + 1
      modifies this`open, peerManager.peers, peerManager.pingPeers, peerManager.statusPeers
      ensures peerManager.Valid()
      ensures Step(old(CurrentWorld()), Established(p, listener), now, peerManager.targetPeers, CurrentWorld())
    {
      hide DeadlinesOf, Linked, After, Instants, PossibleRun, DisconnectedPeers, WithStatus, Rebooked;
      if numEstablished == 1 {
        if listener {
          peerManager.ConnectPeer(p, IngoingConnected, now);
        } else {
          peerManager.peers.ConnectOutgoing(p);
        }
      }
      open := open[p := numEstablished];
    }

    method OnConnectionClosed(p: PeerId, numEstablished: nat, now: nat)
      requires peerManager.Valid() && numEstablished == Open(CurrentWorld(), p) - 1
      modifies this`open, peerManager.peers, peerManager.pingPeers, peerManager.statusPeers
      ensures peerManager.Valid() && Step(old(CurrentWorld()), Closed(p), now, peerManager.targetPeers, CurrentWorld())
    {
      hide DeadlinesOf, Linked, After, Instants, PossibleRun, DisconnectedPeers, NotifyDisconnect;
      if numEstablished == 0 { peerManager.NotifyDisconnect(p, now); }
      open := open[p := numEstablished];
    }

    method OnUnreachableAddr(p: PeerId, now: nat)
      requires peerManager.Valid()
      modifies peerManager.peers, peerManager.pingPeers, peerManager.statusPeers
      ensures peerManager.Valid()
      ensures Step(old(CurrentWorld()), Unreachable(p), now, peerManager.targetPeers, CurrentWorld())
    {
      hide DeadlinesOf, Linked, After, Instants, PossibleRun, DisconnectedPeers, NotifyDisconnect;
      peerManager.NotifyDisconnect(p, now);
    }

    method OnDialing(p: PeerId, now: nat)
      requires peerManager.Valid()
      modifies peerManager.peers, peerManager.pingPeers, peerManager.statusPeers
      ensures peerManager.Valid()
      ensures Step(old(CurrentWorld()), DialingStarted(p), now, peerManager.targetPeers, CurrentWorld())
    {
      hide DeadlinesOf, Linked, After, Instants, PossibleRun, DisconnectedPeers;
      peerManager.ConnectPeer(p, DialingIt, now);
    }

    /** A status message reached the behaviour. */
    method OnStatus(p: PeerId, now: nat)
      requires peerManager.Valid()
      modifies peerManager.statusPeers
      ensures peerManager.Valid()
      ensures Step(old(CurrentWorld()), Statusd(p), now, peerManager.targetPeers, CurrentWorld())
    {
      hide DeadlinesOf, Linked, After, Instants, PossibleRun, DisconnectedPeers;
      peerManager.PeerStatusd(p, now);
    }

    /** The behaviour polls its peer manager. */
    method OnPoll(results: seq<DiscoveryEvent>, now: nat) returns (r: Option<Event>)
      requires peerManager.Valid()
      modifies peerManager`events, peerManager.peers`peers, peerManager.pingPeers, peerManager.statusPeers
      ensures peerManager.Valid()
      ensures
        Step(old(CurrentWorld()), SwarmEvent.Poll(results), now, peerManager.targetPeers, CurrentWorld())
    {
      hide DeadlinesOf, Linked, After, Instants, PossibleRun, DisconnectedPeers, Polled;
      ghost var polled, pinged, asked;
      r, polled, pinged, asked := peerManager.PollNext(results, now);
    }
  }
}
