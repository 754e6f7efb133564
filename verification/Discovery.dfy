/** The discovery service's queue, its active queries and the flag, as an object. */
module Discovery {
  import opened Methods
  import opened DiscoveryModel

  class Discovery {
    var queuedQueries: seq<Query>
    var activeQueries: seq<Query>
    var findPeerActive: bool
    const started: bool

    function State(): Queries
      reads this
    {
      Queries(queuedQueries, activeQueries, findPeerActive, started)
    }

    ghost predicate Valid()
      reads this
    {
      SingleFlight(State())
    }

    constructor (started: bool)
      ensures Valid() && State() == Run(started, [])
    {
      queuedQueries := [];
      activeQueries := [];
      findPeerActive := false;
      this.started := started;
    }

    method DiscoverPeers()
      requires Valid()
      modifies this`queuedQueries
      ensures Valid() && State() == DiscoveryModel.DiscoverPeers(old(State()))
    {
      DiscoverSingle(State());
      if !started || findPeerActive { return; }
      var query := FindPeers;
      if query !in queuedQueries { queuedQueries := queuedQueries + [query]; }
    }

    predicate IsAtCapacity()
      reads this
      ensures IsAtCapacity() <==> AtCapacity(State())
    {
      if |activeQueries| >= MAX_CONCURRENT_QUERIES then true else false
    }

    method StartQuery(query: Query)
      modifies this`activeQueries
      ensures activeQueries == old(activeQueries) + [query]
    {
      activeQueries := activeQueries + [query];
    }

    method Sanitize(now: nat)
      modifies this`queuedQueries
      ensures queuedQueries == Sanitized(old(queuedQueries), now)
    {
      var kept := [];
      ghost var all := Sanitized(queuedQueries, now);
      var i := |queuedQueries|;
      while i > 0
        invariant 0 <= i <= |queuedQueries| && kept == Sanitized(queuedQueries[i..], now)
      {
        i := i - 1;
        assert queuedQueries[i..][1..] == queuedQueries[i + 1..];
        if !queuedQueries[i].Expired(now) { kept := [queuedQueries[i]] + kept; }
      }
      assert queuedQueries[0..] == queuedQueries;
      queuedQueries := kept;
    }

    /** The loop ends because of the invariant alone: a request that the flag holds back is never
        queued. */
    method ProcessQueue(now: nat)
      requires Valid()
      modifies this
      ensures Valid() && State() == DiscoveryModel.ProcessQueue(old(State()), now)
    {
      hide Sanitized;
      ProcessSingle(State(), now);
      Sanitize(now);
      ghost var begun := State();
      assert Consumed(begun) == DiscoveryModel.ProcessQueue(old(State()), now);
      SanitizedCount(old(queuedQueries), now);
      SingleFlightEnds(begun);
      ghost var turns := 0;
      Ends(begun, |begun.queued|);
      while !IsAtCapacity() && |queuedQueries| > 0
        invariant turns <= |begun.queued| && |queuedQueries| <= |begun.queued| - turns
        invariant !Spins(State()) && Turns(State(), |begun.queued| - turns) == Consumed(begun)
        decreases |queuedQueries|
      {
        assert queuedQueries == [queuedQueries[0]] + queuedQueries[1..];
        ghost var next := Turn(State());
        var query := queuedQueries[0];
        queuedQueries := queuedQueries[1..];
        match query {
          case FindPeers =>
            if findPeerActive {
              // Here the request would go back into the queue.
              assert false;
            } else {
              findPeerActive := true;
              StartQuery(FindPeers);
            }
          case Subnet(_, _, _) =>
        }
        assert State() == next;
        turns := turns + 1;
      }
    }

    method PollQueries(ready: seq<Outcome>) returns (r: Option<seq<nat>>)
      requires Valid()
      modifies this`activeQueries, this`findPeerActive
      ensures Valid() && (State(), r) == DiscoveryModel.PollQueries(old(State()), ready)
    {
      QueriesSingle(State(), ready);
      var i := 0;
      while |activeQueries| > 0 && i < |ready|
        invariant 0 <= i <= |ready|
        invariant DiscoveryModel.PollQueries(State(), ready[i..]) == DiscoveryModel.PollQueries(old(State()), ready)
        decreases |ready| - i
      {
        var query, outcome := activeQueries[0], ready[i];
        assert ready[i..][0] == outcome && ready[i..][1..] == ready[i + 1..];
        activeQueries := activeQueries[1..];
        i := i + 1;
        match query {
          case FindPeers =>
            findPeerActive := false;
            match outcome {
              case Found(peers) => if |peers| > 0 { return Some(peers); }
              case NothingFound =>
              case Failed =>
            }
          case Subnet(_, _, _) =>
        }
      }
      r := None;
    }

    method Poll(now: nat, ready: seq<Outcome>) returns (r: Option<seq<nat>>)
      requires Valid()
      modifies this
      ensures Valid() && (State(), r) == DiscoveryModel.Poll(old(State()), now, ready)
    {
      if !started { return None; }
      ProcessQueue(now);
      r := PollQueries(ready);
    }
  }
}
