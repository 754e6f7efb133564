/** The queue of discovery queries as values: one step of the loop that starts queries, its whole
    effect, and when it ends. */
module DiscoveryModel {
  import opened Methods

  const MAX_CONCURRENT_QUERIES: nat := 1

  datatype Query =
    | Subnet(subnetId: nat, minTtl: Option<nat>, retries: nat)
    | FindPeers
  {
    predicate Expired(now: nat) {
      match this
      case FindPeers => false
      case Subnet(_, Some(ttl), _) => ttl > now
      case Subnet(_, None, _) => true
    }

    /** What sanitizing the queue is documented to remove. */
    predicate OutOfDate(now: nat) { Subnet? && minTtl.Some? && minTtl.value <= now }
  }

  datatype Queries = Queries(queued: seq<Query>, active: seq<Query>, findPeerActive: bool, started: bool)

  function DiscoverPeers(s: Queries): Queries {
    if !s.started || s.findPeerActive || FindPeers in s.queued then s
    else s.(queued := s.queued + [FindPeers])
  }

  function Sanitized(queued: seq<Query>, now: nat): seq<Query> {
    if queued == [] then []
    else (if queued[0].Expired(now) then [] else [queued[0]]) + Sanitized(queued[1..], now)
  }

  predicate AtCapacity(s: Queries) { |s.active| >= MAX_CONCURRENT_QUERIES }

  predicate Busy(s: Queries) { !AtCapacity(s) && s.queued != [] }

  /** One turn of the loop that consumes the queue. */
  function Turn(s: Queries): Queries
    requires s.queued != []
  {
    var s' := s.(queued := s.queued[1..]);
    if s.queued[0].Subnet? then s'
    else if s.findPeerActive then s'.(queued := s'.queued + [FindPeers])
    else s'.(findPeerActive := true, active := s.active + [FindPeers])
  }

  /** After at most `n` turns. */
  function Turns(s: Queries, n: nat): Queries
    decreases n
  {
    if n == 0 || !Busy(s) then s else Turns(Turn(s), n - 1)
  }

  /** The queue behind its first request for peers. */
  function Behind(queued: seq<Query>): seq<Query> {
    if queued == [] then [] else if queued[0].FindPeers? then queued[1..] else Behind(queued[1..])
  }

  /** The loop as a whole, where it ends. */
  function Consumed(s: Queries): Queries {
    if AtCapacity(s) then s
    else if FindPeers in s.queued then
      s.(queued := Behind(s.queued), findPeerActive := true, active := s.active + [FindPeers])
    else s.(queued := [])
  }

  function ProcessQueue(s: Queries, now: nat): Queries {
    Consumed(s.(queued := Sanitized(s.queued, now)))
  }

  datatype Outcome = Found(peers: seq<nat>) | NothingFound | Failed

  /** The first active query is done. */
  function Finished(s: Queries): Queries
    requires s.active != []
  {
    s.(active := s.active[1..], findPeerActive := if s.active[0].FindPeers? then false else s.findPeerActive)
  }

  /** The queries that are ready are consumed until one yields peers. */
  function PollQueries(s: Queries, ready: seq<Outcome>): (Queries, Option<seq<nat>>)
    decreases |ready|
  {
    if s.active == [] || ready == [] then (s, None)
    else
      var s' := Finished(s);
      if s.active[0].FindPeers? && ready[0].Found? && ready[0].peers != [] then (s', Some(ready[0].peers))
      else PollQueries(s', ready[1..])
  }

  function Poll(s: Queries, now: nat, ready: seq<Outcome>): (Queries, Option<seq<nat>>) {
    if !s.started then (s, None) else PollQueries(ProcessQueue(s, now), ready)
  }

  /* ---- one query for peers at a time ---- */

  function CountFind(queued: seq<Query>): nat {
    if queued == [] then 0 else (if queued[0].FindPeers? then 1 else 0) + CountFind(queued[1..])
  }

  /** The flag says whether the one query is active; a request for peers is queued at most once, and
      not while one is active. */
  ghost predicate SingleFlight(s: Queries) {
    && s.active == (if s.findPeerActive then [FindPeers] else [])
    && CountFind(s.queued) <= (if s.findPeerActive then 0 else 1)
  }

  lemma {:induction false} CountFindZero(queued: seq<Query>)
    ensures CountFind(queued) == 0 <==> FindPeers !in queued
  {
    if queued != [] {
      CountFindZero(queued[1..]);
      assert queued == [queued[0]] + queued[1..];
    }
  }

  lemma {:induction false} CountFindAppend(queued: seq<Query>)
    ensures CountFind(queued + [FindPeers]) == CountFind(queued) + 1
  {
    if queued != [] {
      CountFindAppend(queued[1..]);
      assert (queued + [FindPeers])[1..] == queued[1..] + [FindPeers];
    }
  }

  lemma {:induction false} SanitizedCount(queued: seq<Query>, now: nat)
    ensures CountFind(Sanitized(queued, now)) == CountFind(queued)
  {
    if queued != [] {
      SanitizedCount(queued[1..], now);
      var rest := Sanitized(queued[1..], now);
      assert ([queued[0]] + rest)[1..] == rest && [] + rest == rest;
    }
  }

  lemma {:induction false} BehindCount(queued: seq<Query>)
    requires FindPeers in queued
    ensures CountFind(Behind(queued)) == CountFind(queued) - 1
  {
    if !queued[0].FindPeers? {
      assert queued == [queued[0]] + queued[1..];
      BehindCount(queued[1..]);
    }
  }

  datatype Call = Discover | PollCall(at: nat, ready: seq<Outcome>)

  function After(s: Queries, c: Call): Queries {
    match c
    case Discover => DiscoverPeers(s)
    case PollCall(at, ready) => Poll(s, at, ready).0
  }

  lemma DiscoverSingle(s: Queries)
    requires SingleFlight(s)
    ensures SingleFlight(DiscoverPeers(s))
  {
    CountFindZero(s.queued);
    CountFindAppend(s.queued);
  }

  lemma ProcessSingle(s: Queries, now: nat)
    requires SingleFlight(s)
    ensures SingleFlight(ProcessQueue(s, now))
  {
    var kept := Sanitized(s.queued, now);
    SanitizedCount(s.queued, now);
    CountFindZero(kept);
    if FindPeers in kept { BehindCount(kept); }
  }

  lemma {:induction false} QueriesSingle(s: Queries, ready: seq<Outcome>)
    requires SingleFlight(s)
    ensures SingleFlight(PollQueries(s, ready).0)
    decreases |ready|
  {
    if s.active != [] && ready != [] {
      QueriesSingle(s.(active := [], findPeerActive := false), ready[1..]);
    }
  }

  function Run(started: bool, calls: seq<Call>): Queries {
    if calls == [] then Queries([], [], false, started)
    else After(Run(started, calls[..|calls| - 1]), calls[|calls| - 1])
  }

  /** Over every run at most one query is active, the flag says so, and requests do not pile up. */
  lemma {:induction false} OneQueryAtATime(started: bool, calls: seq<Call>)
    ensures SingleFlight(Run(started, calls)) && Run(started, calls).started == started
    ensures !started ==> Run(started, calls) == Queries([], [], false, false)
    decreases |calls|
  {
    if calls != [] {
      var front := calls[..|calls| - 1];
      OneQueryAtATime(started, front);
      var s := Run(started, front);
      match calls[|calls| - 1]
      case Discover => DiscoverSingle(s);
      case PollCall(at, ready) =>
        ProcessSingle(s, at);
        QueriesSingle(ProcessQueue(s, at), ready);
        KeepsStarted(ProcessQueue(s, at), ready);
    }
  }

  lemma {:induction false} KeepsStarted(s: Queries, ready: seq<Outcome>)
    ensures PollQueries(s, ready).0.started == s.started
    decreases |ready|
  {
    if s.active != [] && ready != [] {
      KeepsStarted(Finished(s), ready[1..]);
    }
  }

  /* ---- what comes of a request for peers ---- */

  lemma {:induction false} BehindKeeps(queued: seq<Query>)
    ensures CountFind(queued) <= 1 && FindPeers in queued ==> FindPeers !in Behind(queued)
    ensures forall q <- Behind(queued) :: q in queued
  {
    if queued != [] {
      BehindKeeps(queued[1..]);
      assert queued == [queued[0]] + queued[1..];
      CountFindZero(queued[1..]);
    }
  }

  /** A request for peers is queued, if discovery runs, unless one is queued or active; and nothing
      else changes. */
  lemma RequestIsQueued(s: Queries)
    ensures
      var s' := DiscoverPeers(s);
      && s' == s.(queued := s'.queued) && s.queued <= s'.queued
      && |s'.queued| == |s.queued| + (if s.started && !s.findPeerActive && FindPeers !in s.queued then 1 else 0)
      && (FindPeers in s'.queued <==> FindPeers in s.queued || (s.started && !s.findPeerActive))
  {
  }

  /** Working off the queue leaves a query active exactly if one was active or requested; then the
      request is no longer queued, and the flag is set. */
  lemma RequestIsStarted(s: Queries, now: nat)
    requires SingleFlight(s)
    ensures
      var s' := ProcessQueue(s, now);
      && s'.active == (if s.findPeerActive || FindPeers in s.queued then [FindPeers] else [])
      && s'.findPeerActive == (s'.active != []) && FindPeers !in s'.queued
      && forall q <- s'.queued :: q in s.queued
  {
    var kept := Sanitized(s.queued, now);
    forall q: Query ensures q in kept <==> q in s.queued && (q.FindPeers? || q.OutOfDate(now)) {
      SanitizedKeeps(s.queued, now, q);
    }
    SanitizedCount(s.queued, now);
    CountFindZero(kept);
    BehindKeeps(kept);
  }

  /** The active query ends with its outcome, whatever that is; only peers that were found are handed
      out, all of them and unchanged. */
  lemma PeersAreHandedOut(s: Queries, ready: seq<Outcome>)
    requires SingleFlight(s)
    ensures
      PollQueries(s, ready)
      == if s.findPeerActive && ready != []
         then (s.(active := [], findPeerActive := false),
               if ready[0].Found? && ready[0].peers != [] then Some(ready[0].peers) else None)
         else (s, None)
  {
    if s.active != [] && ready != [] {
      assert s.active[1..] == [];
      assert PollQueries(Finished(s), ready[1..]) == (Finished(s), None);
    }
  }

  /** From the request of the heartbeat to the peers it yields: one poll starts the query, and the
      poll in which the query is ready hands out what was found and leaves room for the next. */
  lemma RequestIsAnswered(s: Queries, now: nat, later: nat, peers: seq<nat>)
    requires SingleFlight(s) && s.started && peers != []
    ensures
      var waits := Poll(DiscoverPeers(s), now, []).0;
      && waits.active == [FindPeers] && waits.findPeerActive
      && Poll(waits, later, [Found(peers)]).1 == Some(peers)
      && Poll(waits, later, [Found(peers)]).0.active == []
  {
    DiscoverSingle(s);
    RequestIsQueued(s);
    var asked := DiscoverPeers(s);
    ProcessSingle(asked, now);
    RequestIsStarted(asked, now);
    var waits := ProcessQueue(asked, now);
    ProcessSingle(waits, later);
    RequestIsStarted(waits, later);
    PeersAreHandedOut(ProcessQueue(waits, later), [Found(peers)]);
    hide ProcessQueue, DiscoverPeers;
  }

  /* ---- the loop ends ---- */

  /** The states from which the loop spins: room for a query, and a request for peers in the queue
      that the flag keeps from starting. */
  predicate Spins(s: Queries) { !AtCapacity(s) && s.findPeerActive && FindPeers in s.queued }

  lemma {:induction false} SpinsOn(s: Queries, n: nat)
    requires Spins(s)
    ensures Spins(Turns(s, n))
    decreases n
  {
    if n > 0 {
      assert s.queued == [s.queued[0]] + s.queued[1..];
      SpinsOn(Turn(s), n - 1);
    }
  }

  lemma {:induction false} Ends(s: Queries, n: nat)
    requires !Spins(s) && n >= |s.queued|
    ensures Turns(s, n) == Consumed(s) && !Busy(Turns(s, n))
    decreases n
  {
    if Busy(s) {
      assert s.queued == [s.queued[0]] + s.queued[1..];
      var next := Turn(s);
      if s.queued[0].FindPeers? {
        assert AtCapacity(next) && (n == 1 || !Busy(next)) && Turns(next, n - 1) == next;
      } else {
        Ends(next, n - 1);
      }
    }
  }

  /** The loop ends, for an arbitrary state, exactly if the state is none of these. */
  lemma EndsIff(s: Queries)
    ensures (exists n: nat :: !Busy(Turns(s, n))) <==> !Spins(s)
  {
    if Spins(s) {
      forall n: nat ensures Busy(Turns(s, n)) { SpinsOn(s, n); }
    } else {
      Ends(s, |s.queued|);
    }
  }

  lemma SingleFlightEnds(s: Queries)
    requires SingleFlight(s)
    ensures !Spins(s)
  {
  }

  /* ---- sanitizing ---- */

  /** Of the subnet queries exactly the out-of-date ones are kept, the opposite of what is
      documented; the two agree on requests for peers. Nothing queues a subnet query in this
      version, so the difference does not show yet. */
  lemma SanitizingIsReversed(q: Query, now: nat)
    ensures q.Subnet? && q.minTtl.Some? ==> (q.Expired(now) <==> !q.OutOfDate(now))
    ensures (q.Expired(now) <==> q.OutOfDate(now)) <==> q.FindPeers?
  {
  }

  lemma {:induction false} SanitizedKeeps(queued: seq<Query>, now: nat, q: Query)
    ensures q in Sanitized(queued, now) <==> q in queued && (q.FindPeers? || q.OutOfDate(now))
  {
    if queued != [] {
      SanitizedKeeps(queued[1..], now, q);
      assert queued == [queued[0]] + queued[1..];
    }
  }
}
