/** The book of known peers: connection states, reputations, and a counter of the disconnected
    peers among them. */
module PeerDB {
  import opened Methods

  /** Max number of disconnected nodes to remember. */
  const MAX_DC_PEERS: nat := 30

  const DEFAULT_REPUTATION: nat := 50
  const MAX_REPUTATION: nat := 255

  type PeerId = nat

  datatype PeerConnectionStatus =
    | Connected(nIn: nat, nOut: nat)
    | Disconnected(since: nat)
    | Banned(since: nat)
    | Dialing(since: nat)
    | Unknown
  {
    function ConnectIngoing(): PeerConnectionStatus {
      match this
      case Connected(nIn, nOut) => Connected(nIn + 1, nOut)
      case _ => Connected(1, 0)
    }

    function ConnectOutgoing(): PeerConnectionStatus {
      match this
      case Connected(nIn, nOut) => Connected(nIn, nOut + 1)
      case _ => Connected(0, 1)
    }

    function Connections(): nat { if Connected? then nIn + nOut else 0 }

    predicate Up() { Connected? || Dialing? }
  }

  /** One more connection than before, whatever its direction, and one in all after any other state. */
  lemma ConnectCounts(s: PeerConnectionStatus)
    ensures s.ConnectIngoing().Connected? && s.ConnectIngoing().Connections() == s.Connections() + 1
    ensures s.ConnectOutgoing().Connected? && s.ConnectOutgoing().Connections() == s.Connections() + 1
    ensures s.Connected? ==> s.ConnectIngoing().nOut == s.nOut && s.ConnectOutgoing().nIn == s.nIn
    ensures !s.Connected? ==> s.ConnectIngoing() == Connected(1, 0) && s.ConnectOutgoing() == Connected(0, 1)
  {
  }

  datatype PeerInfo = PeerInfo(reputation: nat, status: PeerConnectionStatus, minTtl: Option<nat>)

  const NEW_PEER: PeerInfo := PeerInfo(DEFAULT_REPUTATION, PeerConnectionStatus.Unknown, None)

  type Peers = map<PeerId, PeerInfo>

  function InfoOf(peers: Peers, p: PeerId): PeerInfo { if p in peers then peers[p] else NEW_PEER }

  function StatusOf(peers: Peers, p: PeerId): PeerConnectionStatus { InfoOf(peers, p).status }

  function WithStatus(peers: Peers, p: PeerId, s: PeerConnectionStatus): Peers {
    peers[p := InfoOf(peers, p).(status := s)]
  }

  /** The peer is needed at least until `ttl`. */
  function WithTtl(peers: Peers, p: PeerId, ttl: nat): Peers {
    var info := InfoOf(peers, p);
    peers[p := info.(minTtl := Some(if info.minTtl.Some? then Max(ttl, info.minTtl.value) else ttl))]
  }

  function DisconnectedPeers(peers: Peers): set<PeerId> {
    set p | p in peers && peers[p].status.Disconnected?
  }

  function ConnectedOrDialing(peers: Peers): set<PeerId> {
    set p | p in peers && peers[p].status.Up()
  }

  function SaturatingDecrement(n: nat): nat { if n == 0 then 0 else n - 1 }

  /** A reputation after a change, within the bounds of a byte. */
  function Changed(reputation: nat, isGood: bool, diff: nat): nat {
    if isGood then Min(reputation + diff, MAX_REPUTATION) else if reputation <= diff then 0 else reputation - diff
  }

  function Min(a: nat, b: nat): nat { if a <= b then a else b }

  function Max(a: nat, b: nat): nat { if a <= b then b else a }

  /** `after` is `before` without as many disconnected peers as there are too many of them; none
      that stays has a lower reputation than one that went. */
  ghost predicate Shrunk(before: Peers, after: Peers) {
    var gone := DisconnectedPeers(before) - DisconnectedPeers(after);
    && after == before - gone
    && |DisconnectedPeers(after)| == Min(|DisconnectedPeers(before)|, MAX_DC_PEERS)
    && |gone| == |DisconnectedPeers(before)| - |DisconnectedPeers(after)|
    && forall p <- gone, q <- DisconnectedPeers(after) :: before[p].reputation <= before[q].reputation
  }

  /** With one disconnected peer too many, one peer is forgotten, and of the others all is kept. */
  lemma ShrunkByOne(before: Peers, after: Peers)
    requires Shrunk(before, after) && |DisconnectedPeers(before)| <= MAX_DC_PEERS + 1
    ensures |before.Keys - after.Keys| <= 1 && before.Keys - after.Keys <= DisconnectedPeers(before)
    ensures forall p <- after :: p in before && after[p] == before[p]
    ensures |DisconnectedPeers(after)| <= MAX_DC_PEERS && ConnectedOrDialing(after) == ConnectedOrDialing(before)
  {
    assert before.Keys - after.Keys == DisconnectedPeers(before) - DisconnectedPeers(after);
  }

  /** The state a disconnected peer is left in: banned peers stay banned. */
  function Parted(s: PeerConnectionStatus, now: nat): PeerConnectionStatus {
    if s.Disconnected? || s.Banned? then s else Disconnected(now)
  }

  /* ---- what happens to the entries ---- */

  /** The book was changed in the entry of `p` alone. */
  predicate OnlyAt(before: Peers, after: Peers, p: PeerId) {
    after.Keys == before.Keys + {p} && forall q <- before | q != p :: after[q] == before[q]
  }

  /** `p` got status `s` and nothing else changed: who was known keeps reputation and ttl, and who was
      not starts with reputation 50 and none. */
  predicate Rebooked(before: Peers, after: Peers, p: PeerId, s: PeerConnectionStatus) {
    && OnlyAt(before, after, p)
    && after[p] == PeerInfo(ReputationIn(before, p), s, if p in before then before[p].minTtl else None)
  }

  function ReputationIn(peers: Peers, p: PeerId): nat { if p in peers then peers[p].reputation else 50 }

  /** `p` is needed at least until `ttl`, and no earlier than before; nothing else changed. */
  predicate TtlBooked(before: Peers, after: Peers, p: PeerId, ttl: nat) {
    && OnlyAt(before, after, p)
    && after[p].reputation == ReputationIn(before, p)
    && after[p].status == (if p in before then before[p].status else PeerConnectionStatus.Unknown)
    && after[p].minTtl.Some? && after[p].minTtl.value >= ttl
    && (if p in before && before[p].minTtl.Some? then
          after[p].minTtl.value >= before[p].minTtl.value && after[p].minTtl.value in {ttl, before[p].minTtl.value}
        else after[p].minTtl.value == ttl)
  }

  /** The status a peer that parts is left in. */
  function PartedStatus(before: Peers, p: PeerId, now: nat): PeerConnectionStatus {
    if p in before && (before[p].status.Disconnected? || before[p].status.Banned?) then before[p].status
    else Disconnected(now)
  }

  /** The peers that are disconnected once `p` has parted. */
  function Leavers(before: Peers, p: PeerId): set<PeerId> {
    (set q | q in before && before[q].status.Disconnected?)
    + (if p in before && before[p].status.Banned? then {} else {p})
  }

  /** What the loss of `p` makes of the book: whoever stays keeps the entry, `p` with its new status;
      one peer is forgotten if there are more than 30 disconnected ones, and none if not; and by the
      book as it was before, none of the disconnected peers that stay is worse than it. */
  ghost predicate Evicted(before: Peers, after: Peers, p: PeerId, now: nat) {
    var gone := before.Keys + {p} - after.Keys;
    && after.Keys <= before.Keys + {p}
    && (forall q <- after | q != p :: after[q] == before[q])
    && (p in after ==>
          after[p] == PeerInfo(ReputationIn(before, p), PartedStatus(before, p, now),
                               if p in before then before[p].minTtl else None))
    && |gone| == (if |Leavers(before, p)| > 30 then 1 else 0) && gone <= Leavers(before, p)
    && forall q <- gone, r <- Leavers(before, p) - gone :: ReputationIn(before, q) <= ReputationIn(before, r)
  }

  lemma WithStatusRebooks(before: Peers, p: PeerId, s: PeerConnectionStatus)
    ensures Rebooked(before, WithStatus(before, p, s), p, s)
  {
  }

  lemma WithTtlBooks(before: Peers, p: PeerId, ttl: nat)
    ensures TtlBooked(before, WithTtl(before, p, ttl), p, ttl)
  {
  }

  lemma PartedLeavers(before: Peers, p: PeerId, now: nat)
    ensures
      var parted := WithStatus(before, p, Parted(StatusOf(before, p), now));
      && Rebooked(before, parted, p, PartedStatus(before, p, now)) && DisconnectedPeers(parted) == Leavers(before, p)
  {
  }

  /** The disconnected peers are those before and, at most, the one that parts. */
  lemma OneMoreLeaver(before: Peers, p: PeerId)
    ensures |Leavers(before, p)| <= |DisconnectedPeers(before)| + 1
  {
    var d := DisconnectedPeers(before);
    if p in before && before[p].status.Banned? {
      assert Leavers(before, p) == d;
    } else {
      assert Leavers(before, p) == d + {p};
    }
  }

  /** Whom shrinking takes, of the disconnected peers. */
  ghost predicate TakesWorst(peers: Peers, all: set<PeerId>, gone: set<PeerId>) {
    && gone <= all <= peers.Keys && |gone| == (if |all| > 30 then |all| - 30 else 0)
    && forall q <- gone, r <- all - gone :: peers[q].reputation <= peers[r].reputation
  }

  lemma ShrunkTakes(before: Peers, after: Peers)
    requires Shrunk(before, after)
    ensures
      var gone := before.Keys - after.Keys;
      after == before - gone && TakesWorst(before, DisconnectedPeers(before), gone)
  {
    var gone := before.Keys - after.Keys;
    assert gone == DisconnectedPeers(before) - DisconnectedPeers(after);
    assert DisconnectedPeers(before) - gone == DisconnectedPeers(after);
  }

  lemma SameReputations(before: Peers, parted: Peers, p: PeerId, s: PeerConnectionStatus)
    requires Rebooked(before, parted, p, s)
    ensures forall q <- parted :: ReputationIn(before, q) == parted[q].reputation
  {
  }

  lemma TakenEvicts(before: Peers, parted: Peers, p: PeerId, now: nat, gone: set<PeerId>)
    requires Rebooked(before, parted, p, PartedStatus(before, p, now))
    requires TakesWorst(parted, Leavers(before, p), gone) && |Leavers(before, p)| <= 31
    ensures Evicted(before, parted - gone, p, now)
  {
    hide Leavers, PartedStatus;
    SameReputations(before, parted, p, PartedStatus(before, p, now));
    hide ReputationIn;
    assert before.Keys + {p} - (parted - gone).Keys == gone;
  }

  lemma ShrunkEvicts(before: Peers, after: Peers, p: PeerId, now: nat)
    requires |DisconnectedPeers(before)| <= MAX_DC_PEERS
    requires Shrunk(WithStatus(before, p, Parted(StatusOf(before, p), now)), after)
    ensures Evicted(before, after, p, now)
  {
    hide Parted, PartedStatus, WithStatus, StatusOf, Shrunk, Evicted, TakesWorst, Rebooked;
    var parted := WithStatus(before, p, Parted(StatusOf(before, p), now));
    PartedLeavers(before, p, now);
    OneMoreLeaver(before, p);
    ShrunkTakes(parted, after);
    hide Leavers, DisconnectedPeers;
    TakenEvicts(before, parted, p, now, parted.Keys - after.Keys);
  }

  /** The new reputation is the one closest to what was asked for, of those a byte can hold. */
  lemma ClosestReputation(reputation: nat, isGood: bool, diff: nat, n: nat)
    requires reputation <= 255 && n <= 255
    ensures
      var asked, r := if isGood then reputation + diff else reputation - diff, Changed(reputation, isGood, diff);
      r <= 255 && Distance(r, asked) <= Distance(n, asked)
  {
  }

  function Distance(a: int, b: int): nat { if a <= b then b - a else a - b }

  class PeerDB {
    var peers: Peers
    var nDc: nat

    /** The counter counts. */
    ghost predicate Counted()
      reads this
    {
      nDc == |DisconnectedPeers(peers)|
    }

    ghost predicate Valid()
      reads this
    {
      Counted() && nDc <= MAX_DC_PEERS && forall p <- peers :: peers[p].reputation <= MAX_REPUTATION
    }

    constructor ()
      ensures Valid() && peers == map[]
    {
      peers := map[];
      nDc := 0;
    }

    function Status(p: PeerId): PeerConnectionStatus
      reads this
    {
      StatusOf(peers, p)
    }

    predicate IsConnectedOrDialing(p: PeerId)
      reads this
      ensures IsConnectedOrDialing(p) <==> p in ConnectedOrDialing(peers)
    {
      Status(p).Up()
    }

    predicate PeerBanned(p: PeerId)
      reads this
    {
      Status(p).Banned?
    }

    /** Puts a peer in a state other than Disconnected. The saturating subtraction never saturates. */
    method Leave(p: PeerId, s: PeerConnectionStatus)
      requires Valid() && !s.Disconnected?
      modifies this
      ensures Valid() && peers == WithStatus(old(peers), p, s)
      ensures Rebooked(old(peers), peers, p, s)
    {
      WithStatusRebooks(peers, p, s);
      hide Rebooked;
      ghost var before := DisconnectedPeers(peers);
      if Status(p).Disconnected? {
        assert p in before && nDc > 0;
        nDc := SaturatingDecrement(nDc);
      }
      peers := WithStatus(peers, p, s);
      assert DisconnectedPeers(peers) == before - {p};
    }

    method DialingPeer(p: PeerId, now: nat)
      requires Valid()
      modifies this
      ensures Valid() && peers == WithStatus(old(peers), p, Dialing(now))
      ensures Rebooked(old(peers), peers, p, Dialing(now))
    {
      Leave(p, Dialing(now));
    }

    method ConnectIngoing(p: PeerId)
      requires Valid()
      modifies this
      ensures Valid() && peers == WithStatus(old(peers), p, StatusOf(old(peers), p).ConnectIngoing())
      ensures
        var up := p in old(peers) && old(peers)[p].status.Connected?;
        Rebooked(old(peers), peers, p,
                 if up then Connected(old(peers)[p].status.nIn + 1, old(peers)[p].status.nOut) else Connected(1, 0))
    {
      Leave(p, Status(p).ConnectIngoing());
    }

    method ConnectOutgoing(p: PeerId)
      requires Valid()
      modifies this
      ensures Valid() && peers == WithStatus(old(peers), p, StatusOf(old(peers), p).ConnectOutgoing())
      ensures
        var up := p in old(peers) && old(peers)[p].status.Connected?;
        Rebooked(old(peers), peers, p,
                 if up then Connected(old(peers)[p].status.nIn, old(peers)[p].status.nOut + 1) else Connected(0, 1))
    {
      Leave(p, Status(p).ConnectOutgoing());
    }

    method Ban(p: PeerId, now: nat)
      requires Valid()
      modifies this
      ensures Valid() && peers == WithStatus(old(peers), p, Banned(now))
      ensures Rebooked(old(peers), peers, p, Banned(now))
    {
      Leave(p, Banned(now));
    }

    /** Records that the peer left and counts it. */
    method Part(p: PeerId, now: nat)
      requires Valid()
      modifies this
      ensures Counted() && nDc <= MAX_DC_PEERS + 1
      ensures peers == WithStatus(old(peers), p, Parted(StatusOf(old(peers), p), now))
      ensures forall q <- peers :: peers[q].reputation <= MAX_REPUTATION
    {
      ghost var before := DisconnectedPeers(peers);
      if !Status(p).Disconnected? && !Status(p).Banned? {
        peers := WithStatus(peers, p, Disconnected(now));
        assert DisconnectedPeers(peers) == before + {p};
        nDc := nDc + 1;
      } else {
        peers := WithStatus(peers, p, Status(p));
        assert DisconnectedPeers(peers) == before;
      }
    }

    /** At most one peer is forgotten. */
    method Disconnect(p: PeerId, now: nat)
      requires Valid()
      modifies this
      ensures Valid()
      ensures
        var parted := WithStatus(old(peers), p, Parted(StatusOf(old(peers), p), now));
        Shrunk(parted, peers) && |parted.Keys - peers.Keys| <= 1
      ensures Evicted(old(peers), peers, p, now)
    {
      hide Shrunk, WithStatus, Parted, StatusOf, DisconnectedPeers, Evicted;
      ghost var before := peers;
      Part(p, now);
      ghost var parted := peers;
      ShrinkToFit();
      ShrunkByOne(parted, peers);
      ShrunkEvicts(before, peers, p, now);
    }

    /** A disconnected peer no other disconnected peer is worse than. Which one, if there are
        several, depends on the order of the hash map. */
    method Worst() returns (worst: PeerId)
      requires DisconnectedPeers(peers) != {}
      ensures worst in DisconnectedPeers(peers)
      ensures forall q <- DisconnectedPeers(peers) :: peers[worst].reputation <= peers[q].reputation
    {
      var todo := DisconnectedPeers(peers);
      worst :| worst in todo;
      todo := todo - {worst};
      while todo != {}
        invariant worst in DisconnectedPeers(peers) && todo <= DisconnectedPeers(peers)
        invariant forall q <- DisconnectedPeers(peers) - todo :: peers[worst].reputation <= peers[q].reputation
        decreases |todo|
      {
        var q :| q in todo;
        if peers[q].reputation < peers[worst].reputation { worst := q; }
        todo := todo - {q};
      }
    }

    /** Called in any state in which the counter counts, it finds a peer to drop as often as it
        needs one. */
    method ShrinkToFit()
      requires Counted()
      modifies this
      ensures Counted() && Shrunk(old(peers), peers) && nDc == Min(old(nDc), MAX_DC_PEERS)
    {
      ghost var all := DisconnectedPeers(peers);
      assert peers == peers - (all - all) && |all - all| == 0;
      while nDc > MAX_DC_PEERS
        invariant Counted() && Min(old(nDc), MAX_DC_PEERS) <= nDc <= old(nDc)
        invariant DisconnectedPeers(peers) <= all
        invariant peers == old(peers) - (all - DisconnectedPeers(peers))
        invariant |all - DisconnectedPeers(peers)| == old(nDc) - nDc
        invariant forall p <- all - DisconnectedPeers(peers), q <- DisconnectedPeers(peers) ::
                    old(peers)[p].reputation <= old(peers)[q].reputation
      {
        ghost var kept := DisconnectedPeers(peers);
        var toDrop := Worst();
        peers := peers - {toDrop};
        nDc := SaturatingDecrement(nDc);
        assert DisconnectedPeers(peers) == kept - {toDrop};
        assert all - DisconnectedPeers(peers) == (all - kept) + {toDrop};
      }
    }

    /** Only a later time replaces the one on record. A peer not known yet is now. */
    method UpdateMinTtl(p: PeerId, minTtl: nat)
      requires Valid()
      modifies this`peers
      ensures Valid()
      ensures peers == WithTtl(old(peers), p, minTtl) && TtlBooked(old(peers), peers, p, minTtl)
    {
      WithTtlBooks(peers, p, minTtl);
      ghost var before := DisconnectedPeers(peers);
      var info := InfoOf(peers, p);
      if info.minTtl.None? || minTtl > info.minTtl.value { info := info.(minTtl := Some(minTtl)); }
      peers := peers[p := info];
      assert DisconnectedPeers(peers) == before;
    }

    /** Reputations stay between 0 and 255. Unknown peers stay unknown. */
    method AddReputation(p: PeerId, isGood: bool, diff: nat)
      requires Valid() && diff <= MAX_REPUTATION
      modifies this`peers
      ensures Valid() && peers.Keys == old(peers).Keys
      ensures forall q <- peers ::
                peers[q] == if q != p then old(peers)[q]
                            else old(peers)[q].(reputation := Changed(old(peers)[q].reputation, isGood, diff))
    {
      if p !in peers { return; }
      ghost var before := DisconnectedPeers(peers);
      peers := peers[p := peers[p].(reputation := Changed(peers[p].reputation, isGood, diff))];
      assert DisconnectedPeers(peers) == before;
    }
  }
}
