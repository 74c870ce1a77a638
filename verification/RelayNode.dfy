/** Further guarantees of a single node: the outbox stays bounded, inventory agrees with reservation, and the
    routes to a target are used in turn. */
module RelayNode {
  import opened Core
  import opened Counting
  import opened Peering
  import opened RelayState
  import opened RelayInvariant

  // The outbox bound.

  function KeyJobs(s: State): set<JobID> { set j | j in s.acks && s.acks[j].ack.ids != [] }

  function OtherJobs(s: State): set<JobID> { set j | j in s.acks && s.acks[j].ack.ids == [] }

  /** Which end of the key a job reports to. */
  function Side(s: State, j: JobID): (KeyID, bool) {
    if j in s.acks && KeyOf(s.acks[j]) in s.keys
      then (KeyOf(s.acks[j]), s.acks[j].peer == s.keys[KeyOf(s.acks[j])].sender)
    else ("", false)
  }

  function Subject(s: State, j: JobID): (Peer, Association) {
    if j in s.acks && s.acks[j].ack.targets != []
      then (s.acks[j].peer, Association(s.acks[j].ack.initiator, s.acks[j].ack.targets[0]))
    else ("", Association("", ""))
  }

  lemma SidesDiffer(c: Policy, s: State, i: JobID, j: JobID)
    requires Inv(c, s) && i in KeyJobs(s) && j in KeyJobs(s) && Side(s, i) == Side(s, j)
    ensures i == j && Side(s, i) in Pairs(s.keys.Keys, {false, true})
  {
    assert JobInv(c, s, i) && JobInv(c, s, j) && UniqueJobs(s.acks);
    hide RecInv, OwedPeers, CurrentStatus;
    AtNeighbours(c, s, i);
    AtNeighbours(c, s, j);
    hide Inv;
    assert SameSubject(s.acks[i], s.acks[j]);
  }

  /** Results are owed to neighbours only. */
  lemma AtNeighbours(c: Policy, s: State, i: JobID)
    requires Inv(c, s) && i in KeyJobs(s)
    ensures s.acks[i].ack.ids[0] in s.keys
    ensures var r := s.keys[s.acks[i].ack.ids[0]]; OwedPeers(r) <= Neighbours(r)
  {
    assert JobInv(c, s, i);
    assert RecInv(c, s.acks[i].ack.ids[0], s.keys[s.acks[i].ack.ids[0]]);
    hide Inv, JobInv;
  }

  lemma SubjectsDiffer(c: Policy, s: State, i: JobID, j: JobID)
    requires Inv(c, s) && i in OtherJobs(s) && j in OtherJobs(s) && Subject(s, i) == Subject(s, j)
    ensures i == j && Subject(s, i) in Pairs(c.cfg.peers.Keys, c.allowed)
  {
    assert JobInv(c, s, i) && JobInv(c, s, j);
    assert SameSubject(s.acks[i], s.acks[j]);
  }

  lemma KeyJobsBound(c: Policy, s: State)
    requires Inv(c, s)
    ensures |KeyJobs(s)| <= 2 * |s.keys|
  {
    var f := j => Side(s, j);
    hide Inv, Side, KeyJobs, Pairs;
    forall i, j | i in KeyJobs(s) && j in KeyJobs(s) && f(i) == f(j) ensures i == j { SidesDiffer(c, s, i, j); }
    forall i | i in KeyJobs(s) ensures f(i) in Pairs(s.keys.Keys, {false, true}) { SidesDiffer(c, s, i, i); }
    Pigeonhole(KeyJobs(s), Pairs(s.keys.Keys, {false, true}), f);
    PairsSize(s.keys.Keys, {false, true});
  }

  lemma OtherJobsBound(c: Policy, s: State)
    requires Inv(c, s)
    ensures |OtherJobs(s)| <= |c.cfg.peers| * |c.allowed|
  {
    var f := j => Subject(s, j);
    hide Inv, Subject, OtherJobs, Pairs;
    forall i, j | i in OtherJobs(s) && j in OtherJobs(s) && f(i) == f(j) ensures i == j { SubjectsDiffer(c, s, i, j); }
    forall i | i in OtherJobs(s) ensures f(i) in Pairs(c.cfg.peers.Keys, c.allowed) { SubjectsDiffer(c, s, i, i); }
    Pigeonhole(OtherJobs(s), Pairs(c.cfg.peers.Keys, c.allowed), f);
    PairsSize(c.cfg.peers.Keys, c.allowed);
  }

  /** Repeated transfers, acknowledgements and voids never grow the outbox past two results per key and one
      per peer and pair. */
  lemma OutboxBound(c: Policy, s: State)
    requires Inv(c, s)
    ensures |s.acks| <= 2 * |s.keys| + |c.cfg.peers| * |c.allowed|
  {
    hide Inv;
    KeyJobsBound(c, s);
    OtherJobsBound(c, s);
    JobsSplit(s);
  }

  lemma JobsSplit(s: State)
    ensures |s.acks| == |KeyJobs(s)| + |OtherJobs(s)|
  {
    assert s.acks.Keys == KeyJobs(s) + OtherJobs(s) && KeyJobs(s) !! OtherJobs(s);
    assert |s.acks| == |s.acks.Keys|;
  }

  // Inventory and reservation.

  function AvailableSet(s: State, a: Association, now: Time): set<KeyID> {
    set id | id in s.keys && Available(s, a, id, now)
  }

  lemma {:induction false} ScanSelects(s: State, a: Association, ids: seq<KeyID>, now: Time)
    ensures AvailableIDs(s, a, ids, now) == Select(ids, AvailableSet(s, a, now))
  {
    if ids != [] { ScanSelects(s, a, ids[1..], now); }
  }

  /** For an allowed pair and batch size, reserving n keys succeeds exactly when the inventory shows n, and it
      takes the first n available keys in insertion order. */
  lemma ReservesWhatInventoryShows(c: Policy, s: State, a: Association, n: int, now: Time)
    requires Inv(c, s) && a in c.allowed && c.Local(a.master) && 1 <= n <= MAX_BATCH
    ensures Reserve(c, s, a, n, now).Ok? <==> n <= Inventory(s, a, now)
    ensures Reserve(c, s, a, n, now).Ok? ==>
      var ids := Reserve(c, s, a, n, now).value.1.ids; |ids| == n && FirstOf(s.order, AvailableSet(s, a, now), ids)
  {
    var good := AvailableSet(s, a, now);
    assert AvailableSet(Working(s), a, now) == good;
    ScanSelects(Working(s), a, s.order, now);
    SelectCounts(s.order, good);
    if n <= |good| { SelectIsFirst(s.order, good, n); }
  }

  // Turns.

  lemma {:induction false} WithoutAbsent(route: seq<Peer>, sender: Peer)
    requires sender !in route
    ensures Without(route, sender) == route
  {
    if route != [] {
      WithoutAbsent(route[1..], sender);
      assert route == [route[0]] + route[1..];
    }
  }

  /** The position whose turn it is. */
  function Start(c: Policy, s: State, target: string): (at: nat)
    requires c.Route(target) != []
    ensures at < |c.Route(target)|
  {
    Cursor(s, target) % |c.Route(target)|
  }

  /** Each list is the route rotated to the position whose turn it is, and the turn passes on. */
  lemma TurnIsRotation(c: Policy, s: State, target: string, sender: Peer)
    requires c.Route(target) != [] && sender !in c.Route(target)
    ensures var route, at, turn := c.Route(target), Start(c, s, target), Candidates(c, s, target, sender);
      && turn.0 == Rotation(route, at) && turn.0 != [] && turn.0[0] == route[at]
      && Start(c, turn.1, target) == if at + 1 == |route| then 0 else at + 1
  {
    hide Without;
    var route, at := c.Route(target), Start(c, s, target);
    WithoutAbsent(Rotation(route, at), sender);
    Wraps(at, |route|);
    Wraps(if at + 1 == |route| then 0 else at + 1, |route|);
  }

  lemma Wraps(at: nat, n: nat)
    requires at < n
    ensures at % n == at && (at + 1) % n == if at + 1 == n then 0 else at + 1
  {
  }

  lemma NearQuotients(x: nat, y: nat, z: nat, n: nat, low: nat, q: nat, high: nat)
    requires n > 0 && x <= y <= z && z == x + n - 1
    requires n * low <= x < n * (low + 1) && n * q <= y < n * (q + 1) && n * high <= z < n * (high + 1)
    ensures q == low || q == high
  {
    Multiples(n, low, q);
    Multiples(n, q, high);
    Multiples(n, high, low + 1);
  }
}
