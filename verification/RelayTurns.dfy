/** What a node keeps over a run beside its records: the order of keys only grows, the capacity is respected, and
    the routes to a target are used in turn. */
module RelayTurns {
  import opened Core
  import opened Counting
  import opened Peering
  import opened Etsi020
  import opened RelayState
  import opened RelayInvariant
  import opened RelayHandlers
  import opened RelayNetwork
  import opened RelayTrace
  import opened RelayRuns
  import opened RelayTheorems
  import opened RelayNode

  // Records that took a turn.

  /** The record drew a candidate list for the target when it was made. */
  predicate Forwards(s: State, target: string, id: KeyID) {
    id in s.keys && s.keys[id].role != Target && !s.keys[id].unknown && s.keys[id].pair.slave == target
  }

  /** Such keys among `ids`, in order. */
  function Forwarded(s: State, target: string, ids: seq<KeyID>): (ks: seq<KeyID>)
    ensures forall k :: 0 <= k < |ks| ==> Forwards(s, target, ks[k])
  {
    if ids == [] then []
    else
      var last := ids[|ids| - 1];
      Forwarded(s, target, ids[..|ids| - 1]) + if Forwards(s, target, last) then [last] else []
  }

  /** The k-th record forwarded to a target got the route rotated by k, without its sender, and the cursor
      stands where the next one starts. */
  ghost predicate InTurn(c: Policy, s: State, target: string) {
    var route, ks := c.Route(target), Forwarded(s, target, s.order);
    route != [] ==>
      && Cursor(s, target) % |route| == |ks| % |route|
      && forall k :: 0 <= k < |ks| ==>
           s.keys[ks[k]].candidates == Without(Rotation(route, k % |route|), s.keys[ks[k]].sender)
  }

  ghost predicate TurnInv(c: Policy, s: State) {
    && (forall i :: 0 <= i < |s.order| ==> s.order[i] in s.keys)
    && forall target :: InTurn(c, s, target)
  }

  /** One transaction, or several, from s to s'. */
  ghost predicate Onward(c: Policy, s: State, s': State) {
    && s.order <= s'.order
    && (TurnInv(c, s) ==> TurnInv(c, s'))
    && (|s.keys| <= c.capacity ==> |s'.keys| <= c.capacity)
  }

  lemma OnwardTrans(c: Policy, s: State, s1: State, s2: State)
    requires Onward(c, s, s1) && Onward(c, s1, s2)
    ensures Onward(c, s, s2)
  {
    hide TurnInv;
  }

  lemma OnwardRefl(c: Policy, s: State)
    ensures Onward(c, s, s)
  {
    hide TurnInv;
  }

  // Steps that enrol no key.

  predicate SameRoute(r: Record, r': Record) {
    r'.pair == r.pair && r'.role == r.role && r'.unknown == r.unknown && r'.sender == r.sender
      && r'.candidates == r.candidates
  }

  /** The records of s keep their place and route. */
  ghost predicate Keeps(s: State, s': State) {
    s.order <= s'.order && forall id :: id in s.keys ==> id in s'.keys && SameRoute(s.keys[id], s'.keys[id])
  }

  /** Nothing but flags, material and results changed. */
  ghost predicate Quiet(s: State, s': State) {
    Keeps(s, s') && s'.order == s.order && s'.cursor == s.cursor && s'.keys.Keys == s.keys.Keys
  }

  lemma {:induction false} ForwardedSame(s: State, s': State, target: string, ids: seq<KeyID>)
    requires forall i :: 0 <= i < |ids| ==> ids[i] in s.keys
    requires forall id :: id in s.keys ==> id in s'.keys && SameRoute(s.keys[id], s'.keys[id])
    ensures Forwarded(s', target, ids) == Forwarded(s, target, ids)
  {
    if ids != [] { ForwardedSame(s, s', target, ids[..|ids| - 1]); }
  }

  lemma QuietOnward(c: Policy, s: State, s': State)
    requires Quiet(s, s')
    ensures Onward(c, s, s')
  {
    assert |s'.keys| == |s'.keys.Keys| && |s.keys| == |s.keys.Keys|;
    if TurnInv(c, s) {
      forall target ensures InTurn(c, s', target) {
        assert InTurn(c, s, target);
        ForwardedSame(s, s', target, s.order);
      }
    }
  }

  /** A key for a local recipient, or a tombstone, joins without taking a turn. */
  lemma JoinKeepsTurns(c: Policy, s: State, s': State, id: KeyID)
    requires TurnInv(c, s) && Keeps(s, s') && id !in s.keys && id in s'.keys
    requires s'.order == s.order + [id] && s'.cursor == s.cursor && (s'.keys[id].role == Target || s'.keys[id].unknown)
    ensures TurnInv(c, s')
  {
    forall target ensures InTurn(c, s', target) {
      assert InTurn(c, s, target);
      ForwardedSame(s, s', target, s.order);
      assert s'.order[..|s'.order| - 1] == s.order;
    }
  }

  /** A forwarded key takes the turn of its target. */
  lemma EnrolKeepsTurns(c: Policy, s: State, id: KeyID, r: Record)
    requires TurnInv(c, s) && id !in s.keys && r.role != Target && !r.unknown && c.Route(r.pair.slave) != []
    requires r.candidates == Candidates(c, s, r.pair.slave, r.sender).0
    ensures TurnInv(c, Insert(Candidates(c, s, r.pair.slave, r.sender).1, id, r))
  {
    var s' := Insert(Candidates(c, s, r.pair.slave, r.sender).1, id, r);
    assert s'.order[..|s'.order| - 1] == s.order;
    hide Candidates, Without, Rotation;
    forall target ensures InTurn(c, s', target) { EnrolTakesTurn(c, s, id, r, target); }
    forall i | 0 <= i < |s'.order| ensures s'.order[i] in s'.keys { if i < |s.order| { assert s.order[i] in s.keys; } }
  }

  lemma ForwardedNext(s: State, s': State, target: string, id: KeyID)
    requires s'.order == s.order + [id] && Forwards(s', target, id)
    requires Forwarded(s', target, s.order) == Forwarded(s, target, s.order)
    ensures Forwarded(s', target, s'.order) == Forwarded(s, target, s.order) + [id]
  {
    assert s'.order[..|s'.order| - 1] == s.order;
  }

  lemma ForwardedNoMore(s: State, s': State, target: string, id: KeyID)
    requires s'.order == s.order + [id] && !Forwards(s', target, id)
    requires Forwarded(s', target, s.order) == Forwarded(s, target, s.order)
    ensures Forwarded(s', target, s'.order) == Forwarded(s, target, s.order)
  {
    assert s'.order[..|s'.order| - 1] == s.order;
  }

  lemma EnrolTakesTurn(c: Policy, s: State, id: KeyID, r: Record, target: string)
    requires TurnInv(c, s) && id !in s.keys && r.role != Target && !r.unknown && c.Route(r.pair.slave) != []
    requires r.candidates == Candidates(c, s, r.pair.slave, r.sender).0
    ensures InTurn(c, Insert(Candidates(c, s, r.pair.slave, r.sender).1, id, r), target)
  {
    hide Without, Rotation, Forwarded;
    var s' := Insert(Candidates(c, s, r.pair.slave, r.sender).1, id, r);
    InTurnAt(c, s, target);
    ForwardedSame(s, s', target, s.order);
    var route, ks := c.Route(target), Forwarded(s, target, s.order);
    hide TurnInv;
    if target == r.pair.slave {
      ForwardedNext(s, s', target, id);
      TurnPasses(Cursor(s, target), |ks|, |route|);
    } else {
      ForwardedNoMore(s, s', target, id);
    }
  }

  lemma TurnPasses(cursor: nat, m: nat, n: nat)
    requires n > 0 && cursor % n == m % n
    ensures (cursor % n + 1) % n % n == (m + 1) % n
  {
    Wraps(m % n, n);
    NextRemainder(m, n);
  }

  lemma NextRemainder(m: nat, n: nat)
    requires n > 0
    ensures (m + 1) % n == (m % n + 1) % n
  {
    var q, r := m / n, m % n;
    if r + 1 == n { Remainder(m + 1, n, q + 1, 0); } else { Remainder(m + 1, n, q, r + 1); }
    Wraps(r, n);
  }

  lemma Remainder(m: nat, n: nat, q: nat, r: nat)
    requires r < n && m == n * q + r
    ensures m % n == r
  {
    assert n * (q + 1) == n * q + n;
    ShareIsQuotient(m, n, q);
  }

  // Handlers that enrol no key.

  lemma QuietTrans(s: State, s1: State, s2: State)
    requires Quiet(s, s1) && Quiet(s1, s2)
    ensures Quiet(s, s2)
  {
  }

  lemma VoidQuiet(s: State, id: KeyID, requester: Peer)
    requires id in s.keys
    ensures Quiet(s, StartVoid(s, id, requester)) && Quiet(s, FinishVoid(s, id))
    ensures Quiet(s, FinishVoid(StartVoid(s, id, requester), id))
  {
    hide WithoutKey, VoidStatus;
    assert SameRoute(s.keys[id], Voiding(s.keys[id], requester));
  }

  lemma AckVoidingQuiet(s: State, peer: Peer, st: Status, id: KeyID)
    requires id in s.keys
    ensures Quiet(s, AckVoiding(s, peer, st, id))
  {
    hide FinishVoid, StartVoid;
    if Confirms(st) {
      var s1 := s.(keys := s.keys[id := Confirmed(s.keys[id], peer, st)]);
      assert Quiet(s, s1);
      VoidQuiet(s1, id, "");
      hide Quiet;
      QuietTrans(s, s1, FinishVoid(s1, id));
    }
  }

  lemma AckRelayedQuiet(s: State, id: KeyID)
    requires id in s.keys
    ensures Quiet(s, AckRelayed(s, id))
  {
  }

  lemma AckKeyQuiet(s: State, peer: Peer, st: Status, id: KeyID, now: Time)
    requires id in s.keys
    ensures Quiet(s, AckKey(s, peer, st, id, now))
  {
    var s1 := if Due(s.keys[id], now) then StartVoid(s, id, "") else s;
    VoidQuiet(s, id, "");
    QuietRefl(s);
    assert id in s1.keys;
    AckVoidingQuiet(s1, peer, st, id);
    AckRelayedQuiet(s1, id);
    VoidQuiet(s1, id, "");
    hide Quiet, StartVoid, FinishVoid, AckVoiding, AckRelayed, Due;
    QuietTrans(s, s1, AckKey(s, peer, st, id, now));
  }

  lemma {:induction false} AckKeysQuiet(s: State, peer: Peer, acks: seq<Ack>, i: nat, j: nat, now: Time)
    requires i <= |acks| && (i < |acks| ==> j <= |acks[i].ids|)
    ensures Quiet(s, AckKeys(s, peer, acks, i, j, now))
    decreases |acks| - i, if i < |acks| then |acks[i].ids| - j else 0
  {
    hide Quiet, AckKey;
    if i == |acks| {
      QuietRefl(s);
    } else if j == |acks[i].ids| {
      AckKeysQuiet(s, peer, acks, i + 1, 0, now);
    } else {
      var id := acks[i].ids[j];
      var s1 := if id in s.keys then AckKey(s, peer, acks[i].status, id, now) else s;
      if id in s.keys { AckKeyQuiet(s, peer, acks[i].status, id, now); } else { QuietRefl(s); }
      AckKeysQuiet(s1, peer, acks, i, j + 1, now);
      QuietTrans(s, s1, AckKeys(s1, peer, acks, i, j + 1, now));
    }
  }

  lemma QuietRefl(s: State)
    ensures Quiet(s, s) && Quiet(s, Working(s))
  {
  }

  // Handlers that may.

  /** At most `news` keys join. */
  ghost predicate Joined(c: Policy, s: State, s': State, news: nat) {
    && s.order <= s'.order && s.keys.Keys <= s'.keys.Keys && |s'.keys| <= |s.keys| + news
    && (TurnInv(c, s) ==> TurnInv(c, s'))
  }

  lemma JoinedTrans(c: Policy, s: State, s1: State, s2: State, a: nat, b: nat)
    requires Joined(c, s, s1, a) && Joined(c, s1, s2, b)
    ensures Joined(c, s, s2, a + b)
  {
    hide TurnInv;
  }

  lemma QuietJoined(c: Policy, s: State, s': State)
    requires Quiet(s, s')
    ensures Joined(c, s, s', 0)
  {
    QuietOnward(c, s, s');
    assert |s'.keys| == |s'.keys.Keys| && |s.keys| == |s.keys.Keys|;
    hide TurnInv;
  }

  lemma OneMore(s: State, s': State, id: KeyID)
    requires s'.keys.Keys == s.keys.Keys + {id}
    ensures |s'.keys| <= |s.keys| + 1
  {
    assert |s'.keys| == |s'.keys.Keys| && |s.keys| == |s.keys.Keys|;
  }

  lemma EnrolJoined(c: Policy, s: State, id: KeyID, r: Record)
    requires id !in s.keys && r.role != Target && !r.unknown && c.Route(r.pair.slave) != []
    requires r.candidates == Candidates(c, s, r.pair.slave, r.sender).0
    ensures Joined(c, s, Insert(Candidates(c, s, r.pair.slave, r.sender).1, id, r), 1)
  {
    var s' := Insert(Candidates(c, s, r.pair.slave, r.sender).1, id, r);
    if TurnInv(c, s) { EnrolKeepsTurns(c, s, id, r); }
    OneMore(s, s', id);
    hide TurnInv, Without, Rotation;
  }

  lemma TargetJoined(c: Policy, s: State, s': State, id: KeyID)
    requires Keeps(s, s') && id !in s.keys && s'.keys.Keys == s.keys.Keys + {id}
    requires s'.order == s.order + [id] && s'.cursor == s.cursor && (s'.keys[id].role == Target || s'.keys[id].unknown)
    ensures Joined(c, s, s', 1)
  {
    OneMore(s, s', id);
    if TurnInv(c, s) { JoinKeepsTurns(c, s, s', id); }
    hide TurnInv, Keeps;
  }

  lemma AcceptKeyJoined(c: Policy, s: State, peer: Peer, a: Association, t: Transfer, k: WireKey, now: Time)
    requires AcceptKey(c, s, peer, a, t, k, now).Ok?
    ensures Joined(c, s, AcceptKey(c, s, peer, a, t, k, now).value, if k.id in s.keys then 0 else 1)
  {
    hide Joined, Candidates, Owe;
    if k.id in s.keys {
      AcceptKnownQuiet(s, peer, k.id, now);
      QuietJoined(c, s, AcceptKnown(s, peer, k.id, now));
    } else if c.Local(a.slave) {
      OweKeeps(s, k.id, a, {peer}, Relayed);
      TargetJoined(c, s, AcceptNew(c, s, peer, a, t, k, now).value, k.id);
    } else {
      CandidatesNone(c, s, a.slave, peer);
      EnrolJoined(c, s, k.id, ReceivedRecord(Relay, peer, a, t, k,
        now).(candidates := Candidates(c, s, a.slave, peer).0));
    }
  }

  lemma OweKeeps(s: State, id: KeyID, pair: Association, peers: set<Peer>, st: Status)
    ensures var s' := Owe(s, id, pair, peers, st); s'.keys == s.keys && s'.order == s.order && s'.cursor == s.cursor
  {
  }

  lemma CandidatesNone(c: Policy, s: State, target: string, sender: Peer)
    ensures c.Route(target) == [] ==> Candidates(c, s, target, sender).0 == []
  {
  }

  lemma AcceptKnownQuiet(s: State, peer: Peer, id: KeyID, now: Time)
    requires id in s.keys
    ensures Quiet(s, AcceptKnown(s, peer, id, now))
  {
    hide Quiet, StartVoid, FinishVoid, Due, Owe;
    VoidQuiet(s, id, peer);
    QuietRefl(s);
    var s1 := if Due(s.keys[id], now) then StartVoid(s, id, peer) else s;
    QuietHas(s, s1, id);
    VoidQuiet(s1, id, "");
    QuietRefl(s1);
    OweQuiet(s1, id, s1.keys[id].pair, {peer}, Relayed);
    QuietTrans(s, s1, AcceptKnown(s, peer, id, now));
  }

  lemma QuietHas(s: State, s': State, id: KeyID)
    requires Quiet(s, s') && id in s.keys
    ensures id in s'.keys
  {
  }

  lemma OweQuiet(s: State, id: KeyID, pair: Association, peers: set<Peer>, st: Status)
    ensures Quiet(s, Owe(s, id, pair, peers, st))
  {
    OweKeeps(s, id, pair, peers, st);
    hide Owe;
  }

  lemma {:induction false} AcceptKeysJoined(c: Policy, s: State, peer: Peer, a: Association, t: Transfer, i: nat,
        now: Time, s0: State, news: nat)
    requires i <= |t.keys| && s0.keys.Keys <= s.keys.Keys
    requires AcceptKeys(c, s, peer, a, t, i, now).Ok? && AcceptCheck(s0, peer, a, t, i, news).Ok?
    ensures var last := AcceptCheck(s0, peer, a, t, i, news).value;
      last >= news && Joined(c, s, AcceptKeys(c, s, peer, a, t, i, now).value, last - news)
    decreases |t.keys| - i
  {
    hide Joined, AcceptKey, Quiet;
    if i == |t.keys| {
      QuietRefl(s);
      QuietJoined(c, s, s);
    } else {
      var id := t.keys[i].id;
      var s1, news1 := AcceptKey(c, s, peer, a, t, t.keys[i], now).value, if id in s0.keys then news else news + 1;
      AcceptKeyJoined(c, s, peer, a, t, t.keys[i], now);
      KeysJoin(c, s, s1, if id in s.keys then 0 else 1);
      AcceptKeysJoined(c, s1, peer, a, t, i + 1, now, s0, news1);
      var s2, last := AcceptKeys(c, s1, peer, a, t, i + 1, now).value, AcceptCheck(s0, peer, a, t, i, news).value;
      JoinedTrans(c, s, s1, s2, if id in s.keys then 0 else 1, last - news1);
      JoinedMore(c, s, s2, (if id in s.keys then 0 else 1) + (last - news1), last - news);
    }
  }

  lemma KeysJoin(c: Policy, s: State, s': State, news: nat)
    requires Joined(c, s, s', news)
    ensures s.keys.Keys <= s'.keys.Keys
  {
  }

  lemma JoinedMore(c: Policy, s: State, s': State, a: nat, b: nat)
    requires Joined(c, s, s', a) && a <= b
    ensures Joined(c, s, s', b)
  {
    hide TurnInv;
  }

  lemma JoinedOnward(c: Policy, s: State, s': State, news: nat)
    requires Joined(c, Working(s), s', news) && |s.keys| + news <= c.capacity
    ensures Onward(c, s, s')
  {
    QuietRefl(s);
    QuietOnward(c, s, Working(s));
    hide TurnInv;
  }

  lemma AcceptOnward(c: Policy, s: State, peer: Peer, t: Transfer, now: Time)
    requires Accept(c, s, peer, t, now).Ok?
    ensures Onward(c, s, Accept(c, s, peer, t, now).value)
  {
    hide AcceptGuard, AcceptCheck, AcceptKeys, Joined, Onward;
    var a, w := AcceptGuard(c, peer, t).value, Working(s);
    AcceptKeysJoined(c, w, peer, a, t, 0, now, w, 0);
    JoinedOnward(c, s, Accept(c, s, peer, t, now).value, AcceptCheck(w, peer, a, t, 0, 0).value);
  }

  /** A transfer that is accepted leaves the node within its lifetime capacity, wherever it started from. */
  lemma AcceptFits(c: Policy, s: State, peer: Peer, t: Transfer, now: Time)
    requires Accept(c, s, peer, t, now).Ok?
    ensures |Accept(c, s, peer, t, now).value.keys| <= c.capacity
  {
    hide AcceptGuard, AcceptCheck, AcceptKeys, TurnInv;
    var a, w := AcceptGuard(c, peer, t).value, Working(s);
    AcceptKeysJoined(c, w, peer, a, t, 0, now, w, 0);
  }

  lemma StoreOnward(c: Policy, s: State, k: Key, now: Time)
    requires StoreOutcome(c, s, k, now).Ok?
    ensures Onward(c, s, StoreOutcome(c, s, k, now).value)
  {
    hide StoreGuard, Candidates, Joined, Onward;
    var w := Working(s);
    CandidatesNone(c, w, k.pair.slave, "");
    EnrolJoined(c, w, k.id, SourceRecord(k, Candidates(c, w, k.pair.slave, "").0));
    JoinedOnward(c, s, StoreOutcome(c, s, k, now).value, 1);
  }

  lemma VoidKeyJoined(c: Policy, s: State, peer: Peer, a: Association, id: KeyID, now: Time)
    ensures Joined(c, s, VoidKey(c, s, peer, a, id, now), if id in s.keys then 0 else 1)
  {
    hide Joined, Quiet, StartVoid, FinishVoid;
    if id in s.keys {
      VoidQuiet(s, id, peer);
      QuietJoined(c, s, VoidKey(c, s, peer, a, id, now));
    } else {
      var s1 := Insert(s, id, Tombstone(c, peer, a, now));
      TargetJoined(c, s, s1, id);
      VoidQuiet(s1, id, peer);
      QuietJoined(c, s1, VoidKey(c, s, peer, a, id, now));
      JoinedTrans(c, s, s1, VoidKey(c, s, peer, a, id, now), 1, 0);
    }
  }

  lemma {:induction false} VoidKeysJoined(c: Policy, s: State, incoming: bool, peer: Peer, a: Association,
        ids: seq<KeyID>, i: nat, now: Time, s0: State, news: nat)
    requires i <= |ids| && s0.keys.Keys <= s.keys.Keys && VoidCheck(s0, incoming, peer, a, ids, i, news).Ok?
    ensures var last := VoidCheck(s0, incoming, peer, a, ids, i, news).value;
      last >= news && Joined(c, s, VoidKeys(c, s, peer, a, ids, i, now), last - news)
    decreases |ids| - i
  {
    hide Joined, VoidKey, Quiet, Involves;
    if i == |ids| {
      QuietRefl(s);
      QuietJoined(c, s, s);
    } else {
      var id := ids[i];
      var s1, news1 := VoidKey(c, s, peer, a, id, now), if id in s0.keys then news else news + 1;
      VoidKeyJoined(c, s, peer, a, id, now);
      KeysJoin(c, s, s1, if id in s.keys then 0 else 1);
      VoidKeysJoined(c, s1, incoming, peer, a, ids, i + 1, now, s0, news1);
      var s2, last := VoidKeys(c, s1, peer, a, ids, i + 1, now), VoidCheck(s0, incoming, peer, a, ids, i, news).value;
      JoinedTrans(c, s, s1, s2, if id in s.keys then 0 else 1, last - news1);
      JoinedMore(c, s, s2, (if id in s.keys then 0 else 1) + (last - news1), last - news);
    }
  }

  lemma VoidOnward(c: Policy, s: State, peer: Peer, v: Void, now: Time)
    requires VoidRequest(c, s, peer, v, now).Ok?
    ensures Onward(c, s, VoidRequest(c, s, peer, v, now).value)
  {
    hide VoidCheck, VoidKeys, Joined, Onward, Involved, VoidPair;
    var a, w := VoidGuard(c, peer, v).value, Working(s);
    var ids := if v.ids == [] then Involved(w, peer, a, w.order) else v.ids;
    var s' := VoidRequest(c, s, peer, v, now).value;
    if ids == [] {
      assert s' == VoidNothing(w, peer, a);
      NothingQuiet(w, peer, a);
      QuietRefl(s);
      QuietOnward(c, s, w);
      QuietOnward(c, w, s');
      OnwardTrans(c, s, w, s');
    } else {
      var incoming := c.cfg.peers[peer].incoming;
      VoidKeysJoined(c, w, incoming, peer, a, ids, 0, now, w, 0);
      JoinedOnward(c, s, s', VoidCheck(w, incoming, peer, a, ids, 0, 0).value);
    }
  }

  lemma NothingQuiet(s: State, peer: Peer, a: Association)
    ensures Quiet(s, VoidNothing(s, peer, a))
  {
  }

  // Local operations and the worker's commits.

  lemma TokenedQuiet(s: State, ids: seq<KeyID>, token: nat)
    ensures Quiet(s, Tokened(s, ids, token))
  {
  }

  lemma DeliveredQuiet(s: State, ids: seq<KeyID>)
    ensures Quiet(s, DeliverAll(s, ids))
  {
  }

  lemma ExpireQuiet(s: State, now: Time)
    ensures Quiet(s, Expire(s, now))
  {
    forall id | id in s.keys ensures SameRoute(s.keys[id], Voiding(s.keys[id], "")) {}
    hide Voiding;
  }

  lemma QuietWork(c: Policy, s: State, s': State)
    requires Quiet(Working(s), s')
    ensures Onward(c, s, s')
  {
    QuietRefl(s);
    hide Quiet;
    QuietTrans(s, Working(s), s');
    QuietOnward(c, s, s');
  }

  lemma ReserveOnward(c: Policy, s: State, a: Association, n: int, now: Time)
    requires Reserve(c, s, a, n, now).Ok?
    ensures Onward(c, s, Reserve(c, s, a, n, now).value.0)
  {
    var w := Working(s);
    TokenedQuiet(w, AvailableIDs(w, a, w.order, now)[..n], w.serial);
    hide Quiet, Onward, Tokened, AvailableIDs;
    QuietWork(c, s, Reserve(c, s, a, n, now).value.0);
  }

  lemma ConsumeReservedOnward(c: Policy, s: State, a: Association, token: Option<nat>, now: Time)
    requires ConsumeReservation(s, a, token, now).Ok?
    ensures Onward(c, s, ConsumeReservation(s, a, token, now).value.0)
  {
    var w := Working(s);
    DeliveredQuiet(w, Collect(w, a, token.value, 0, now).value);
    hide Quiet, Onward, DeliverAll, Collect;
    QuietWork(c, s, ConsumeReservation(s, a, token, now).value.0);
  }

  lemma ConsumePeerOnward(c: Policy, s: State, a: Association, ids: seq<KeyID>, now: Time)
    requires ConsumePeer(c, s, a, ids, now).Ok?
    ensures Onward(c, s, ConsumePeer(c, s, a, ids, now).value.0)
  {
    DeliveredQuiet(Working(s), ids);
    hide Quiet, Onward, DeliverAll;
    QuietWork(c, s, ConsumePeer(c, s, a, ids, now).value.0);
  }

  lemma InvalidateOnward(c: Policy, s: State, id: KeyID)
    requires Invalidate(s, id).Ok?
    ensures Onward(c, s, Invalidate(s, id).value)
  {
    VoidQuiet(Working(s), id, "");
    hide Quiet, Onward, StartVoid, FinishVoid;
    QuietWork(c, s, Invalidate(s, id).value);
  }

  lemma ExpireOnward(c: Policy, s: State, now: Time)
    ensures Onward(c, s, Expire(Working(s), now))
  {
    ExpireQuiet(Working(s), now);
    hide Quiet, Onward;
    QuietWork(c, s, Expire(Working(s), now));
  }

  lemma WorkerOnward(c: Policy, s: State, id: KeyID, to: Peer, now: Time)
    requires id in s.keys
    ensures Onward(c, s, Defer(Working(s), id, now))
    ensures CommitSend(Working(s), id, to, now).Ok? ==> Onward(c, s, CommitSend(Working(s), id, to, now).value)
  {
    hide Onward;
    assert Quiet(Working(s), Defer(Working(s), id, now));
    assert CommitSend(Working(s), id, to, now).Ok? ==> Quiet(Working(s), CommitSend(Working(s), id, to, now).value);
    hide Quiet, Defer, CommitSend;
    QuietWork(c, s, Defer(Working(s), id, now));
    if CommitSend(Working(s), id, to, now).Ok? { QuietWork(c, s, CommitSend(Working(s), id, to, now).value); }
  }

  lemma OutboxOnward(c: Policy, s: State, j: JobID, now: Time)
    ensures Onward(c, s, AckSent(Working(s), j)) && Onward(c, s, AckFailed(Working(s), j, now))
      && Onward(c, s, Working(s))
  {
    hide Onward;
    QuietWork(c, s, AckSent(Working(s), j));
    QuietWork(c, s, AckFailed(Working(s), j, now));
    QuietWork(c, s, Working(s));
  }

  // Networks.

  lemma CommitOnward(cs: Policies, net: Net, n: Peer, outcome: Result<State>, f: Fault, m: Peer)
    requires n in net.nodes && n in cs && m in cs && m in net.nodes
    requires !net.nodes[n].store.broken && outcome.Ok? ==> Onward(cs[n], Disk(net, n), outcome.value)
    ensures m in Commit(net, n, outcome, f).nodes && Onward(cs[m], Disk(net, m), Disk(Commit(net, n, outcome, f), m))
  {
    OnwardRefl(cs[m], Disk(net, m));
    hide Onward, ExtendPath;
  }

  lemma MessageOnward(c: Policy, s: State, m: Msg, now: Time)
    requires Handle(c, s, m, now).Ok?
    ensures Onward(c, s, Handle(c, s, m, now).value)
  {
    hide Onward, Accept, VoidRequest, AckGuard, AckCheck, AckKeys;
    match m
    case TransferMsg(p, _, t) => AcceptOnward(c, s, p, t, now);
    case AckMsg(p, _, ack) =>
      AckKeysQuiet(Working(s), p, [ack], 0, 0, now);
      QuietWork(c, s, Handle(c, s, m, now).value);
    case VoidMsg(p, _, v) => VoidOnward(c, s, p, v, now);
  }

  lemma LocalOnward(cs: Policies, net: Net, l: Label, m: Peer)
    requires l.ReserveKeys? || l.ConsumeReserved? || l.ConsumePeerKeys? || l.InvalidateKey? || l.ExpireDue?
    requires l.n in net.nodes && l.n in cs && m in cs && m in net.nodes
    requires !net.nodes[l.n].store.broken ==> net.nodes[l.n].store.live == Disk(net, l.n)
    ensures m in ApplyLocal(cs, net, l).nodes && Onward(cs[m], Disk(net, m), Disk(ApplyLocal(cs, net, l), m))
  {
    hide Onward, Commit, Reserve, ConsumeReservation, ConsumePeer, Invalidate, Expire, Releases, Committed;
    var c, s := cs[l.n], net.nodes[l.n].store.live;
    match l {
      case ReserveKeys(n, a, count, now, f) =>
        if Reserve(c, s, a, count, now).Ok? { ReserveOnward(c, s, a, count, now); }
        CommitOnward(cs, net, n, First(Reserve(c, s, a, count, now)), f, m);
      case ConsumeReserved(n, a, token, now, f) =>
        if ConsumeReservation(s, a, token, now).Ok? { ConsumeReservedOnward(c, s, a, token, now); }
        CommitOnward(cs, net, n, First(ConsumeReservation(s, a, token, now)), f, m);
      case ConsumePeerKeys(n, a, ids, now, f) =>
        if ConsumePeer(c, s, a, ids, now).Ok? { ConsumePeerOnward(c, s, a, ids, now); }
        CommitOnward(cs, net, n, First(ConsumePeer(c, s, a, ids, now)), f, m);
      case InvalidateKey(n, id, f) =>
        if Invalidate(s, id).Ok? { InvalidateOnward(c, s, id); }
        CommitOnward(cs, net, n, Invalidate(s, id), f, m);
      case ExpireDue(n, now, f) =>
        ExpireOnward(c, s, now);
        CommitOnward(cs, net, n, Ok(Expire(Working(s), now)), f, m);
    }
  }

  lemma SendOnward(cs: Policies, net: Net, l: Label, m: Peer)
    requires l.Pick? || l.PostVoid? || l.DeferKey? || l.CommitTo? || l.PostTransfer? || l.Drop?
    requires l.n in net.nodes && l.n in cs && m in cs && m in net.nodes
    requires !net.nodes[l.n].store.broken ==> net.nodes[l.n].store.live == Disk(net, l.n)
    ensures m in ApplySend(cs, net, l).nodes && Onward(cs[m], Disk(net, m), Disk(ApplySend(cs, net, l), m))
  {
    hide Onward, Commit, Defer, CommitSend, Committed, TransferOf, VoidOf, MaySend;
    OnwardRefl(cs[m], Disk(net, m));
    var node := net.nodes[l.n];
    var s := node.store.live;
    if (l.DeferKey? || l.CommitTo?) && node.worker.Picked? && node.worker.id in s.keys {
      WorkerOnward(cs[l.n], s, node.worker.id, if l.CommitTo? then l.to else "", l.now);
      if l.DeferKey? { CommitOnward(cs, net, l.n, Ok(Defer(Working(s), node.worker.id, l.now)), l.f, m); }
      else { CommitOnward(cs, net, l.n, CommitSend(Working(s), node.worker.id, l.to, l.now), l.f, m); }
    }
  }

  lemma OutboxStepOnward(cs: Policies, net: Net, l: Label, m: Peer)
    requires l.CopyOutbox? || l.PostAck? || l.FinishAck? || l.Reopen?
    requires l.n in net.nodes && l.n in cs && m in cs && m in net.nodes
    requires !net.nodes[l.n].store.broken ==> net.nodes[l.n].store.live == Disk(net, l.n)
    ensures m in ApplyOutbox(net, l).nodes && Onward(cs[m], Disk(net, m), Disk(ApplyOutbox(net, l), m))
  {
    hide Onward, Commit, AckSent, AckFailed;
    OnwardRefl(cs[m], Disk(net, m));
    var s, d := net.nodes[l.n].store.live, net.nodes[l.n].store.disk;
    match l
    case FinishAck(n, j, ok, now, f) =>
      OutboxOnward(cs[n], s, j, now);
      CommitOnward(cs, net, n, Ok(if ok then AckSent(Working(s), j) else AckFailed(Working(s), j, now)), f, m);
    case Reopen(n, f) =>
      OutboxOnward(cs[n], d, JobID(0, "", ""), 0);
      CommitOnward(cs, Crashed(net, n), n, Ok(Working(d)), f, m);
    case _ =>
  }

  lemma ApplyOnward(cs: Policies, net: Net, l: Label, m: Peer)
    requires NetInv(cs, net) && m in cs && m in net.nodes
    ensures m in Apply(cs, net, l).nodes && Onward(cs[m], Disk(net, m), Disk(Apply(cs, net, l), m))
  {
    hide NetInv, NodeGood, WorkerGood, Onward, Commit, Handle, StoreOutcome, ApplySend, ApplyLocal, ApplyOutbox,
      Committed;
    OnwardRefl(cs[m], Disk(net, m));
    var n := if l.Deliver? then l.m.to else l.n;
    if n in cs && n in net.nodes {
      NodeOf(cs, net, n);
      var s := net.nodes[n].store.live;
      if l.Deliver? {
        if Handle(cs[n], s, l.m, l.now).Ok? { MessageOnward(cs[n], s, l.m, l.now); }
        CommitOnward(cs, net, n, Handle(cs[n], s, l.m, l.now), l.f, m);
      } else if l.Store? {
        if StoreOutcome(cs[n], s, l.key, l.now).Ok? { StoreOnward(cs[n], s, l.key, l.now); }
        CommitOnward(cs, net, n, StoreOutcome(cs[n], s, l.key, l.now), l.f, m);
      } else if l.CopyOutbox? || l.PostAck? || l.FinishAck? || l.Reopen? { OutboxStepOnward(cs, net, l, m); }
      else if l.ReserveKeys? || l.ConsumeReserved? || l.ConsumePeerKeys? || l.InvalidateKey? || l.ExpireDue? {
        LocalOnward(cs, net, l, m);
      }
      else { SendOnward(cs, net, l, m); }
    }
  }

  lemma {:induction false} RunOnward(cs: Policies, labels: seq<Label>, more: seq<Label>, n: Peer)
    requires ValidPolicies(cs) && n in cs
    ensures n in Run(cs, labels).nodes && n in Run(cs, labels + more).nodes
    ensures Onward(cs[n], Disk(Run(cs, labels), n), Disk(Run(cs, labels + more), n))
  {
    hide NetInv, Onward, Apply;
    RunKeeps(cs, labels);
    KnownNode(cs, Run(cs, labels), n);
    if more == [] {
      assert labels + more == labels;
      OnwardRefl(cs[n], Disk(Run(cs, labels), n));
    } else {
      var all, before := labels + more, labels + more[..|more| - 1];
      assert all[..|all| - 1] == before;
      RunOnward(cs, labels, more[..|more| - 1], n);
      RunKeeps(cs, before);
      ApplyOnward(cs, Run(cs, before), all[|all| - 1], n);
      OnwardTrans(cs[n], Disk(Run(cs, labels), n), Disk(Run(cs, before), n), Disk(Run(cs, all), n));
    }
  }

  lemma StartsInTurn(c: Policy)
    ensures TurnInv(c, EMPTY)
  {
    forall target ensures InTurn(c, EMPTY, target) { assert Forwarded(EMPTY, target, []) == []; }
  }

  lemma RunInTurn(cs: Policies, labels: seq<Label>, n: Peer)
    requires ValidPolicies(cs) && n in cs
    ensures n in Run(cs, labels).nodes && TurnInv(cs[n], Disk(Run(cs, labels), n))
    ensures |Disk(Run(cs, labels), n).keys| <= cs[n].capacity
  {
    StartsInTurn(cs[n]);
    assert [] + labels == labels;
    RunOnward(cs, [], labels, n);
    assert Disk(Run(cs, []), n) == EMPTY && cs[n].Valid();
    hide TurnInv, Run;
  }

  // What follows for every run.

  /** At every moment of every run each node holds at most as many records as its lifetime capacity allows,
      whether stored, transferred or tombstones, and its outbox is bounded by the two per record and the one per
      peer and allowed pair. */
  lemma NodesStayWithinBounds(cs: Policies, labels: seq<Label>, n: Peer)
    requires ValidPolicies(cs) && n in cs
    ensures n in Run(cs, labels).nodes
    ensures var d, c := Disk(Run(cs, labels), n), cs[n];
      |d.keys| <= c.capacity && |d.acks| <= 2 * |d.keys| + |c.cfg.peers| * |c.allowed|
  {
    RunInTurn(cs, labels, n);
    RunKeeps(cs, labels);
    NodeOf(cs, Run(cs, labels), n);
    hide Inv, NetInv, TurnInv, Run;
    OutboxBound(cs[n], Disk(Run(cs, labels), n));
  }

  /** At every moment of every run: the k-th record a node forwards to a target, counting committed records in
      the order they came, has as candidates the route rotated by k, without the record's sender. Requests that
      were refused, batches rolled back and reopenings used up no turn. */
  lemma RecordsTakeTurns(cs: Policies, labels: seq<Label>, n: Peer, target: string)
    requires ValidPolicies(cs) && n in cs && cs[n].Route(target) != []
    ensures n in Run(cs, labels).nodes
    ensures var d, route := Disk(Run(cs, labels), n), cs[n].Route(target);
      var ks := Forwarded(d, target, d.order);
      forall k :: 0 <= k < |ks| ==>
        d.keys[ks[k]].candidates == Without(Rotation(route, k % |route|), d.keys[ks[k]].sender)
  {
    RunInTurn(cs, labels, n);
    assert InTurn(cs[n], Disk(Run(cs, labels), n), target);
  }

  /** How many of the records have the peer as first choice. */
  function FirstChoices(s: State, ks: seq<KeyID>, p: Peer): nat {
    if ks == [] then 0
    else
      var last := ks[|ks| - 1];
      FirstChoices(s, ks[..|ks| - 1], p) + if last in s.keys && Prefers(s.keys[last], p) then 1 else 0
  }

  predicate Prefers(r: Record, p: Peer) { r.candidates != [] && r.candidates[0] == p }

  lemma ShareAt(m: nat, n: nat, q: nat)
    requires n > 0 && n * q <= m < n * (q + 1)
    ensures Share(m, n) == q
  {
    Multiples(n, q, Share(m, n));
    Multiples(n, Share(m, n), q);
  }

  lemma ShareNear(m: nat, n: nat, a: nat, x: nat)
    requires n > 0 && n * a <= m < n * a + n
    ensures x == m ==> Share(x, n) == a
    ensures x == m + n ==> Share(x, n) == a + 1
  {
    assert n * (a + 1) == n * a + n && n * (a + 2) == n * a + n + n;
    if x == m { ShareAt(x, n, a); }
    if x == m + n { ShareAt(x, n, a + 1); }
  }

  /** One more turn on a ring of n counts for the position whose turn it is. */
  lemma ShareGrows(m: nat, n: nat, pos: nat)
    requires pos < n
    ensures Share(m + 1 + n - 1 - pos, n) == Share(m + n - 1 - pos, n) + if m % n == pos then 1 else 0
  {
    hide Share;
    var a, b := m / n, m % n;
    var base := n * a;
    assert m == base + b;
    if b >= pos {
      ShareNear(base + (b - pos), n, a, m + n - pos);
    } else {
      ShareNear(base + (n + b - pos), n, a, m + n - pos);
    }
    if b > pos { ShareNear(base + (b - pos - 1), n, a, m + n - 1 - pos); }
    else { ShareNear(base + (n + b - pos - 1), n, a, m + n - 1 - pos); }
  }

  lemma SpanBounds(x: nat, m: nat, n: nat, a: nat, b: nat)
    requires n > 0 && n * a <= x < n * (a + 1) && n * b <= x + m < n * (b + 1)
    ensures b >= a && n * (b - a) < m + n && m < n * (b - a + 1)
  {
    Multiples(n, a, b);
    assert n * (b - a) == n * b - n * a && n * (b - a + 1) == n * (b + 1) - n * a && n * (a + 1) == n * a + n;
  }

  /** A stretch of m on a ring of n passes a position the rounded-down or the rounded-up share of the times. */
  lemma ShareSpan(x: nat, m: nat, n: nat)
    requires n > 0
    ensures var d := Share(x + m, n) - Share(x, n); d == m / n || d == (m + n - 1) / n
  {
    var low, high := Share(m, n), Share(m + n - 1, n);
    SpanBounds(x, m, n, Share(x, n), Share(x + m, n));
    var d := Share(x + m, n) - Share(x, n);
    hide Share;
    ShareIsQuotient(m, n, low);
    ShareIsQuotient(m + n - 1, n, high);
    var nd := n * d;
    assert n * (d + 1) == nd + n;
    NearQuotients(m, if m >= nd then m else nd, m + n - 1, n, low, d, high);
  }

  /** The records ks of a window, the first of them the i-th that took a turn. */
  lemma {:induction false} FirstChoicesCounted(s: State, ks: seq<KeyID>, route: seq<Peer>, i: nat, pos: nat)
    requires Distinct(route) && pos < |route|
    requires forall k :: 0 <= k < |ks| ==>
      ks[k] in s.keys && s.keys[ks[k]].candidates == Rotation(route, (i + k) % |route|)
    ensures var x := i + |route| - 1 - pos;
      FirstChoices(s, ks, route[pos]) == Share(x + |ks|, |route|) - Share(x, |route|)
  {
    hide Share;
    if ks != [] {
      var m := |ks| - 1;
      FirstChoicesCounted(s, ks[..m], route, i, pos);
      ShareGrows(i + m, |route|, pos);
      assert Rotation(route, (i + m) % |route|)[0] == route[(i + m) % |route|];
      assert Prefers(s.keys[ks[m]], route[pos]) <==> (i + m) % |route| == pos;
      hide Prefers, Rotation;
    }
  }

  /** The i-th to the j-th record forwarded to the target, none of which came from a peer on the route. */
  predicate Window(c: Policy, d: State, target: string, i: nat, j: nat) {
    var ks := Forwarded(d, target, d.order);
    i <= j <= |ks| && forall k :: i <= k < j ==> d.keys[ks[k]].sender !in c.Route(target)
  }

  lemma TurnsBalance(c: Policy, d: State, target: string, i: nat, j: nat, p: Peer)
    requires c.Valid() && p in c.Route(target) && InTurn(c, d, target) && Window(c, d, target, i, j)
    ensures var m, l := j - i, |c.Route(target)|;
      var times := FirstChoices(d, Forwarded(d, target, d.order)[i..j], p);
      times == m / l || times == (m + l - 1) / l
  {
    var route, ks := c.Route(target), Forwarded(d, target, d.order);
    hide Forwarded, Without, FirstChoices, Share;
    forall k | 0 <= k < j - i ensures d.keys[ks[i..j][k]].candidates == Rotation(route, (i + k) % |route|) {
      WithoutAbsent(Rotation(route, (i + k) % |route|), d.keys[ks[i + k]].sender);
    }
    assert GoodRoute(c.cfg, target);
    var pos :| 0 <= pos < |route| && route[pos] == p;
    FirstChoicesCounted(d, ks[i..j], route, i, pos);
    ShareSpan(i + |route| - 1 - pos, j - i, |route|);
  }

  /** At every moment of every run, for every window of consecutive records a node forwards to a target, none of
      them received from a peer on the route: every peer of the route is first choice of the rounded-down or the
      rounded-up even share of the window. */
  lemma RoundRobinBalance(cs: Policies, labels: seq<Label>, n: Peer, target: string, i: nat, j: nat, p: Peer)
    requires ValidPolicies(cs) && n in cs && p in cs[n].Route(target) && n in Run(cs, labels).nodes
    requires Window(cs[n], Disk(Run(cs, labels), n), target, i, j)
    ensures var d := Disk(Run(cs, labels), n);
      var m, l := j - i, |cs[n].Route(target)|;
      var times := FirstChoices(d, Forwarded(d, target, d.order)[i..j], p);
      times == m / l || times == (m + l - 1) / l
  {
    hide Run, Forwarded, InTurn, TurnInv, FirstChoices;
    RunInTurn(cs, labels, n);
    InTurnAt(cs[n], Disk(Run(cs, labels), n), target);
    TurnsBalance(cs[n], Disk(Run(cs, labels), n), target, i, j, p);
  }

  lemma InTurnAt(c: Policy, s: State, target: string)
    requires TurnInv(c, s)
    ensures InTurn(c, s, target)
  {
  }
}
