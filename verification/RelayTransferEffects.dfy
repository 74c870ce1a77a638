/** What storing a key and accepting a transfer make of each key. */
module RelayTransferEffects {
  import opened Core
  import opened Uuid
  import opened Peering
  import opened Etsi020
  import opened RelayState
  import opened RelayInvariant
  import opened RelayHandlers
  import opened RelayEffects
  import opened RelayVoidEffects

  // Routes.

  /** Some peer of the route other than the one a key comes from may take it. */
  predicate Routed(c: Policy, target: string, sender: Peer) { exists p :: p in c.Route(target) && p != sender }

  lemma CandidatesAre(c: Policy, s: State, target: string, sender: Peer)
    ensures forall p :: p in Candidates(c, s, target, sender).0 <==> p in c.Route(target) && p != sender
    ensures Candidates(c, s, target, sender).0 != [] <==> Routed(c, target, sender)
    ensures var s1 := Candidates(c, s, target, sender).1; s1 == s.(cursor := s1.cursor)
  {
    var route := c.Route(target);
    if route != [] {
      var turned := Rotation(route, Cursor(s, target) % |route|);
      WithoutMembers(turned, sender);
      assert forall p :: p in turned <==> p in route;
    }
    var candidates := Candidates(c, s, target, sender).0;
    if candidates != [] { assert candidates[0] in candidates; }
  }

  // Storing.

  /** The record of a key just stored here, still to be sent. */
  ghost predicate NewSource(c: Policy, k: Key, r: Record) {
    && r == Record(k.pair, Source, k.material, Some(Digest(WireKey(k.id, k.material, map[]), k.pair, map[])),
         map[], map[], "", "", r.candidates, false, false, false, None, k.created, k.expires,
         false, false, {}, {}, false, 0)
    && r.candidates != [] && forall p :: p in r.candidates <==> p in c.Route(k.pair.slave)
  }

  predicate Storable(c: Policy, s: State, k: Key, now: Time) {
    && ValidID(k.id) && |k.material| == 32 && k.pair.Valid() && ValidName(k.source)
    && 0 < k.created <= now < k.expires
    && k.pair in c.allowed && c.Local(k.pair.master) && !c.Local(k.pair.slave)
    && k.id !in s.keys && |s.keys| < c.capacity && c.Route(k.pair.slave) != []
  }

  lemma StoreAccepted(c: Policy, s: State, k: Key, now: Time)
    requires c.Valid()
    ensures (StoreGuard(c, k, now).Ok? && StoreBody(c, Working(s), k).Ok?) <==> Storable(c, s, k, now)
  {
    hide ValidID, ValidName, Candidates;
    CandidatesAre(c, Working(s), k.pair.slave, "");
    NamelessRoute(c, k.pair.slave);
    hide Policy.Valid, Routed;
  }

  /** A key is stored exactly when it is valid, for a pair whose master alone is local here, new, within capacity and
      has somewhere to go. It goes last, and nothing else changes. */
  lemma StoreEffect(c: Policy, s: State, k: Key, now: Time)
    requires c.Valid() && Inv(c, s)
    ensures (StoreGuard(c, k, now).Ok? && StoreBody(c, Working(s), k).Ok?) <==> Storable(c, s, k, now)
    ensures Storable(c, s, k, now) ==>
      var s' := StoreBody(c, Working(s), k).value;
      && k.id in s'.keys && NewSource(c, k, s'.keys[k.id]) && About(s', k.id) == {}
      && s'.order == s.order + [k.id] && Untouched(s, s', [k.id])
  {
    StoreAccepted(c, s, k, now);
    AboutOwing(c, s, k.id);
    hide Inv, Storable, ValidID, ValidName;
    if Storable(c, s, k, now) { Stored(c, s, k); }
  }

  lemma Stored(c: Policy, s: State, k: Key)
    requires c.Valid() && StoreBody(c, Working(s), k).Ok?
    ensures var s' := StoreBody(c, Working(s), k).value;
      && k.id in s'.keys && NewSource(c, k, s'.keys[k.id]) && About(s', k.id) == About(s, k.id)
      && s'.order == s.order + [k.id] && Untouched(s, s', [k.id])
  {
    CandidatesAre(c, Working(s), k.pair.slave, "");
    NamelessRoute(c, k.pair.slave);
    hide Policy.Valid, Candidates;
    var s' := StoreBody(c, Working(s), k).value;
    assert s'.acks == s.acks;
    forall x ensures About(s', x) == About(s, x) {}
  }

  /** Peers have names. */
  lemma NamelessRoute(c: Policy, target: string)
    requires c.Valid()
    ensures "" !in c.Route(target) && (Routed(c, target, "") <==> c.Route(target) != [])
  {
    var route := c.Route(target);
    assert route != [] ==> GoodRoute(c.cfg, target);
    if "" in route { PeerNamed(c, ""); }
    if route != [] { assert route[0] in route && route[0] != ""; }
  }

  // Transfers.

  /** The record of a key just received: held for a recipient here, or to be sent on; it lives for an hour. */
  ghost predicate NewReceived(c: Policy, peer: Peer, a: Association, t: Transfer, k: WireKey, now: Time, r: Record) {
    && r == Record(a, if c.Local(a.slave) then Target else Relay, k.value, Some(Digest(k, a, t.optional)), k.ext,
         t.optional, peer, "", r.candidates, false, c.Local(a.slave), false, None, now,
         now + 3600, false, false, {}, {}, false, 0)
    && (c.Local(a.slave) ==> r.candidates == [])
    && (!c.Local(a.slave) ==>
          r.candidates != [] && forall p :: p in r.candidates <==> p in c.Route(a.slave) && p != peer)
  }

  /** What a transfer makes of one of its keys. Known and being voided: the answers are given again. Known and due:
      it begins to be voided for the sender. Known and ready: "relayed" is said again. Unknown: a target says so at
      once, a relay owes nothing yet. */
  ghost predicate ReceivedAt(c: Policy, s: State, s': State, peer: Peer, a: Association, t: Transfer, k: WireKey,
      now: Time)
  {
    && k.id in s'.keys
    && var r', about' := s'.keys[k.id], About(s', k.id);
       if k.id !in s.keys then
         && NewReceived(c, peer, a, t, k, now, r')
         && about' == if c.Local(a.slave) then {Told(k.id, r', peer, Relayed)} else {}
       else
         var r := s.keys[k.id];
         if r.voiding then r' == r && Answered(k.id, r, about')
         else if r.expires <= now then Begins(r, r', peer) && Answered(k.id, r', about')
         else r' == r && about' == if r.ready then {Told(k.id, r, peer, Relayed)} else {}
  }

  lemma SameSettled(c: Policy, s: State, id: KeyID)
    requires Inv(c, s) && id in s.keys
    ensures var s' := Settle(s, id);
      && SameFrame(s, s') && s'.keys == s.keys && About(s', id) == Owing(id, s.keys[id]) && Untouched(s, s', [id])
  {
    assert RecInv(c, id, s.keys[id]);
    PutSame(s, id);
    hide Inv, RecInv, Settle, Untouched, Owing;
    SettledAbout(c, s, id, s.keys[id], false);
  }

  lemma KnownEffect(c: Policy, s: State, peer: Peer, a: Association, t: Transfer, k: WireKey, now: Time)
    requires Inv(c, s) && k.id in s.keys && s.keys[k.id].sender == peer && peer != ""
    ensures var s' := AcceptKnown(s, peer, k.id, now);
      && SameFrame(s, s') && Untouched(s, s', [k.id]) && ReceivedAt(c, s, s', peer, a, t, k, now)
  {
    var id, r := k.id, s.keys[k.id];
    if !r.voiding && r.expires <= now {
      VoidEffect(c, s, id, peer);
      hide Inv, Untouched, Answered, Begun;
    } else {
      CurrentEffect(c, s, peer, id, now);
      hide Inv, Untouched, Answered, Owing;
    }
  }

  /** A known key whose time has not come, or that is being voided, is answered as it stands. */
  lemma CurrentEffect(c: Policy, s: State, peer: Peer, id: KeyID, now: Time)
    requires Inv(c, s) && id in s.keys && s.keys[id].sender == peer && peer != ""
    requires s.keys[id].voiding || now < s.keys[id].expires
    ensures var s', r := AcceptKnown(s, peer, id, now), s.keys[id];
      && SameFrame(s, s') && s'.keys == s.keys && Untouched(s, s', [id]) && About(s', id) == Owing(id, r)
      && (r.voiding ==> Answered(id, r, Owing(id, r)))
      && (!r.voiding ==> Owing(id, r) == if r.ready then {Told(id, r, peer, Relayed)} else {})
  {
    var r := s.keys[id];
    assert RecInv(c, id, r);
    SameSettled(c, s, id);
    if r.voiding {
      FinishSettles(s, id);
      OwingAnswered(id, r);
    } else if r.ready {
      assert Owing(id, r) == {Told(id, r, peer, Relayed)};
    } else {
      OweNobody(s, id, r.pair, Relayed);
      assert Owing(id, r) == {};
    }
    hide Inv, RecInv, Untouched, Answered, Owe;
  }

  lemma NewEffect(c: Policy, s: State, peer: Peer, a: Association, t: Transfer, i: nat, now: Time)
    requires c.Valid() && Inv(c, s) && Admitted(c, peer, a, t) && i < |t.keys| && t.keys[i].id !in s.keys
    ensures AcceptNew(c, s, peer, a, t, t.keys[i], now).Ok? <==> c.Local(a.slave) || Routed(c, a.slave, peer)
    ensures var k, o := t.keys[i], AcceptNew(c, s, peer, a, t, t.keys[i], now); o.Ok? ==>
      && ReceivedAt(c, s, o.value, peer, a, t, k, now) && Untouched(s, o.value, [k.id])
      && o.value.keys.Keys == s.keys.Keys + {k.id} && o.value.order == s.order + [k.id]
  {
    hide Inv, Policy.Valid;
    if c.Local(a.slave) {
      NewTarget(c, s, peer, a, t, i, now);
    } else {
      CandidatesAre(c, s, a.slave, peer);
      if Routed(c, a.slave, peer) { NewRelay(c, s, peer, a, t, i, now); }
    }
    hide ReceivedAt, Untouched, Routed, Candidates;
  }

  lemma TargetOwes(id: KeyID, r: Record, peer: Peer)
    requires r.ready && !r.voiding && r.sender == peer && peer != ""
    ensures OwedPeers(r) == {peer} && CurrentStatus(r) == Relayed && Owing(id, r) == {Told(id, r, peer, Relayed)}
  {
    assert OwedPeers(r) == {peer};
  }

  lemma TargetSettles(c: Policy, s: State, peer: Peer, a: Association, t: Transfer, k: WireKey, now: Time)
    requires c.Local(a.slave) && k.id !in s.keys && peer != ""
    ensures var r := ReceivedRecord(Target, peer, a, t, k, now).(ready := true);
      AcceptNew(c, s, peer, a, t, k, now) == Ok(Settle(Put(s, k.id, r, false), k.id))
  {
    TargetOwes(k.id, ReceivedRecord(Target, peer, a, t, k, now).(ready := true), peer);
    hide Owe, Owing;
  }

  lemma NewTarget(c: Policy, s: State, peer: Peer, a: Association, t: Transfer, i: nat, now: Time)
    requires Inv(c, s) && Admitted(c, peer, a, t) && i < |t.keys| && t.keys[i].id !in s.keys
    requires c.Local(a.slave)
    ensures var k, s' := t.keys[i], AcceptNew(c, s, peer, a, t, t.keys[i], now).value;
      && ReceivedAt(c, s, s', peer, a, t, k, now) && Untouched(s, s', [k.id])
      && s'.keys.Keys == s.keys.Keys + {k.id} && s'.order == s.order + [k.id]
  {
    var k := t.keys[i];
    var r := ReceivedRecord(Target, peer, a, t, k, now).(ready := true);
    TargetRec(c, peer, a, t, i, now);
    TargetSettles(c, s, peer, a, t, k, now);
    TargetOwes(k.id, r, peer);
    hide Inv, RecInv, Untouched, Admitted, Settle, AcceptNew, Owing, OwedPeers, CurrentStatus;
    SettledAbout(c, s, k.id, r, false);
  }

  lemma NewRelay(c: Policy, s: State, peer: Peer, a: Association, t: Transfer, i: nat, now: Time)
    requires Inv(c, s) && Admitted(c, peer, a, t) && i < |t.keys| && t.keys[i].id !in s.keys
    requires !c.Local(a.slave) && Routed(c, a.slave, peer)
    ensures AcceptNew(c, s, peer, a, t, t.keys[i], now).Ok?
    ensures var k, s' := t.keys[i], AcceptNew(c, s, peer, a, t, t.keys[i], now).value;
      && ReceivedAt(c, s, s', peer, a, t, k, now) && Untouched(s, s', [k.id])
      && s'.keys.Keys == s.keys.Keys + {k.id} && s'.order == s.order + [k.id]
  {
    CandidatesAre(c, s, a.slave, peer);
    AboutOwing(c, s, t.keys[i].id);
    hide Inv, Candidates, Routed;
    var s' := AcceptNew(c, s, peer, a, t, t.keys[i], now).value;
    assert s'.acks == s.acks;
    forall x ensures About(s', x) == About(s, x) {}
  }

  ghost predicate AllReceived(c: Policy, s: State, s': State, peer: Peer, a: Association, t: Transfer, i: nat,
        now: Time)
  {
    forall k :: i <= k < |t.keys| ==> ReceivedAt(c, s, s', peer, a, t, t.keys[k], now)
  }

  lemma AcceptKeyEffect(c: Policy, s: State, peer: Peer, a: Association, t: Transfer, i: nat, now: Time)
    requires c.Valid() && Inv(c, s) && Admitted(c, peer, a, t) && KnownFrom(s, peer, a, t) && i < |t.keys|
    ensures AcceptKey(c, s, peer, a, t, t.keys[i], now).Ok? <==>
      t.keys[i].id in s.keys || c.Local(a.slave) || Routed(c, a.slave, peer)
    ensures var k, o := t.keys[i], AcceptKey(c, s, peer, a, t, t.keys[i], now); o.Ok? ==>
      && ReceivedAt(c, s, o.value, peer, a, t, k, now) && Untouched(s, o.value, [k.id])
      && o.value.keys.Keys == s.keys.Keys + {k.id} && o.value.order == s.order + News(s, [k.id])
  {
    hide Inv, Policy.Valid, ReceivedAt, Untouched, Routed, AcceptKnown, AcceptNew;
    var k := t.keys[i];
    if k.id in s.keys { KnownEffect(c, s, peer, a, t, k, now); } else { NewEffect(c, s, peer, a, t, i, now); }
  }

  lemma AllReceivedFirst(c: Policy, s: State, s1: State, s2: State, peer: Peer, a: Association, t: Transfer, i: nat,
        now: Time, rest: seq<KeyID>)
    requires i < |t.keys| && ReceivedAt(c, s, s1, peer, a, t, t.keys[i], now) && Untouched(s, s1, [t.keys[i].id])
    requires rest == KeyIDs(t.keys)[i + 1..] && t.keys[i].id !in rest
    requires Untouched(s1, s2, rest) && AllReceived(c, s1, s2, peer, a, t, i + 1, now)
    ensures AllReceived(c, s, s2, peer, a, t, i, now) && Untouched(s, s2, [t.keys[i].id] + rest)
  {
    hide Answered, Begun, NewReceived, About;
    assert SameAt(s1, s2, t.keys[i].id);
    forall k | i <= k < |t.keys| ensures ReceivedAt(c, s, s2, peer, a, t, t.keys[k], now) {
      if k > i {
        assert rest[k - i - 1] == t.keys[k].id;
        assert ReceivedAt(c, s1, s2, peer, a, t, t.keys[k], now) && SameAt(s, s1, t.keys[k].id);
      }
    }
    UntouchedTrans(s, s1, s2, [t.keys[i].id], rest, [t.keys[i].id] + rest);
  }

  /** The keys from position i on can all be taken. */
  predicate Takable(c: Policy, s: State, peer: Peer, a: Association, t: Transfer, i: nat)
    requires i <= |t.keys|
  {
    News(s, KeyIDs(t.keys)[i..]) == [] || c.Local(a.slave) || Routed(c, a.slave, peer)
  }

  lemma {:induction false} AcceptKeysEffect(c: Policy, s: State, peer: Peer, a: Association, t: Transfer, i: nat,
        now: Time)
    requires c.Valid() && Inv(c, s) && s.serial > 0 && i <= |t.keys|
    requires Admitted(c, peer, a, t) && KnownFrom(s, peer, a, t) && Distinct(KeyIDs(t.keys)[i..])
    ensures AcceptKeys(c, s, peer, a, t, i, now).Ok? <==> Takable(c, s, peer, a, t, i)
    ensures var o, ids := AcceptKeys(c, s, peer, a, t, i, now), KeyIDs(t.keys)[i..]; o.Ok? ==>
      && AllReceived(c, s, o.value, peer, a, t, i, now) && Untouched(s, o.value, ids)
      && o.value.order == s.order + News(s, ids)
    decreases |t.keys| - i
  {
    hide Inv, Policy.Valid, AllReceived, Untouched, Routed, AcceptKey, Admitted, KnownFrom, Delta, Takable, News;
    var ids := KeyIDs(t.keys)[i..];
    if i == |t.keys| {
      UntouchedRefl(s);
      NoneReceived(c, s, peer, a, t, now);
    } else {
      var id, rest, k := t.keys[i].id, KeyIDs(t.keys)[i + 1..], t.keys[i];
      assert ids == [id] + rest;
      FirstDistinct(id, rest);
      AcceptKeyEffect(c, s, peer, a, t, i, now);
      var o := AcceptKey(c, s, peer, a, t, k, now);
      if Takable(c, s, peer, a, t, i) { TakableFirst(c, s, peer, a, t, i); }
      if o.Ok? {
        NextReceived(c, s, peer, a, t, i, now);
        AcceptKeysEffect(c, o.value, peer, a, t, i + 1, now);
        TakableRest(c, s, o.value, peer, a, t, i);
        var o' := AcceptKeys(c, o.value, peer, a, t, i + 1, now);
        if o'.Ok? { AllReceivedFirst(c, s, o.value, o'.value, peer, a, t, i, now, rest); }
      }
    }
  }

  lemma NoneReceived(c: Policy, s: State, peer: Peer, a: Association, t: Transfer, now: Time)
    ensures Takable(c, s, peer, a, t, |t.keys|) && AllReceived(c, s, s, peer, a, t, |t.keys|, now)
    ensures News(s, KeyIDs(t.keys)[|t.keys|..]) == []
  {
  }

  lemma TakableFirst(c: Policy, s: State, peer: Peer, a: Association, t: Transfer, i: nat)
    requires i < |t.keys| && Takable(c, s, peer, a, t, i)
    ensures t.keys[i].id in s.keys || c.Local(a.slave) || Routed(c, a.slave, peer)
  {
    NewsFirst(s, t.keys[i].id, KeyIDs(t.keys)[i + 1..]);
    assert KeyIDs(t.keys)[i..] == [t.keys[i].id] + KeyIDs(t.keys)[i + 1..];
  }

  /** Once one key was taken, the rest decide. */
  lemma TakableRest(c: Policy, s: State, s1: State, peer: Peer, a: Association, t: Transfer, i: nat)
    requires i < |t.keys| && t.keys[i].id !in KeyIDs(t.keys)[i + 1..] && s1.keys.Keys == s.keys.Keys + {t.keys[i].id}
    requires t.keys[i].id in s.keys || c.Local(a.slave) || Routed(c, a.slave, peer)
    ensures Takable(c, s1, peer, a, t, i + 1) <==> Takable(c, s, peer, a, t, i)
    ensures News(s, KeyIDs(t.keys)[i..]) == News(s, [t.keys[i].id]) + News(s1, KeyIDs(t.keys)[i + 1..])
  {
    var id, rest := t.keys[i].id, KeyIDs(t.keys)[i + 1..];
    NewsFirst(s, id, rest);
    NewsSame(s, s1, rest, id);
    assert KeyIDs(t.keys)[i..] == [id] + rest;
  }

  lemma NextReceived(c: Policy, s: State, peer: Peer, a: Association, t: Transfer, i: nat, now: Time)
    requires c.Valid() && Inv(c, s) && s.serial > 0 && i < |t.keys|
    requires Admitted(c, peer, a, t) && KnownFrom(s, peer, a, t) && AcceptKey(c, s, peer, a, t, t.keys[i], now).Ok?
    ensures var s1 := AcceptKey(c, s, peer, a, t, t.keys[i], now).value;
      Inv(c, s1) && s1.serial > 0 && KnownFrom(s1, peer, a, t)
  {
    hide Inv, Policy.Valid, Delta, AcceptKnown, AcceptNew;
    var k := t.keys[i];
    if k.id in s.keys {
      AcceptKnownMoves(c, t, s.serial - 1, s, peer, k.id, now);
    } else {
      AcceptNewMoves(c, s.serial - 1, s, peer, a, t, i, now);
    }
    var s1 := AcceptKey(c, s, peer, a, t, k, now).value;
    SerialMoves(FromTransfer(peer, t), s, s1);
    KnownKept(c, s.serial - 1, s, s1, peer, a, t);
  }

  /** Whether a transfer is the peer's, for a pair this node has to do with and whose master is elsewhere. */
  predicate TransferAdmitted(c: Policy, peer: Peer, t: Transfer) {
    && TransferPair(t).Ok? && peer in c.cfg.peers && c.cfg.peers[peer].incoming
    && t.callback == c.cfg.peers[peer].url + Base(c.cfg.peers[peer].mode) + "/ack"
    && TransferPair(t).value in c.allowed && TransferPair(t).value.master !in c.cfg.localSAEs
  }

  /** Keys already known came from this peer, for this pair, and are the same, unless only a tombstone is known. */
  predicate Agreeing(s: State, peer: Peer, a: Association, t: Transfer, i: nat) {
    forall k :: i <= k < |t.keys| && t.keys[k].id in s.keys ==>
      var r := s.keys[t.keys[k].id];
      r.sender == peer && r.pair == a && (r.unknown || r.digest == Some(Digest(t.keys[k], a, t.optional)))
  }

  lemma {:induction false} AcceptCheckIs(s: State, peer: Peer, a: Association, t: Transfer, i: nat, news: nat)
    requires i <= |t.keys|
    ensures var o := AcceptCheck(s, peer, a, t, i, news);
      && (o.Ok? <==> Agreeing(s, peer, a, t, i))
      && (o.Ok? ==> o.value == news + |News(s, KeyIDs(t.keys)[i..])|)
    decreases |t.keys| - i
  {
    if i < |t.keys| {
      var id := t.keys[i].id;
      AcceptCheckIs(s, peer, a, t, i + 1, if id in s.keys then news else news + 1);
      assert KeyIDs(t.keys)[i..] == [id] + KeyIDs(t.keys)[i + 1..];
      NewsFirst(s, id, KeyIDs(t.keys)[i + 1..]);
      AgreeingNext(s, peer, a, t, i);
    }
  }

  lemma AgreeingNext(s: State, peer: Peer, a: Association, t: Transfer, i: nat)
    requires i < |t.keys|
    ensures Agreeing(s, peer, a, t, i) <==>
      && Agreeing(s, peer, a, t, i + 1)
      && (t.keys[i].id in s.keys ==>
            var r := s.keys[t.keys[i].id];
            r.sender == peer && r.pair == a && (r.unknown || r.digest == Some(Digest(t.keys[i], a, t.optional))))
  {
  }

  lemma AdmittedIs(c: Policy, peer: Peer, t: Transfer)
    ensures AcceptGuard(c, peer, t).Ok? <==> TransferAdmitted(c, peer, t)
    ensures TransferAdmitted(c, peer, t) ==> AcceptGuard(c, peer, t) == Ok(TransferPair(t).value)
  {
    hide TransferPair;
  }

  lemma TakableWorking(c: Policy, s: State, peer: Peer, a: Association, t: Transfer)
    ensures News(Working(s), KeyIDs(t.keys)) == News(s, KeyIDs(t.keys))
    ensures Takable(c, Working(s), peer, a, t, 0) <==> Takable(c, s, peer, a, t, 0)
    ensures Agreeing(Working(s), peer, a, t, 0) <==> Agreeing(s, peer, a, t, 0)
  {
    NewsWorking(s, KeyIDs(t.keys));
    assert KeyIDs(t.keys)[0..] == KeyIDs(t.keys);
  }

  /** The batch as a whole, once admitted, agreeing and fitting. */
  lemma BatchEffect(c: Policy, s: State, peer: Peer, a: Association, t: Transfer, now: Time)
    requires c.Valid() && Inv(c, s) && AcceptGuard(c, peer, t) == Ok(a) && Agreeing(s, peer, a, t, 0)
    ensures var o := AcceptKeys(c, Working(s), peer, a, t, 0, now);
      && (o.Ok? <==> Takable(c, s, peer, a, t, 0))
      && (o.Ok? ==>
           && AllReceived(c, s, o.value, peer, a, t, 0, now) && Untouched(s, o.value, KeyIDs(t.keys))
           && o.value.order == s.order + News(s, KeyIDs(t.keys)))
  {
    var w, ids := Working(s), KeyIDs(t.keys);
    GuardAdmits(c, peer, a, t);
    WorkingInv(c, s);
    assert KnownFrom(w, peer, a, t);
    assert ids[0..] == ids;
    TakableWorking(c, s, peer, a, t);
    hide Inv, Policy.Valid, AcceptGuard, Admitted, KnownFrom, Takable, AllReceived, Untouched, News;
    AcceptKeysEffect(c, w, peer, a, t, 0, now);
    var o := AcceptKeys(c, w, peer, a, t, 0, now);
    if o.Ok? { ReceivedWorking(c, s, o.value, peer, a, t, now); }
  }

  lemma ReceivedWorking(c: Policy, s: State, s': State, peer: Peer, a: Association, t: Transfer, now: Time)
    requires AllReceived(c, Working(s), s', peer, a, t, 0, now) && Untouched(Working(s), s', KeyIDs(t.keys))
    ensures AllReceived(c, s, s', peer, a, t, 0, now) && Untouched(s, s', KeyIDs(t.keys))
  {
    hide Answered, Begun, NewReceived;
    forall k | 0 <= k < |t.keys| ensures ReceivedAt(c, s, s', peer, a, t, t.keys[k], now) {
      assert ReceivedAt(c, Working(s), s', peer, a, t, t.keys[k], now);
    }
    forall x | x !in KeyIDs(t.keys) ensures SameAt(s, s', x) { assert SameAt(Working(s), s', x); }
  }

  /** Exactly the transfers that are admitted, agree with what is known, fit, and can be taken further are accepted,
      as a whole. Then each key of the batch is received, new ones in the order of the batch; no other changes. */
  lemma AcceptEffect(c: Policy, s: State, peer: Peer, t: Transfer, now: Time)
    requires c.Valid() && Inv(c, s)
    ensures Accept(c, s, peer, t, now).Ok? <==>
      && TransferAdmitted(c, peer, t) && Agreeing(s, peer, TransferPair(t).value, t, 0)
      && |s.keys| + |News(s, KeyIDs(t.keys))| <= c.capacity && Takable(c, s, peer, TransferPair(t).value, t, 0)
    ensures var o := Accept(c, s, peer, t, now); o.Ok? ==>
      && AllReceived(c, s, o.value, peer, TransferPair(t).value, t, 0, now)
      && Untouched(s, o.value, KeyIDs(t.keys)) && o.value.order == s.order + News(s, KeyIDs(t.keys))
  {
    hide TransferPair, Policy.Valid, AcceptGuard, AcceptKeys, AllReceived, Untouched, Takable, News, Agreeing, Inv;
    AdmittedIs(c, peer, t);
    if TransferAdmitted(c, peer, t) {
      var a, w := TransferPair(t).value, Working(s);
      hide TransferAdmitted;
      AcceptCheckIs(w, peer, a, t, 0, 0);
      assert KeyIDs(t.keys)[0..] == KeyIDs(t.keys);
      TakableWorking(c, s, peer, a, t);
      if Agreeing(s, peer, a, t, 0) { BatchEffect(c, s, peer, a, t, now); }
    }
  }
}
