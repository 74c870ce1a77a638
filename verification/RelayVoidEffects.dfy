/** What a request to void makes of each key. */
module RelayVoidEffects {
  import opened Core
  import opened Uuid
  import opened Peering
  import opened Etsi020
  import opened RelayState
  import opened RelayInvariant
  import opened RelayHandlers
  import opened RelayEffects

  // Voids asked for by a peer.

  /** The tombstone of a key never seen, voided at once for the peer that asked. */
  function Tomb(c: Policy, peer: Peer, a: Association, now: Time): Record {
    Record(a, if c.Local(a.slave) then Target else Relay, [], None, map[], map[], peer, "", [], false, false, false,
      None, now, now, true, false, {}, {peer}, true, 0)
  }

  ghost predicate VoidedAt(c: Policy, s: State, s': State, peer: Peer, a: Association, id: KeyID, now: Time) {
    && id in s'.keys && Answered(id, s'.keys[id], About(s', id))
    && if id in s.keys then VoidedBy(s.keys[id], s'.keys[id], peer) else s'.keys[id] == Tomb(c, peer, a, now)
  }

  /** Those of the identifiers that are not known. */
  function News(s: State, ids: seq<KeyID>): seq<KeyID> {
    if ids == [] then [] else (if ids[0] in s.keys then [] else [ids[0]]) + News(s, ids[1..])
  }

  lemma TombEffect(c: Policy, s: State, peer: Peer, a: Association, v: Void, id: KeyID, now: Time)
    requires Inv(c, s) && id !in s.keys && id != "" && id in v.ids && peer in c.cfg.peers && peer != ""
      && a in c.allowed
    requires v.targets != [] && a == Association(v.initiator, v.targets[0])
    ensures var s' := VoidKey(c, s, peer, a, id, now);
      && VoidedAt(c, s, s', peer, a, id, now) && Untouched(s, s', [id])
      && s'.keys.Keys == s.keys.Keys + {id} && s'.order == s.order + [id] && s'.cursor == s.cursor
  {
    var tomb := Tombstone(c, peer, a, now);
    var r' := Voiding(tomb, peer);
    TombstoneRec(c, peer, a, v, id, now);
    StartInserted(s, id, tomb, peer);
    FinishSettles(Put(s, id, r', true), id);
    OwingAnswered(id, r');
    assert r' == Tomb(c, peer, a, now);
    hide Inv, RecInv, FinishVoid, StartVoid, Voiding, Untouched, Answered, Settle, Tombstone, Tomb;
    SettledAbout(c, s, id, r', true);
  }

  lemma VoidKeyEffect(c: Policy, s: State, peer: Peer, a: Association, v: Void, ids: seq<KeyID>, i: nat, now: Time)
    requires Inv(c, s) && i < |ids| && peer in c.cfg.peers && peer != "" && a in c.allowed
    requires v.targets != [] && a == Association(v.initiator, v.targets[0]) && Voidable(s, peer, a, v, ids)
    ensures var id := ids[i]; var s' := VoidKey(c, s, peer, a, id, now);
      && VoidedAt(c, s, s', peer, a, id, now) && Untouched(s, s', [id])
      && s'.keys.Keys == s.keys.Keys + {id} && s'.order == s.order + News(s, [id]) && s'.cursor == s.cursor
  {
    var id := ids[i];
    hide Answered, Untouched, VoidedBy, Begins;
    if id in s.keys {
      assert RecInv(c, id, s.keys[id]);
      assert peer in Neighbours(s.keys[id]);
      VoidEffect(c, s, id, peer);
    } else {
      TombEffect(c, s, peer, a, v, id, now);
    }
    hide Inv, FinishVoid, StartVoid, Tomb;
  }

  ghost predicate AllVoided(c: Policy, s: State, s': State, peer: Peer, a: Association, ids: seq<KeyID>, now: Time) {
    forall k :: 0 <= k < |ids| ==> VoidedAt(c, s, s', peer, a, ids[k], now)
  }

  lemma NewsSame(s: State, s1: State, ids: seq<KeyID>, id: KeyID)
    requires s1.keys.Keys == s.keys.Keys + {id} && id !in ids
    ensures News(s1, ids) == News(s, ids)
  {
    if ids != [] { NewsSame(s, s1, ids[1..], id); }
  }

  lemma AllVoidedFirst(c: Policy, s: State, s1: State, s2: State, peer: Peer, a: Association, id: KeyID,
        rest: seq<KeyID>, now: Time)
    requires VoidedAt(c, s, s1, peer, a, id, now) && Untouched(s, s1, [id]) && id !in rest
    requires Untouched(s1, s2, rest) && AllVoided(c, s1, s2, peer, a, rest, now)
    ensures AllVoided(c, s, s2, peer, a, [id] + rest, now) && Untouched(s, s2, [id] + rest)
  {
    hide Answered, VoidedBy, Tomb, About;
    var all := [id] + rest;
    assert SameAt(s1, s2, id);
    forall k | 0 <= k < |all| ensures VoidedAt(c, s, s2, peer, a, all[k], now) {
      if k > 0 {
        assert all[k] == rest[k - 1] && VoidedAt(c, s1, s2, peer, a, rest[k - 1], now) && SameAt(s, s1, rest[k - 1]);
      }
    }
    UntouchedTrans(s, s1, s2, [id], rest, all);
  }

  lemma {:induction false} VoidKeysEffect(c: Policy, s: State, peer: Peer, a: Association, v: Void, ids: seq<KeyID>,
        i: nat, now: Time)
    requires Inv(c, s) && s.serial > 0 && i <= |ids| && peer in c.cfg.peers && peer != "" && a in c.allowed
    requires v.targets != [] && a == Association(v.initiator, v.targets[0]) && Voidable(s, peer, a, v, ids)
    requires Distinct(ids[i..])
    ensures var s' := VoidKeys(c, s, peer, a, ids, i, now);
      && AllVoided(c, s, s', peer, a, ids[i..], now) && Untouched(s, s', ids[i..])
      && s'.order == s.order + News(s, ids[i..]) && s'.cursor == s.cursor
    decreases |ids| - i
  {
    hide Inv, VoidKey, Untouched, VoidedAt, Voidable, AllVoided, Delta;
    if i < |ids| {
      var id, rest := ids[i], ids[i + 1..];
      assert ids[i..] == [id] + rest;
      FirstDistinct(id, rest);
      VoidKeyEffect(c, s, peer, a, v, ids, i, now);
      VoidKeyMoves(c, s.serial - 1, s, peer, a, v, ids, i, now);
      var s1 := VoidKey(c, s, peer, a, id, now);
      VoidableKept(s.serial - 1, s, s1, peer, a, v, ids);
      SerialMoves(FromVoid(peer, v), s, s1);
      VoidKeysEffect(c, s1, peer, a, v, ids, i + 1, now);
      NewsSame(s, s1, rest, id);
      AllVoidedFirst(c, s, s1, VoidKeys(c, s1, peer, a, ids, i + 1, now), peer, a, id, rest, now);
      NewsFirst(s, id, rest);
    } else {
      UntouchedRefl(s);
      NoneVoided(c, s, peer, a, now);
      assert ids[i..] == [];
    }
  }

  lemma NewsFirst(s: State, id: KeyID, rest: seq<KeyID>)
    ensures News(s, [id] + rest) == News(s, [id]) + News(s, rest)
  {
    assert ([id] + rest)[1..] == rest;
  }

  lemma NoneVoided(c: Policy, s: State, peer: Peer, a: Association, now: Time)
    ensures AllVoided(c, s, s, peer, a, [], now)
  {
  }

  /** The key is known, for this pair, and came from the peer or went to it. */
  predicate Exchanged(s: State, peer: Peer, a: Association, id: KeyID) {
    id in s.keys && s.keys[id].pair == a && (s.keys[id].sender == peer || s.keys[id].next == peer)
  }

  /** The peer may void this key: it was exchanged with it, or is unknown and transfers come from there. */
  predicate MayVoid(c: Policy, s: State, peer: Peer, a: Association, id: KeyID)
    requires peer in c.cfg.peers
  {
    if id in s.keys then Exchanged(s, peer, a, id) else c.cfg.peers[peer].incoming
  }

  lemma {:induction false} VoidCheckIs(c: Policy, s: State, peer: Peer, a: Association, ids: seq<KeyID>, i: nat,
        news: nat)
    requires peer in c.cfg.peers && i <= |ids|
    ensures var r := VoidCheck(s, c.cfg.peers[peer].incoming, peer, a, ids, i, news);
      && (r.Ok? <==> forall k :: i <= k < |ids| ==> MayVoid(c, s, peer, a, ids[k]))
      && (r.Ok? ==> r.value == news + |News(s, ids[i..])|)
    decreases |ids| - i
  {
    if i < |ids| {
      VoidCheckIs(c, s, peer, a, ids, i + 1, if ids[i] in s.keys then news else news + 1);
      assert ids[i..] == [ids[i]] + ids[i + 1..];
      assert (forall k :: i <= k < |ids| ==> MayVoid(c, s, peer, a, ids[k])) <==>
        MayVoid(c, s, peer, a, ids[i]) && forall k :: i + 1 <= k < |ids| ==> MayVoid(c, s, peer, a, ids[k]);
    }
  }

  /** Whether a request to void is the peer's, for a pair this node has to do with. */
  predicate VoidAdmitted(c: Policy, peer: Peer, v: Void) {
    && VoidPair(v).Ok? && peer in c.cfg.peers
    && v.callback == c.cfg.peers[peer].url + Base(c.cfg.peers[peer].mode) + "/ack" && VoidPair(v).value in c.allowed
  }

  ghost predicate MayVoidAll(c: Policy, s: State, peer: Peer, a: Association, ids: seq<KeyID>)
    requires peer in c.cfg.peers
  {
    forall k :: 0 <= k < |ids| ==> MayVoid(c, s, peer, a, ids[k])
  }

  lemma VoidListAccepted(c: Policy, s: State, peer: Peer, v: Void, now: Time)
    requires v.ids != [] && VoidAdmitted(c, peer, v)
    ensures var o, a := VoidRequest(c, s, peer, v, now), VoidPair(v).value;
      && (o.Ok? <==> MayVoidAll(c, s, peer, a, v.ids) && |s.keys| + |News(s, v.ids)| <= c.capacity)
      && (o.Ok? ==> o.value == VoidKeys(c, Working(s), peer, a, v.ids, 0, now))
  {
    hide VoidPair, VoidKeys;
    var a, w := VoidPair(v).value, Working(s);
    VoidCheckIs(c, w, peer, a, v.ids, 0, 0);
    assert v.ids[0..] == v.ids;
    NewsWorking(s, v.ids);
    hide VoidCheck, News;
    assert MayVoidAll(c, s, peer, a, v.ids) <==> MayVoidAll(c, w, peer, a, v.ids);
  }

  /** A list of keys to void is accepted as a whole, exactly when the peer may void each of them and the unknown
      ones fit. Then each is voided for the peer, unknown ones as tombstones in the order of the list; no other
      key changes. */
  lemma VoidListEffect(c: Policy, s: State, peer: Peer, v: Void, now: Time)
    requires c.Valid() && Inv(c, s) && v.ids != []
    ensures VoidRequest(c, s, peer, v, now).Ok? <==>
      && VoidAdmitted(c, peer, v) && MayVoidAll(c, s, peer, VoidPair(v).value, v.ids)
      && |s.keys| + |News(s, v.ids)| <= c.capacity
    ensures var o := VoidRequest(c, s, peer, v, now); o.Ok? ==>
      && AllVoided(c, s, o.value, peer, VoidPair(v).value, v.ids, now) && Untouched(s, o.value, v.ids)
      && o.value.order == s.order + News(s, v.ids) && o.value.cursor == s.cursor
  {
    hide VoidPair, VoidKeys, AllVoided, Untouched, News, Policy.Valid;
    if VoidAdmitted(c, peer, v) {
      VoidListAccepted(c, s, peer, v, now);
      if VoidRequest(c, s, peer, v, now).Ok? { ListVoided(c, s, peer, v, now); }
    }
  }

  lemma ListVoided(c: Policy, s: State, peer: Peer, v: Void, now: Time)
    requires c.Valid() && Inv(c, s) && VoidAdmitted(c, peer, v) && MayVoidAll(c, s, peer, VoidPair(v).value, v.ids)
    ensures var a := VoidPair(v).value; var s' := VoidKeys(c, Working(s), peer, a, v.ids, 0, now);
      && AllVoided(c, s, s', peer, a, v.ids, now) && Untouched(s, s', v.ids)
      && s'.order == s.order + News(s, v.ids) && s'.cursor == s.cursor
  {
    var a, w := VoidPair(v).value, Working(s);
    PeerNamed(c, peer);
    WorkingInv(c, s);
    ListVoidable(c, w, peer, a, v);
    NewsWorking(s, v.ids);
    assert v.ids[0..] == v.ids;
    hide VoidPair, VoidKeys, AllVoided, Untouched, News, Policy.Valid, Inv, Voidable;
    VoidKeysEffect(c, w, peer, a, v, v.ids, 0, now);
    VoidedWorking(c, s, VoidKeys(c, w, peer, a, v.ids, 0, now), peer, a, v.ids, now);
  }

  lemma NewsWorking(s: State, ids: seq<KeyID>)
    ensures News(Working(s), ids) == News(s, ids)
  {
    if ids != [] { NewsWorking(s, ids[1..]); }
  }

  lemma ListVoidable(c: Policy, s: State, peer: Peer, a: Association, v: Void)
    requires peer in c.cfg.peers && VoidPair(v).Ok?
    requires forall k :: 0 <= k < |v.ids| ==> MayVoid(c, s, peer, a, v.ids[k])
    ensures Voidable(s, peer, a, v, v.ids) && Distinct(v.ids) && v.targets != []
      && VoidPair(v).value == Association(v.initiator, v.targets[0])
  {
    forall i | 0 <= i < |v.ids| ensures v.ids[i] != "" && (v.ids[i] in s.keys ==> Involves(s, peer, a, v.ids[i])) {
      assert MayVoid(c, s, peer, a, v.ids[i]);
      NonEmpty(v.ids[i]);
    }
  }

  lemma VoidedWorking(c: Policy, s: State, s': State, peer: Peer, a: Association, ids: seq<KeyID>, now: Time)
    requires AllVoided(c, Working(s), s', peer, a, ids, now) && Untouched(Working(s), s', ids)
    ensures AllVoided(c, s, s', peer, a, ids, now) && Untouched(s, s', ids)
  {
    hide Answered, VoidedBy, Tomb;
    forall k | 0 <= k < |ids| ensures VoidedAt(c, s, s', peer, a, ids[k], now) {
      assert VoidedAt(c, Working(s), s', peer, a, ids[k], now);
    }
    forall x | x !in ids ensures SameAt(s, s', x) { assert SameAt(Working(s), s', x); }
  }

  /** A request to void everything of a pair is accepted when it is admitted and the records are within capacity.
      It voids exactly the keys of the pair exchanged with the peer; if there are none, the peer is owed the
      result that there were none, once. */
  lemma VoidEverythingEffect(c: Policy, s: State, peer: Peer, v: Void, now: Time)
    requires c.Valid() && Inv(c, s) && v.ids == [] && |s.keys| <= c.capacity
    ensures var o := VoidRequest(c, s, peer, v, now);
      && (o.Ok? <==> VoidAdmitted(c, peer, v))
      && (o.Ok? ==>
           var a := VoidPair(v).value;
           && SameFrame(s, o.value)
           && (forall x :: if Exchanged(s, peer, a, x) then VoidedAt(c, s, o.value, peer, a, x, now)
                 else SameAt(s, o.value, x))
           && Blank(o.value) == if exists x :: Exchanged(s, peer, a, x) then Blank(s)
             else Blank(s) + {Notice(peer, Ack([], NotPresent, a.master, [a.slave]))})
  {
    hide VoidedAt, VoidKeys, VoidCheck, Involved, Policy.Valid, VoidPair, SameAt, Blank;
    if VoidAdmitted(c, peer, v) {
      var a := VoidPair(v).value;
      var ids := Involved(Working(s), peer, a, s.order);
      ExchangedAre(c, s, peer, a);
      hide Inv;
      if ids == [] {
        NothingEffect(c, s, peer, a);
        assert VoidRequest(c, s, peer, v, now) == Ok(VoidNothing(Working(s), peer, a));
      } else {
        assert Exchanged(s, peer, a, ids[0]);
        EverythingVoided(c, s, peer, a, v, ids, now);
      }
      hide VoidRequest, Exchanged;
    }
  }

  lemma ExchangedAre(c: Policy, s: State, peer: Peer, a: Association)
    requires Inv(c, s)
    ensures forall x :: x in Involved(Working(s), peer, a, s.order) <==> Exchanged(s, peer, a, x)
  {
    var w := Working(s);
    InvolvedMembers(w, peer, a, w.order);
    hide Involved;
  }

  lemma EverythingVoided(c: Policy, s: State, peer: Peer, a: Association, v: Void, ids: seq<KeyID>, now: Time)
    requires c.Valid() && Inv(c, s) && v.ids == [] && |s.keys| <= c.capacity && VoidAdmitted(c, peer, v)
    requires a == VoidPair(v).value && ids == Involved(Working(s), peer, a, s.order) && ids != []
    requires forall x :: x in ids <==> Exchanged(s, peer, a, x)
    ensures var o := VoidRequest(c, s, peer, v, now);
      && o.Ok? && SameFrame(s, o.value) && Blank(o.value) == Blank(s)
      && forall x :: if x in ids then VoidedAt(c, s, o.value, peer, a, x, now) else SameAt(s, o.value, x)
  {
    hide VoidPair, VoidKeys, Involved, VoidedAt, SameAt, Blank, Policy.Valid;
    EverythingAccepted(c, s, peer, a, v, ids, now);
    InvolvedDistinct(Working(s), peer, a, s.order);
    hide VoidRequest, Inv;
    ExchangedVoided(c, s, peer, a, v, ids, now);
  }

  lemma ExchangedVoided(c: Policy, s: State, peer: Peer, a: Association, v: Void, ids: seq<KeyID>, now: Time)
    requires c.Valid() && Inv(c, s) && VoidAdmitted(c, peer, v) && a == VoidPair(v).value && Distinct(ids)
    requires forall x :: x in ids ==> Exchanged(s, peer, a, x)
    ensures var s' := VoidKeys(c, Working(s), peer, a, ids, 0, now);
      && SameFrame(s, s') && Blank(s') == Blank(s)
      && forall x :: if x in ids then VoidedAt(c, s, s', peer, a, x, now) else SameAt(s, s', x)
  {
    hide VoidPair, VoidKeys, AllVoided, Untouched, News;
    var w := Working(s);
    forall k | 0 <= k < |ids| ensures ids[k] in s.keys { assert ids[k] in ids; }
    NoNews(w, ids);
    PeerNamed(c, peer);
    WorkingInv(c, s);
    KnownVoidable(c, w, peer, a, v, ids);
    PairTargets(v);
    assert ids[0..] == ids;
    hide Inv, Policy.Valid, Voidable;
    VoidKeysEffect(c, w, peer, a, v, ids, 0, now);
    VoidedWorking(c, s, VoidKeys(c, w, peer, a, ids, 0, now), peer, a, ids, now);
    KnownVoided(c, s, VoidKeys(c, w, peer, a, ids, 0, now), peer, a, ids, now);
  }

  lemma PairTargets(v: Void)
    requires VoidPair(v).Ok?
    ensures v.targets != [] && VoidPair(v).value == Association(v.initiator, v.targets[0])
  {
  }

  lemma EverythingAccepted(c: Policy, s: State, peer: Peer, a: Association, v: Void, ids: seq<KeyID>, now: Time)
    requires v.ids == [] && |s.keys| <= c.capacity && VoidAdmitted(c, peer, v)
    requires a == VoidPair(v).value && ids == Involved(Working(s), peer, a, s.order) && ids != []
    requires forall x :: x in ids <==> Exchanged(s, peer, a, x)
    ensures VoidRequest(c, s, peer, v, now) == Ok(VoidKeys(c, Working(s), peer, a, ids, 0, now))
  {
    hide VoidPair, VoidKeys, Involved;
    var w := Working(s);
    VoidCheckIs(c, w, peer, a, ids, 0, 0);
    assert ids[0..] == ids;
    forall k | 0 <= k < |ids| ensures MayVoid(c, w, peer, a, ids[k]) && ids[k] in s.keys { assert ids[k] in ids; }
    NoNews(w, ids);
  }

  lemma KnownVoided(c: Policy, s: State, s': State, peer: Peer, a: Association, ids: seq<KeyID>, now: Time)
    requires AllVoided(c, s, s', peer, a, ids, now) && Untouched(s, s', ids) && forall x :: x in ids ==> x in s.keys
    ensures Blank(s') == Blank(s) && s'.keys.Keys == s.keys.Keys
    ensures forall x :: if x in ids then VoidedAt(c, s, s', peer, a, x, now) else SameAt(s, s', x)
  {
    hide Answered, VoidedBy, About, Blank;
    forall x ensures if x in ids then VoidedAt(c, s, s', peer, a, x, now) else SameAt(s, s', x)
      ensures x in s'.keys <==> x in s.keys {
      if x in ids {
        var k :| 0 <= k < |ids| && ids[k] == x;
        assert VoidedAt(c, s, s', peer, a, ids[k], now);
      }
    }
    assert s'.keys.Keys == s.keys.Keys;
  }

  lemma NothingEffect(c: Policy, s: State, peer: Peer, a: Association)
    requires Inv(c, s)
    ensures var s' := VoidNothing(Working(s), peer, a);
      && SameFrame(s, s') && (forall x :: SameAt(s, s', x))
      && Blank(s') == Blank(s) + {Notice(peer, Ack([], NotPresent, a.master, [a.slave]))}
  {
    var w, n := Working(s), Notice(peer, Ack([], NotPresent, a.master, [a.slave]));
    var s' := VoidNothing(w, peer, a);
    forall x ensures SameAt(s, w, x) {}
    if NothingMatched(w.acks, peer, a) {
      var j :| j in w.acks && w.acks[j].peer == peer && w.acks[j].ack.ids == [] && w.acks[j].ack.initiator == a.master
        && w.acks[j].ack.targets == [a.slave];
      assert JobInv(c, s, j);
      assert n in Blank(s);
    } else {
      BlankAdded(c, w, peer, a);
    }
  }

  lemma BlankAdded(c: Policy, w: State, peer: Peer, a: Association)
    requires !NothingMatched(w.acks, peer, a) && forall j :: j in w.acks ==> j.serial < w.serial
    ensures var s' := VoidNothing(w, peer, a);
      && (forall x :: About(s', x) == About(w, x))
      && Blank(s') == Blank(w) + {Notice(peer, Ack([], NotPresent, a.master, [a.slave]))}
  {
    var s', j := VoidNothing(w, peer, a), JobID(w.serial, "", peer);
    assert j !in w.acks && s'.acks == w.acks[j := s'.acks[j]];
    forall i | i in w.acks ensures i in s'.acks && s'.acks[i] == w.acks[i] {}
    forall x ensures About(s', x) == About(w, x) {}
    var n := Notice(peer, Ack([], NotPresent, a.master, [a.slave]));
    assert Notice(s'.acks[j].peer, s'.acks[j].ack) == n;
    forall m | m in Blank(s') ensures m in Blank(w) + {n} {}
    forall m | m in Blank(w) + {n} ensures m in Blank(s') {}
  }

  lemma {:induction false} NoNews(s: State, ids: seq<KeyID>)
    requires forall k :: 0 <= k < |ids| ==> ids[k] in s.keys
    ensures News(s, ids) == []
  {
    if ids != [] { NoNews(s, ids[1..]); }
  }

  lemma {:induction false} InvolvedDistinct(s: State, peer: Peer, a: Association, ids: seq<KeyID>)
    requires Distinct(ids)
    ensures Distinct(Involved(s, peer, a, ids))
  {
    if ids != [] {
      InvolvedDistinct(s, peer, a, ids[1..]);
      InvolvedMembers(s, peer, a, ids[1..]);
      assert ids[0] !in ids[1..];
    }
  }

  lemma KnownVoidable(c: Policy, s: State, peer: Peer, a: Association, v: Void, ids: seq<KeyID>)
    requires Inv(c, s) && forall x :: x in ids ==> Exchanged(s, peer, a, x)
    ensures Voidable(s, peer, a, v, ids)
  {
    forall i | 0 <= i < |ids| ensures ids[i] != "" && Involves(s, peer, a, ids[i]) { assert ids[i] in ids; }
  }
}
