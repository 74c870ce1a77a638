/** What local recipients, the operator and the expiry sweep make of each key. */
module RelayLocalEffects {
  import opened Core
  import opened Uuid
  import opened Counting
  import opened Peering
  import opened RelayState
  import opened RelayInvariant
  import opened RelayNetwork
  import opened RelayEffects
  import opened RelayNode

  // The sweep.

  predicate Overdue(r: Record, now: Time) { !r.voiding && r.expires <= now }

  /** The sweep begins to void every record whose time has come, with whatever was pending about it, and leaves
      everything else alone. */
  lemma ExpireEffect(c: Policy, s: State, now: Time)
    requires Inv(c, s)
    ensures var s' := Expire(Working(s), now);
      && SameFrame(s, s') && Blank(s') == Blank(s)
      && forall x :: if x in s.keys && !s.keys[x].voiding && s.keys[x].expires <= now
           then Begins(s.keys[x], s'.keys[x], "") && s'.keys[x].material == [] && About(s', x) == {}
           else SameAt(s, s', x)
  {
    var s' := Expire(Working(s), now);
    assert s'.keys.Keys == s.keys.Keys;
    SweptBlank(c, s, now);
    forall x ensures if x in s.keys && Overdue(s.keys[x], now)
      then Begins(s.keys[x], s'.keys[x], "") && About(s', x) == {} else SameAt(s, s', x) {
      SweptKey(c, s, now, x);
    }
    hide Inv, Expire, About, Blank;
  }

  lemma SweptBlank(c: Policy, s: State, now: Time)
    requires Inv(c, s)
    ensures Blank(Expire(Working(s), now)) == Blank(s)
  {
    assert "" !in s.keys;
    hide Inv;
    var s' := Expire(Working(s), now);
    forall n | n in Blank(s) ensures n in Blank(s') {
      var j :| j in s.acks && s.acks[j].ack.ids == [] && n == Notice(s.acks[j].peer, s.acks[j].ack);
      assert j in s'.acks;
    }
    forall n | n in Blank(s') ensures n in Blank(s) {
      var j :| j in s'.acks && s'.acks[j].ack.ids == [] && n == Notice(s'.acks[j].peer, s'.acks[j].ack);
      assert j in s.acks;
    }
  }

  lemma SweptAbout(c: Policy, s: State, now: Time, x: KeyID)
    requires Inv(c, s)
    ensures About(Expire(Working(s), now), x) == if x in s.keys && Overdue(s.keys[x], now) then {} else About(s, x)
  {
    AboutOwing(c, s, x);
    if x in s.keys { JobsNamed(c, s, x); }
    hide Inv;
    var s' := Expire(Working(s), now);
    forall n | n in About(s', x) ensures n in About(s, x) && !(x in s.keys && Overdue(s.keys[x], now)) {
      var j :| j in s'.acks && x in s'.acks[j].ack.ids && n == Notice(s'.acks[j].peer, s'.acks[j].ack);
      assert j in s.acks && n in About(s, x);
    }
    forall n | n in About(s, x) && !(x in s.keys && Overdue(s.keys[x], now)) ensures n in About(s', x) {
      var j :| j in s.acks && x in s.acks[j].ack.ids && n == Notice(s.acks[j].peer, s.acks[j].ack);
      assert j in s'.acks;
    }
  }

  lemma SweptKey(c: Policy, s: State, now: Time, x: KeyID)
    requires Inv(c, s)
    ensures var s' := Expire(Working(s), now);
      if x in s.keys && Overdue(s.keys[x], now) then Begins(s.keys[x], s'.keys[x], "") && About(s', x) == {}
      else SameAt(s, s', x)
  {
    SweptAbout(c, s, now, x);
    if x in s.keys {
      assert RecInv(c, x, s.keys[x]);
      hide Inv, About;
      VoidingBy(c, x, s.keys[x], "");
      hide RecInv, Begins, Voiding;
    }
  }

  // Recipients.

  /** A key a local recipient can still have. */
  predicate Alive(r: Record, now: Time) { r.ready && !r.voiding && !r.delivered && now < r.expires }

  lemma AliveUsable(c: Policy, s: State, id: KeyID, now: Time)
    requires Inv(c, s) && id in s.keys && s.keys[id].role != Relay
    ensures Usable(s.keys[id], now) <==> Alive(s.keys[id], now)
  {
    assert RecInv(c, id, s.keys[id]);
  }

  /** The free keys of a pair: stored here, acknowledged, alive and not reserved. */
  function Free(s: State, a: Association, now: Time): set<KeyID> {
    set id | id in s.keys && s.keys[id].pair == a && s.keys[id].role == Source && s.keys[id].token == None
      && Alive(s.keys[id], now)
  }

  lemma FreeAvailable(c: Policy, s: State, a: Association, now: Time)
    requires Inv(c, s)
    ensures AvailableSet(s, a, now) == Free(s, a, now) && Inventory(s, a, now) == |Free(s, a, now)|
  {
    forall id | id in s.keys && s.keys[id].role == Source
      ensures Usable(s.keys[id], now) <==> Alive(s.keys[id], now) { AliveUsable(c, s, id, now); }
    hide Inv, Usable;
    assert AvailableSet(s, a, now) == Free(s, a, now);
  }

  /** A batch can be reserved exactly for a pair whose master is local, of a size from 1 to 128, when there are that
      many free keys. Then the first of them are marked with a token of this transaction, and nothing else. */
  lemma ReserveEffect(c: Policy, s: State, a: Association, n: int, now: Time)
    requires Inv(c, s)
    ensures Inventory(s, a, now) == |Free(s, a, now)|
    ensures Reserve(c, s, a, n, now).Ok? <==>
      1 <= n <= 128 && a in c.allowed && c.Local(a.master) && n <= |Free(s, a, now)|
    ensures var o := Reserve(c, s, a, n, now); o.Ok? ==>
      var (s', res) := o.value;
      && |res.ids| == n && FirstOf(s.order, Free(s, a, now), res.ids) && res.token == s.serial + 1
      && SameFrame(s, s') && s'.acks == s.acks
      && forall x :: x in s.keys ==>
           s'.keys[x] == if x in res.ids then s.keys[x].(token := Some(res.token)) else s.keys[x]
  {
    FreeAvailable(c, s, a, now);
    if 1 <= n <= 128 && a in c.allowed && c.Local(a.master) { ReservesWhatInventoryShows(c, s, a, n, now); }
    hide Inv, Usable, AvailableIDs, Free, AvailableSet;
  }

  /** All keys reserved under the token are this pair's and alive. */
  ghost predicate AllHeld(s: State, a: Association, token: nat, ids: seq<KeyID>, now: Time) {
    forall k :: 0 <= k < |ids| && ids[k] in s.keys && s.keys[ids[k]].token == Some(token) ==>
      s.keys[ids[k]].pair == a && Alive(s.keys[ids[k]], now)
  }

  function Marked(s: State, token: nat): set<KeyID> { set id | id in s.keys && s.keys[id].token == Some(token) }

  lemma {:induction false} CollectIs(c: Policy, s: State, a: Association, token: nat, i: nat, now: Time)
    requires Inv(c, s) && i <= |s.order|
    ensures var o := Collect(s, a, token, i, now);
      (o.Ok? <==> AllHeld(s, a, token, s.order[i..], now))
        && (o.Ok? ==> o.value == Select(s.order[i..], Marked(s, token)))
    decreases |s.order| - i
  {
    hide Inv, Usable, Alive, AllHeld;
    if i < |s.order| {
      var id := s.order[i];
      MarkedAlive(c, s, i, token, now);
      CollectIs(c, s, a, token, i + 1, now);
      HeldFirst(s, a, token, id, s.order[i + 1..], now);
      assert s.order[i..] == [id] + s.order[i + 1..];
      SelectFrom(s.order, Marked(s, token), i);
    } else {
      assert s.order[i..] == [];
      NoneHeld(s, a, token, now);
    }
  }

  lemma NoneHeld(s: State, a: Association, token: nat, now: Time)
    ensures AllHeld(s, a, token, [], now)
  {
  }

  lemma SelectFrom(ids: seq<KeyID>, good: set<KeyID>, i: nat)
    requires i < |ids|
    ensures Select(ids[i..], good) == (if ids[i] in good then [ids[i]] else []) + Select(ids[i + 1..], good)
  {
    assert ids[i..][1..] == ids[i + 1..];
  }

  /** A key with a token is stored here. */
  lemma MarkedAlive(c: Policy, s: State, i: nat, token: nat, now: Time)
    requires Inv(c, s) && i < |s.order|
    ensures s.order[i] in s.keys
    ensures var r := s.keys[s.order[i]];
      r.token == Some(token) ==> r.role == Source && (Usable(r, now) <==> Alive(r, now))
  {
    var id := s.order[i];
    assert RecInv(c, id, s.keys[id]);
    if s.keys[id].token == Some(token) { AliveUsable(c, s, id, now); }
    hide Inv, Usable, Alive;
  }

  lemma HeldFirst(s: State, a: Association, token: nat, id: KeyID, rest: seq<KeyID>, now: Time)
    requires id in s.keys
    ensures AllHeld(s, a, token, [id] + rest, now) <==>
      && AllHeld(s, a, token, rest, now)
      && (s.keys[id].token == Some(token) ==> s.keys[id].pair == a && Alive(s.keys[id], now))
  {
    var all := [id] + rest;
    assert all[0] == id;
    forall k | 0 <= k < |rest| ensures all[k + 1] == rest[k] {}
    assert AllHeld(s, a, token, all, now) ==> AllHeld(s, a, token, rest, now) by {
      if AllHeld(s, a, token, all, now) {
        forall k | 0 <= k < |rest| && rest[k] in s.keys && s.keys[rest[k]].token == Some(token)
          ensures s.keys[rest[k]].pair == a && Alive(s.keys[rest[k]], now) { assert all[k + 1] == rest[k]; }
      }
    }
  }

  /** What handing keys out leaves: delivered records without bytes, and everything else as it was. */
  predicate HandedOut(s: State, s': State, ids: seq<KeyID>) {
    && SameFrame(s, s') && s'.acks == s.acks
    && forall x :: x in s.keys ==>
         s'.keys[x] == if x in ids then s.keys[x].(delivered := true, token := None, material := []) else s.keys[x]
  }

  /** The stored bytes of these keys, in this order. */
  predicate BytesOf(s: State, ids: seq<KeyID>, ds: seq<Delivery>) {
    |ds| == |ids| && forall k :: 0 <= k < |ids| ==>
      ids[k] in s.keys && ds[k].id == ids[k] && ds[k].material == s.keys[ids[k]].material
  }

  lemma Handing(s: State, ids: seq<KeyID>)
    requires forall k :: 0 <= k < |ids| ==> ids[k] in s.keys
    ensures HandedOut(s, DeliverAll(Working(s), ids), ids) && BytesOf(s, ids, Deliveries(Working(s), ids))
  {
  }

  /** A reservation can be consumed exactly while it has keys and all of them are the pair's and alive. All of them
      are then handed out, in insertion order. */
  lemma ConsumeReservationEffect(c: Policy, s: State, a: Association, token: Option<nat>, now: Time)
    requires Inv(c, s)
    ensures ConsumeReservation(s, a, token, now).Ok? <==>
      && token.Some? && Marked(s, token.value) != {}
      && forall x :: x in Marked(s, token.value) ==> s.keys[x].pair == a && Alive(s.keys[x], now)
    ensures var o := ConsumeReservation(s, a, token, now); o.Ok? ==>
      var ids := Select(s.order, Marked(s, token.value));
      |ids| == |Marked(s, token.value)| && HandedOut(s, o.value.0, ids) && BytesOf(s, ids, o.value.1)
  {
    if token.Some? {
      hide Inv, Alive, Select, Collect, HandedOut, BytesOf, Deliveries, DeliverAll;
      CollectsMarked(c, s, a, token.value, now);
      MarkedSelected(c, s, token.value);
      Handing(s, Select(s.order, Marked(s, token.value)));
    }
  }

  lemma CollectsMarked(c: Policy, s: State, a: Association, token: nat, now: Time)
    requires Inv(c, s)
    ensures var o := Collect(Working(s), a, token, 0, now);
      && (o.Ok? <==> forall x :: x in Marked(s, token) ==> s.keys[x].pair == a && Alive(s.keys[x], now))
      && (o.Ok? ==> o.value == Select(s.order, Marked(s, token)))
  {
    hide Alive, Select, Collect, AllHeld;
    var w := Working(s);
    WorkingInv(c, s);
    hide Inv;
    CollectIs(c, w, a, token, 0, now);
    assert w.order[0..] == s.order && Marked(w, token) == Marked(s, token);
    OrderListed(c, s, a, token, now);
  }

  lemma MarkedSelected(c: Policy, s: State, token: nat)
    requires Inv(c, s)
    ensures var ids := Select(s.order, Marked(s, token));
      |ids| == |Marked(s, token)| && forall k :: 0 <= k < |ids| ==> ids[k] in s.keys
  {
    SelectCounts(s.order, Marked(s, token));
    SelectMembers(s.order, Marked(s, token));
  }

  lemma OrderListed(c: Policy, s: State, a: Association, token: nat, now: Time)
    requires Inv(c, s)
    ensures AllHeld(Working(s), a, token, s.order, now) <==>
      forall x :: x in Marked(s, token) ==> s.keys[x].pair == a && Alive(s.keys[x], now)
  {
    if AllHeld(Working(s), a, token, s.order, now) {
      forall x | x in Marked(s, token) ensures s.keys[x].pair == a && Alive(s.keys[x], now) {
        var k :| 0 <= k < |s.order| && s.order[k] == x;
        assert s.order[k] in Working(s).keys;
      }
    }
  }

  /** Keys can be consumed by name exactly for a pair whose slave is local, 1 to 128 of them, well formed, none twice,
      each received for this pair and alive. They are then handed out in the order asked for. */
  lemma ConsumePeerEffect(c: Policy, s: State, a: Association, ids: seq<KeyID>, now: Time)
    requires Inv(c, s)
    ensures ConsumePeer(c, s, a, ids, now).Ok? <==>
      && 1 <= |ids| <= 128 && Distinct(ids) && a in c.allowed && c.Local(a.slave)
      && forall k :: 0 <= k < |ids| ==>
           ValidID(ids[k]) && ids[k] in s.keys && s.keys[ids[k]].pair == a && s.keys[ids[k]].role == Target
             && Alive(s.keys[ids[k]], now)
    ensures var o := ConsumePeer(c, s, a, ids, now); o.Ok? ==>
      HandedOut(s, o.value.0, ids) && BytesOf(s, ids, o.value.1)
  {
    hide ValidID, Alive, PeerCheck, HandedOut, BytesOf, Deliveries, DeliverAll;
    PeerCheckIs(c, Working(s), a, ids, 0, now);
    hide Inv;
    if ConsumePeer(c, s, a, ids, now).Ok? { Handing(s, ids); }
  }

  lemma {:induction false} PeerCheckIs(c: Policy, s: State, a: Association, ids: seq<KeyID>, i: nat, now: Time)
    requires RecsInv(c, s) && i <= |ids|
    ensures PeerCheck(s, a, ids, i, now).Ok? <==> forall k :: i <= k < |ids| ==>
      ids[k] in s.keys && s.keys[ids[k]].pair == a && s.keys[ids[k]].role == Target && Alive(s.keys[ids[k]], now)
    decreases |ids| - i
  {
    if i < |ids| {
      PeerCheckIs(c, s, a, ids, i + 1, now);
      if ids[i] in s.keys { assert RecInv(c, ids[i], s.keys[ids[i]]); }
    }
  }

  // The operator.

  /** Any known key can be invalidated: it begins to be voided, or goes on being so. */
  lemma InvalidateEffect(c: Policy, s: State, id: KeyID)
    requires Inv(c, s)
    ensures Invalidate(s, id).Ok? <==> id in s.keys
    ensures id in s.keys ==>
      var s' := Invalidate(s, id).value;
      && SameFrame(s, s') && Blank(s') == Blank(s) && (forall x :: x != id ==> SameAt(s, s', x))
      && Answered(id, s'.keys[id], About(s', id))
      && if s.keys[id].voiding then s'.keys[id] == s.keys[id] else Begins(s.keys[id], s'.keys[id], "")
  {
    hide Inv, Answered, Begins, FinishVoid, StartVoid, About, Blank, VoidedBy;
    if id in s.keys {
      WorkingInv(c, s);
      VoidEffect(c, Working(s), id, "");
      WorkingSame(s, Invalidate(s, id).value);
      NobodyPending(c, s, id);
      LocallyVoided(s.keys[id], Invalidate(s, id).value.keys[id]);
    }
  }

  lemma WorkingSame(s: State, s': State)
    ensures Blank(Working(s)) == Blank(s)
    ensures forall x :: SameAt(Working(s), s', x) ==> SameAt(s, s', x)
  {
    forall x ensures About(Working(s), x) == About(s, x) {}
  }

  lemma NobodyPending(c: Policy, s: State, id: KeyID)
    requires Inv(c, s) && id in s.keys
    ensures "" !in s.keys[id].voidPending
  {
    assert RecInv(c, id, s.keys[id]);
  }

  lemma LocallyVoided(r: Record, r': Record)
    requires VoidedBy(r, r', "") && "" !in r.voidPending
    ensures if r.voiding then r' == r else Begins(r, r', "")
  {
  }

  // The worker.

  /** The intent to send is journaled exactly while the record is neither being voided nor ready nor expired. It pins
      the next hop and puts off the next attempt by a second; nothing else changes. */
  lemma SendEffect(s: State, id: KeyID, to: Peer, now: Time)
    requires id in s.keys
    ensures CommitSend(s, id, to, now).Ok? <==>
      !s.keys[id].voiding && !s.keys[id].ready && now < s.keys[id].expires
    ensures CommitSend(s, id, to, now).Ok? ==>
      var s' := CommitSend(s, id, to, now).value;
      && SameFrame(s, s') && Blank(s') == Blank(s) && (forall x :: x != id ==> SameAt(s, s', x))
      && About(s', id) == About(s, id) && s'.keys[id] == s.keys[id].(sent := true, next := to, retry := now + 1)
  {
  }

  /** What is sent on is what was stored or received: the key, its extension and the transfer's, for the same pair. */
  lemma SendsWhatItHas(c: Policy, s: State, id: KeyID, to: Peer)
    requires Inv(c, s) && id in s.keys && !s.keys[id].voiding && !s.keys[id].ready
    ensures var t, r := TransferOf(c, id, to, s.keys[id]), s.keys[id];
      && |t.keys| == 1 && t.keys[0].id == id && t.targets == [r.pair.slave] && t.initiator == r.pair.master
      && t.mandatory == map[] && r.digest == Some(Digest(t.keys[0], r.pair, t.optional))
  {
    assert RecInv(c, id, s.keys[id]);
    hide Inv;
  }

  /** Putting a key off leaves everything but the time of its next attempt, a second ahead. */
  lemma PostponeEffect(s: State, id: KeyID, now: Time)
    requires id in s.keys
    ensures var s' := Defer(s, id, now);
      && SameFrame(s, s') && Blank(s') == Blank(s) && (forall x :: x != id ==> SameAt(s, s', x))
      && About(s', id) == About(s, id) && s'.keys[id] == s.keys[id].(retry := now + 1)
  {
  }

  /** A delivered result is removed, with no other. */
  lemma AnsweredEffect(c: Policy, s: State, j: JobID)
    requires Inv(c, s) && j in s.acks
    ensures var s' := AckSent(s, j);
      && SameFrame(s, s') && s'.keys == s.keys && s'.acks == (map i | i in s.acks && i != j :: s.acks[i])
      && forall x :: About(s', x) == About(s, x) - if x in s.acks[j].ack.ids then {NoticeOf(s.acks[j])} else {}
  {
    assert UniqueJobs(s.acks);
    hide Inv, UniqueJobs;
    forall x ensures About(AckSent(s, j), x)
      == About(s, x) - if x in s.acks[j].ack.ids then {NoticeOf(s.acks[j])} else {} {
      RemovedAbout(s, j, x);
    }
    hide About;
  }

  function NoticeOf(job: Job): Notice { Notice(job.peer, job.ack) }

  lemma RemovedAbout(s: State, j: JobID, x: KeyID)
    requires UniqueJobs(s.acks) && j in s.acks
    ensures About(AckSent(s, j), x) == About(s, x) - if x in s.acks[j].ack.ids then {NoticeOf(s.acks[j])} else {}
  {
    var s', gone := AckSent(s, j), NoticeOf(s.acks[j]);
    forall n | n in About(s', x) ensures n in About(s, x) && n != gone {
      var i :| i in s'.acks && x in s'.acks[i].ack.ids && n == Notice(s'.acks[i].peer, s'.acks[i].ack);
      assert i in s.acks && s'.acks[i] == s.acks[i];
      if n == gone { assert SameSubject(s.acks[i], s.acks[j]); }
    }
    forall n | n in About(s, x) && !(x in s.acks[j].ack.ids && n == gone) ensures n in About(s', x) {
      var i :| i in s.acks && x in s.acks[i].ack.ids && n == Notice(s.acks[i].peer, s.acks[i].ack);
      assert i in s'.acks;
    }
  }

  /** A result that did not arrive stays, and is tried again a second later. */
  lemma UnansweredEffect(s: State, j: JobID, now: Time)
    requires j in s.acks
    ensures var s' := AckFailed(s, j, now);
      && SameFrame(s, s') && s'.keys == s.keys && Blank(s') == Blank(s) && (forall x :: About(s', x) == About(s, x))
      && s'.acks.Keys == s.acks.Keys && s'.acks[j].retry == now + 1
      && forall i :: i in s.acks && i != j ==> s'.acks[i] == s.acks[i]
  {
    var s' := AckFailed(s, j, now);
    forall x ensures About(s', x) == About(s, x) { PutOffAbout(s, j, now, x); }
    PutOffBlank(s, j, now);
    hide About, Blank;
  }

  lemma PutOffAbout(s: State, j: JobID, now: Time, x: KeyID)
    requires j in s.acks
    ensures About(AckFailed(s, j, now), x) == About(s, x)
  {
    var s' := AckFailed(s, j, now);
    forall n | n in About(s, x) ensures n in About(s', x) {
      var i :| i in s.acks && x in s.acks[i].ack.ids && n == Notice(s.acks[i].peer, s.acks[i].ack);
      assert i in s'.acks;
    }
  }

  lemma PutOffBlank(s: State, j: JobID, now: Time)
    requires j in s.acks
    ensures Blank(AckFailed(s, j, now)) == Blank(s)
  {
    var s' := AckFailed(s, j, now);
    forall n | n in Blank(s) ensures n in Blank(s') {
      var i :| i in s.acks && s.acks[i].ack.ids == [] && n == Notice(s.acks[i].peer, s.acks[i].ack);
      assert i in s'.acks;
    }
  }
}
