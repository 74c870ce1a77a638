/** What a relay reservation delivers later: the members of the batch that were not voided in the meantime. */
module RelayTokens {
  import opened Core
  import opened Counting
  import opened Peering
  import opened RelayState
  import opened RelayInvariant
  import opened RelayHandlers
  import opened RelayNetwork
  import opened RelayTrace
  import opened RelayRuns
  import opened RelayNode
  import opened RelayTurns

  ghost predicate Carries(d: State, token: nat, id: KeyID) { id in d.keys && d.keys[id].token == Some(token) }

  /** A token newer than all others marks exactly the reserved batch. */
  lemma ReserveMarks(c: Policy, s: State, a: Association, n: int, now: Time)
    requires Inv(c, s) && Reserve(c, s, a, n, now).Ok?
    ensures var (s', r) := Reserve(c, s, a, n, now).value;
      r.token == s'.serial && forall id :: Carries(s', r.token, id) <==> id in r.ids
  {
    var (s', r) := Reserve(c, s, a, n, now).value;
    ReservedAvailable(Working(s), a, n, now);
    forall id ensures Carries(s', r.token, id) <==> id in r.ids {
      if id in r.ids { assert Available(Working(s), a, id, now); }
      if id in s.keys && s.keys[id].token.Some? { assert s.keys[id].token.value <= s.serial; }
    }
  }

  /** A later state knows the token only for keys that carried it, and a key loses it only by being voided
      or delivered. */
  lemma TokenFollows(d: State, d': State, id: KeyID)
    requires FreshTokens(d, d') && (id in d.keys ==> id in d'.keys && Later(d.keys[id], d'.keys[id]))
    ensures Carries(d', d.serial, id) ==> Carries(d, d.serial, id)
    ensures Carries(d, d.serial, id) ==> Carries(d', d.serial, id) || d'.keys[id].voiding || d'.keys[id].delivered
  {
  }

  /** The collected keys are all that carry the token. */
  lemma {:induction false} CollectsAll(s: State, a: Association, token: nat, i: nat, now: Time, id: KeyID)
    requires i <= |s.order| && Collect(s, a, token, i, now).Ok? && id in s.order[i..] && Carries(s, token, id)
    ensures id in Collect(s, a, token, i, now).value
    decreases |s.order| - i
  {
    assert s.order[i..] == [s.order[i]] + s.order[i + 1..];
    if id != s.order[i] { CollectsAll(s, a, token, i + 1, now, id); }
  }

  lemma CollectedHeld(s: State, a: Association, token: nat, now: Time)
    requires Collect(s, a, token, 0, now).Ok?
    ensures var ids := Collect(s, a, token, 0, now).value; forall n :: 0 <= n < |ids| ==> Held(s, a, token, ids[n], now)
  {
    CollectedExist(s, a, token, 0, now);
  }

  lemma Collected(c: Policy, s: State, a: Association, token: nat, now: Time)
    requires Inv(c, s) && ConsumeReservation(s, a, Some(token), now).Ok?
    ensures var ds := ConsumeReservation(s, a, Some(token), now).value.1;
      && ds != [] && (forall i, j :: 0 <= i < j < |ds| ==> ds[i].id != ds[j].id)
      && (forall i :: 0 <= i < |ds| ==> Carries(s, token, ds[i].id) && Usable(s.keys[ds[i].id], now))
      && (forall id :: Carries(s, token, id) ==> exists i :: 0 <= i < |ds| && ds[i].id == id)
  {
    var w := Working(s);
    var ids, ds := Collect(w, a, token, 0, now).value, ConsumeReservation(s, a, Some(token), now).value.1;
    CollectDistinct(w, a, token, 0, now);
    assert w.order[0..] == w.order;
    CollectedHeld(w, a, token, now);
    forall i | 0 <= i < |ds| ensures Carries(s, token, ds[i].id) && Usable(s.keys[ds[i].id], now) {
      assert Held(w, a, token, ids[i], now);
    }
    forall id | Carries(s, token, id) ensures exists i :: 0 <= i < |ds| && ds[i].id == id {
      CollectsAll(w, a, token, 0, now, id);
      var i :| 0 <= i < |ids| && ids[i] == id;
      assert ds[i].id == id;
    }
  }

  /** The node answers, with this state. */
  ghost predicate Serving(net: Net, n: Peer) { n in net.nodes && !net.nodes[n].store.broken }

  lemma ServingState(cs: Policies, net: Net, n: Peer)
    requires NetInv(cs, net) && n in cs && Serving(net, n)
    ensures net.nodes[n].store.live == Disk(net, n) && Inv(cs[n], Disk(net, n))
  {
    LiveInv(cs, net, n);
  }

  lemma DiskFollows(cs: Policies, net: Net, net': Net, n: Peer, id: KeyID)
    requires Grows(net, net') && n in net.nodes
    ensures n in net'.nodes && FreshTokens(Disk(net, n), Disk(net', n))
    ensures id in Disk(net, n).keys ==> id in Disk(net', n).keys && Later(Disk(net, n).keys[id], Disk(net', n).keys[id])
  {
    if id in Disk(net, n).keys { assert Has(net, n, id); }
  }

  lemma ReserveCommits(cs: Policies, net: Net, n: Peer, a: Association, count: int, now: Time)
    requires n in cs && Serving(net, n) && Reserve(cs[n], net.nodes[n].store.live, a, count, now).Ok?
    ensures var net' := Apply(cs, net, ReserveKeys(n, a, count, now, Saves));
      n in net'.nodes && Disk(net', n) == Reserve(cs[n], net.nodes[n].store.live, a, count, now).value.0
  {
    hide Reserve;
  }

  lemma ConsumeCommits(cs: Policies, net: Net, n: Peer, a: Association, token: nat, now: Time, f: Fault)
    requires n in cs && Serving(net, n) && f != FailsOld
      && ConsumeReservation(net.nodes[n].store.live, a, Some(token), now).Ok?
    ensures var net' := Apply(cs, net, ConsumeReserved(n, a, Some(token), now, f));
      n in net'.nodes && Disk(net', n) == ConsumeReservation(net.nodes[n].store.live, a, Some(token), now).value.0
  {
    hide ConsumeReservation;
  }

  // Collecting by token.

  function Carriers(s: State, token: nat): set<KeyID> { set id | id in s.keys && s.keys[id].token == Some(token) }

  predicate Expired(s: State, id: KeyID, now: Time) { id in s.keys && s.keys[id].expires <= now }

  /** What consuming a list of reserved keys comes to. */
  function Outcome(s: State, a: Association, of: Association, left: seq<KeyID>, now: Time): Result<seq<KeyID>> {
    if left == [] then Ok([])
    else if of != a then Err(Unauthorized)
    else if exists k :: 0 <= k < |left| && Expired(s, left[k], now) then Err(Unavailable)
    else Ok(left)
  }

  /** The keys carrying the token belong to one pair. */
  ghost predicate OnePair(s: State, token: nat, a: Association) {
    forall id :: id in s.keys && s.keys[id].token == Some(token) ==> s.keys[id].pair == a
  }

  lemma CarrierUsable(c: Policy, s: State, id: KeyID, now: Time)
    requires Inv(c, s) && id in s.keys && s.keys[id].token.Some?
    ensures s.keys[id].role == Source && (Usable(s.keys[id], now) <==> now < s.keys[id].expires)
  {
    assert RecInv(c, id, s.keys[id]);
  }

  lemma {:induction false} CollectIs(c: Policy, s: State, a: Association, of: Association, token: nat, i: nat,
        now: Time)
    requires Inv(c, s) && i <= |s.order| && OnePair(s, token, a)
    ensures Collect(s, of, token, i, now) == Outcome(s, a, of, Select(s.order[i..], Carriers(s, token)), now)
    decreases |s.order| - i
  {
    hide Inv, Usable;
    var carriers := Carriers(s, token);
    if i < |s.order| {
      var id, rest := s.order[i], Select(s.order[i + 1..], carriers);
      CollectIs(c, s, a, of, token, i + 1, now);
      assert s.order[i..][1..] == s.order[i + 1..];
      if id in carriers {
        CarrierUsable(c, s, id, now);
        assert s.keys[id].pair == a;
        assert Select(s.order[i..], carriers) == [id] + rest;
        OutcomeFirst(s, a, of, id, rest, now);
      } else {
        assert Select(s.order[i..], carriers) == rest;
        assert Collect(s, of, token, i, now) == Collect(s, of, token, i + 1, now);
      }
    } else {
      assert s.order[i..] == [];
    }
  }

  lemma OutcomeFirst(s: State, a: Association, of: Association, id: KeyID, rest: seq<KeyID>, now: Time)
    requires id in s.keys
    ensures Outcome(s, a, of, [id] + rest, now) ==
      if of != a then Err(Unauthorized)
      else if Expired(s, id, now) then Err(Unavailable)
      else if Outcome(s, a, of, rest, now).Err? then Outcome(s, a, of, rest, now)
      else Ok([id] + rest)
  {
    var all := [id] + rest;
    assert all[0] == id;
    if k :| 0 <= k < |rest| && Expired(s, rest[k], now) { assert all[k + 1] == rest[k]; }
    if k :| 0 <= k < |all| && Expired(s, all[k], now) && k > 0 { assert rest[k - 1] == all[k]; }
  }

  // A reservation over a run.

  /** The members of a batch that were neither voided nor delivered. */
  function StillThere(s: State, ids: seq<KeyID>): set<KeyID> {
    set id | id in ids && id in s.keys && !s.keys[id].voiding && !s.keys[id].delivered
  }

  /** What consuming a reserved batch of the pair comes to, given what is left of it. */
  function Consumed(s: State, a: Association, of: Association, left: seq<KeyID>, now: Time): Result<(State,
        seq<Delivery>)>
    requires forall i :: 0 <= i < |left| ==> left[i] in s.keys
  {
    if left == [] then Err(Unavailable)
    else if of != a then Err(Unauthorized)
    else if exists k :: 0 <= k < |left| && Expired(s, left[k], now) then Err(Unavailable)
    else Ok((DeliverAll(s, left), Deliveries(s, left)))
  }

  lemma ConsumeIs(c: Policy, s: State, a: Association, of: Association, token: nat, now: Time)
    requires Inv(c, s) && OnePair(s, token, a)
    ensures var left := Select(s.order, Carriers(s, token));
      && (forall i :: 0 <= i < |left| ==> left[i] in s.keys)
      && ConsumeReservation(s, of, Some(token), now) == Consumed(Working(s), a, of, left, now)
  {
    var w := Working(s);
    WorkingInv(c, s);
    CollectIs(c, w, a, of, token, 0, now);
    assert w.order[0..] == s.order && Carriers(w, token) == Carriers(s, token);
    SelectMembers(s.order, Carriers(s, token));
    hide Inv, DeliverAll, Collect;
  }

  /** The reserved batch: the first n available keys in insertion order. */
  lemma BatchIs(c: Policy, s: State, a: Association, n: int, now: Time)
    requires Inv(c, s) && Reserve(c, s, a, n, now).Ok?
    ensures var (s1, r) := Reserve(c, s, a, n, now).value;
      && s1.order == s.order && 0 <= n <= |Select(s.order, AvailableSet(s, a, now))|
      && r.ids == Select(s.order, AvailableSet(s, a, now))[..n]
      && (forall id :: id in r.ids ==> id in s1.keys && s1.keys[id].pair == a)
  {
    var w := Working(s);
    ScanSelects(w, a, w.order, now);
    assert AvailableSet(w, a, now) == AvailableSet(s, a, now);
    ReservedAvailable(w, a, n, now);
    hide Inv, Usable;
  }

  /** Who still carries the token later: the members of the batch still there. */
  lemma CarriersLater(c: Policy, s1: State, s': State, token: nat, ids: seq<KeyID>, a: Association)
    requires s1.serial == token && (forall id :: Carries(s1, token, id) <==> id in ids)
    requires FreshTokens(s1, s') && Inv(c, s')
    requires forall id :: id in s1.keys ==> id in s'.keys && Later(s1.keys[id], s'.keys[id])
    requires forall id :: id in ids ==> id in s1.keys && s1.keys[id].pair == a
    ensures OnePair(s', token, a)
    ensures Carriers(s', token) == StillThere(s', ids)
  {
    forall id ensures id in Carriers(s', token) <==> id in StillThere(s', ids) {
      TokenFollows(s1, s', id);
      if Carries(s', token, id) { assert RecInv(c, id, s'.keys[id]); }
    }
    forall id | id in s'.keys && s'.keys[id].token == Some(token) ensures s'.keys[id].pair == a {
      TokenFollows(s1, s', id);
      assert Carries(s', token, id);
    }
  }

  lemma BatchLater(c: Policy, s: State, s': State, a: Association, n: int, now: Time)
    requires Inv(c, s) && Inv(c, s') && Reserve(c, s, a, n, now).Ok?
    requires var (s1, r) := Reserve(c, s, a, n, now).value;
      && s1.order <= s'.order && FreshTokens(s1, s')
      && forall id :: id in s1.keys ==> id in s'.keys && Later(s1.keys[id], s'.keys[id])
    ensures var (s1, r) := Reserve(c, s, a, n, now).value;
      && OnePair(s', r.token, a)
      && Select(s'.order, Carriers(s', r.token)) == Select(r.ids, StillThere(s', r.ids))
  {
    var (s1, r) := Reserve(c, s, a, n, now).value;
    ReserveMarks(c, s, a, n, now);
    BatchIs(c, s, a, n, now);
    hide Later, FreshTokens, Reserve;
    CarriersLater(c, s1, s', r.token, r.ids, a);
    assert Distinct(s'.order);
    hide Inv, OnePair, Select;
    SelectLater(s.order, s'.order, AvailableSet(s, a, now), n, StillThere(s', r.ids));
  }

  /** A node reserves a batch; then anything happens: messages, crashes, failing saves, other reservations.
      Consuming the reservation later, for whatever pair, comes to exactly this. The members neither voided nor
      delivered since are what is left, in the order reserved. With none left the call finds nothing; for another
      pair it is refused; if one that is left has expired it fails as a whole; otherwise it delivers what is
      left. */
  lemma ReservationKeepsItsMembers(cs: Policies, labels: seq<Label>, n: Peer, a: Association, count: int, now: Time,
        more: seq<Label>, of: Association, later: Time)
    requires ValidPolicies(cs) && n in cs && Serving(Run(cs, labels), n)
    requires Reserve(cs[n], Run(cs, labels).nodes[n].store.live, a, count, now).Ok?
    requires Serving(Run(cs, labels + [ReserveKeys(n, a, count, now, Saves)] + more), n)
    ensures var r := Reserve(cs[n], Run(cs, labels).nodes[n].store.live, a, count, now).value.1;
      var s' := Run(cs, labels + [ReserveKeys(n, a, count, now, Saves)] + more).nodes[n].store.live;
      var left := Select(r.ids, StillThere(s', r.ids));
      && (forall i :: 0 <= i < |left| ==> left[i] in s'.keys)
      && ConsumeReservation(s', of, Some(r.token), later) == Consumed(Working(s'), a, of, left, later)
  {
    hide NetInv, Grows, Inv, Reserve, ConsumeReservation, FreshTokens, Later, NodeGood, Apply, Onward, OnePair,
      Consumed;
    hide Select, Run;
    var l := ReserveKeys(n, a, count, now, Saves);
    var net0, net1, net' := Run(cs, labels), Run(cs, labels + [l]), Run(cs, labels + [l] + more);
    RunKeeps(cs, labels);
    RunKeeps(cs, labels + [l] + more);
    RunGrows(cs, labels + [l], more);
    RunOnward(cs, labels + [l], more, n);
    ServingState(cs, net0, n);
    ServingState(cs, net', n);
    RunNext(cs, labels, l);
    ReserveCommits(cs, net0, n, a, count, now);
    forall id ensures id in Disk(net1, n).keys ==>
      id in Disk(net', n).keys && Later(Disk(net1, n).keys[id], Disk(net', n).keys[id]) {
      DiskFollows(cs, net1, net', n, id);
    }
    DiskFollows(cs, net1, net', n, "");
    OrderFollows(cs[n], Disk(net1, n), Disk(net', n));
    BatchLater(cs[n], Disk(net0, n), Disk(net', n), a, count, now);
    ConsumeIs(cs[n], Disk(net', n), a, of, Reserve(cs[n], Disk(net0, n), a, count, now).value.1.token, later);
  }

  lemma RunNext(cs: Policies, labels: seq<Label>, l: Label)
    ensures Run(cs, labels + [l]) == Apply(cs, Run(cs, labels), l)
  {
    hide Apply;
    assert (labels + [l])[..|labels|] == labels;
  }

  lemma OrderFollows(c: Policy, s: State, s': State)
    requires Onward(c, s, s')
    ensures s.order <= s'.order
  {
  }

  /** A token spent once is spent for good: whatever happens, consuming it again is refused. */
  lemma NoReplay(cs: Policies, labels: seq<Label>, n: Peer, a: Association, token: nat, now: Time, f: Fault,
        more: seq<Label>, b: Association, later: Time)
    requires ValidPolicies(cs) && n in cs && Serving(Run(cs, labels), n) && f != FailsOld
    requires ConsumeReservation(Run(cs, labels).nodes[n].store.live, a, Some(token), now).Ok?
    requires Serving(Run(cs, labels + [ConsumeReserved(n, a, Some(token), now, f)] + more), n)
    ensures ConsumeReservation(Run(cs, labels + [ConsumeReserved(n, a, Some(token), now, f)]
      + more).nodes[n].store.live, b, Some(token), later).Err?
  {
    hide NetInv, Grows, Inv, ConsumeReservation, FreshTokens, Later, NodeGood, Apply, Carries;
    var l := ConsumeReserved(n, a, Some(token), now, f);
    var net0, net1, net' := Run(cs, labels), Run(cs, labels + [l]), Run(cs, labels + [l] + more);
    RunKeeps(cs, labels);
    RunKeeps(cs, labels + [l]);
    RunKeeps(cs, labels + [l] + more);
    RunGrows(cs, labels + [l], more);
    ServingState(cs, net0, n);
    ServingState(cs, net', n);
    assert (labels + [l])[..|labels|] == labels;
    assert net1 == Apply(cs, net0, l);
    var s, s' := net0.nodes[n].store.live, net'.nodes[n].store.live;
    SpentCarries(cs[n], s, a, token, now);
    ConsumeCommits(cs, net0, n, a, token, now, f);
    if ConsumeReservation(s', b, Some(token), later).Ok? {
      Collected(cs[n], s', b, token, later);
      var ds := ConsumeReservation(s', b, Some(token), later).value.1;
      DiskFollows(cs, net1, net', n, ds[0].id);
      TokenOld(cs[n], s, token, Disk(net1, n), s', ds[0].id);
    }
  }

  lemma SpentCarries(c: Policy, s: State, a: Association, token: nat, now: Time)
    requires Inv(c, s) && ConsumeReservation(s, a, Some(token), now).Ok?
    ensures var s1 := ConsumeReservation(s, a, Some(token), now).value.0;
      s1.serial >= s.serial && forall id :: !Carries(s1, token, id)
    ensures token <= s.serial
  {
    var w := Working(s);
    var ids := Collect(w, a, token, 0, now).value;
    var s1 := ConsumeReservation(s, a, Some(token), now).value.0;
    CollectedHeld(w, a, token, now);
    assert w.order[0..] == w.order;
    forall id | id in s1.keys ensures !Carries(s1, token, id) {
      if Carries(w, token, id) { CollectsAll(w, a, token, 0, now, id); }
    }
    assert w.keys[ids[0]].token == Some(token);
  }

  lemma TokenOld(c: Policy, s: State, token: nat, s1: State, s': State, id: KeyID)
    requires token <= s.serial <= s1.serial && FreshTokens(s1, s') && !Carries(s1, token, id)
    requires id in s1.keys ==> id in s'.keys && Later(s1.keys[id], s'.keys[id])
    ensures !Carries(s', token, id)
  {
  }
}
