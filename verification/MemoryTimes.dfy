/** The memory repository and time, over whole call sequences under any clock: which calls succeed, for which keys, and
    what ends a key. What is stored, and when it expires, is read off the keys as they were handed in. */
module MemoryTimes {
  import opened Core
  import opened Uuid
  import opened Counting
  import opened Lifecycle
  import opened Tokens
  import opened MemoryLedger
  import opened MemoryReference
  import opened MemoryHistory

  ghost predicate Fresh(calls: seq<Call>) { forall i :: 0 <= i < |calls| ==> calls[i].Fresh() }

  function SideOf(e: Entry, side: Side): KeyState { if side == MasterSide then e.master else e.slave }

  /** The side is still to be delivered. */
  predicate Open(st: KeyState) { st == KeyState.Available || st == KeyState.Reserved }

  // What is stored.

  lemma EntryOf(t: Trace, id: KeyID)
    requires TraceGood(t)
    ensures id in t.l.keys <==> id in t.stored
    ensures id in t.stored ==> EntryGood(t.l.keys[id], t.stored[id])
  {
  }

  /** Time takes the open sides of an entry once it is over, and nothing else. */
  lemma SweptEntry(l: Ledger, id: KeyID, now: Time)
    requires id in l.keys
    ensures var e, e' := l.keys[id], Sweep(l, now).keys[id];
      && (now < e.expires ==> e' == e)
      && (e.expires <= now ==>
           && e'.pair == e.pair && e'.source == e.source && e'.created == e.created && e'.expires == e.expires
           && e'.master == (if Open(e.master) then KeyState.Expired else e.master)
           && e'.slave == (if Open(e.slave) then KeyState.Expired else e.slave))
  {
  }

  // Reservations.

  /** The keys of a pair on offer: stored for it, not over, and available to its master. */
  function Offer(t: Trace, a: Association, now: Time): set<KeyID> {
    set id | id in t.stored && id in t.l.keys && t.stored[id].pair == a && now < t.stored[id].expires
      && t.l.keys[id].master == KeyState.Available
  }

  lemma OfferIs(t: Trace, a: Association, now: Time)
    requires TraceGood(t)
    ensures OnOffer(Sweep(t.l, now), a) == Offer(t, a, now)
  {
    forall id | id in t.l.keys || id in t.stored
      ensures id in OnOffer(Sweep(t.l, now), a) <==> id in Offer(t, a, now) {
      EntryOf(t, id);
      SweptEntry(t.l, id, now);
    }
    hide TraceGood, EntryGood, Sweep;
  }

  /** The first n keys on offer, all of this pair and not over. */
  ghost predicate Granted(t: Trace, a: Association, n: int, now: Time, ids: seq<KeyID>) {
    && |ids| == n && FirstOf(t.l.order, Offer(t, a, now), ids)
    && forall k :: 0 <= k < n ==>
         ids[k] in t.stored && t.stored[ids[k]].pair == a && now < t.stored[ids[k]].expires
  }

  /** In every history: a batch is granted exactly for a valid pair and a size from 1 to 128, when that many of its keys
      are on offer, and it is the first of those, in insertion order, under a new token. The inventory shows how many
      there are. */
  lemma GrantsWhatIsOnOffer(capacity: nat, calls: seq<Call>, a: Association, n: int, now: Time, draw: nat -> KeyID)
    requires Fresh(calls) && Injective(draw)
    ensures var t := History(capacity, calls);
      && Inventory(t.l, a, now).1 == |Offer(t, a, now)|
      && var r := Reserve(t.l, a, n, now, draw).1;
         && (r.Ok? <==> a.Valid() && 1 <= n <= 128 && n <= |Offer(t, a, now)|)
         && (r.Ok? ==> Granted(t, a, n, now, r.value.ids) && r.value.token !in t.l.reservations)
  {
    hide TraceGood, History, Sweep, Scan, Marked, Granted, Reserve, Inventory, Offer;
    var t := History(capacity, calls);
    EveryHistory(capacity, calls);
    IsIndexed(t);
    OfferIs(t, a, now);
    OfferShown(t.l, a, now);
    OfferGranted(t, a, n, now, draw);
  }

  lemma OfferShown(l: Ledger, a: Association, now: Time)
    requires Indexed(l)
    ensures Inventory(l, a, now).1 == |OnOffer(Sweep(l, now), a)|
  {
    hide Sweep, OnOffer;
    SweptIndexed(l, now);
    OfferCounts(Sweep(l, now), a);
  }

  lemma OfferGranted(t: Trace, a: Association, n: int, now: Time, draw: nat -> KeyID)
    requires Indexed(t.l) && Injective(draw) && OnOffer(Sweep(t.l, now), a) == Offer(t, a, now)
    requires Inventory(t.l, a, now).1 == |Offer(t, a, now)|
    ensures var r := Reserve(t.l, a, n, now, draw).1;
      && (r.Ok? <==> a.Valid() && 1 <= n <= 128 && n <= |Offer(t, a, now)|)
      && (r.Ok? ==> Granted(t, a, n, now, r.value.ids) && r.value.token !in t.l.reservations)
  {
    hide Sweep, Scan, Marked, OnOffer, Inventory;
    if a.Valid() && 1 <= n <= 128 {
      InventoryIsAllocation(t.l, a, n, now, draw);
      hide Reserve;
    }
  }

  // Deliveries.

  /** The keys of a reservation that are there for its master: not over, and still reserved. */
  ghost predicate Ready(t: Trace, ids: seq<KeyID>, now: Time) {
    forall k :: 0 <= k < |ids| ==>
      && ids[k] in t.stored && ids[k] in t.l.keys && now < t.stored[ids[k]].expires
      && t.l.keys[ids[k]].master == KeyState.Reserved
  }

  lemma ReadyIs(t: Trace, ids: seq<KeyID>, now: Time)
    requires TraceGood(t) && Known(t.l, ids)
    ensures Ready(t, ids, now) <==> forall i :: 0 <= i < |ids| ==>
      Sweep(t.l, now).keys[ids[i]].master == KeyState.Reserved
  {
    forall i | 0 <= i < |ids| ensures ids[i] in t.stored
      && (Sweep(t.l, now).keys[ids[i]].master == KeyState.Reserved <==>
            now < t.stored[ids[i]].expires && t.l.keys[ids[i]].master == KeyState.Reserved) {
      EntryOf(t, ids[i]);
      SweptEntry(t.l, ids[i], now);
    }
    hide TraceGood, Sweep;
  }

  lemma BatchOf(t: Trace, token: KeyID)
    requires TraceGood(t) && token in t.l.reservations
    ensures Known(t.l, t.l.reservations[token].ids)
    ensures var b := t.l.reservations[token];
      forall k :: 0 <= k < |b.ids| ==> b.ids[k] in t.stored && t.stored[b.ids[k]].pair == b.pair
  {
    var b := t.l.reservations[token];
    assert BatchGood(t.l, b);
    forall k | 0 <= k < |b.ids| ensures b.ids[k] in t.stored && t.stored[b.ids[k]].pair == b.pair {
      EntryOf(t, b.ids[k]);
    }
  }

  /** In every history: a reservation is delivered exactly to its own pair while all its keys are there; then exactly
      those keys are handed out, with the stored bytes, and none of them is over. */
  lemma DeliversWhatIsReserved(capacity: nat, calls: seq<Call>, a: Association, token: KeyID, now: Time)
    requires Fresh(calls)
    ensures var t := History(capacity, calls);
      var r := Consume(t.l, a, token, now).1;
      && (r.Ok? <==>
           && token in t.l.reservations && t.l.reservations[token].pair == a
           && Ready(t, t.l.reservations[token].ids, now))
      && (r.Ok? ==>
           && |r.value| == |t.l.reservations[token].ids|
           && forall k :: 0 <= k < |r.value| ==> InTime(t, a, now, r.value[k], t.l.reservations[token].ids[k]))
  {
    hide TraceGood, History, Sweep, Consume, MasterDelivered, BatchGood;
    var t := History(capacity, calls);
    EveryHistory(capacity, calls);
    if token in t.l.reservations {
      BatchOf(t, token);
      ReadyIs(t, t.l.reservations[token].ids, now);
    }
    ConsumedWhen(t, a, token, now);
    if Consume(t.l, a, token, now).1.Ok? { HandsBatch(t, a, token, now); }
  }

  lemma ConsumedWhen(t: Trace, a: Association, token: KeyID, now: Time)
    requires Indexed(t.l) && (token in t.l.reservations ==> Known(t.l, t.l.reservations[token].ids))
    ensures Consume(t.l, a, token, now).1.Ok? <==>
      && token in t.l.reservations && t.l.reservations[token].pair == a
      && forall i :: 0 <= i < |t.l.reservations[token].ids| ==>
           Sweep(t.l, now).keys[t.l.reservations[token].ids[i]].master == KeyState.Reserved
  {
    hide Consume, MasterDelivered, Aged;
    ConsumeRefines(t.l, a, token, now);
  }

  /** What is handed out is this stored key, of the pair named, before its time is up. */
  predicate InTime(t: Trace, a: Association, now: Time, d: Delivery, id: KeyID) {
    && d.id == id && id in t.stored && d.material == t.stored[id].material
    && t.stored[id].pair == a && now < t.stored[id].expires
  }

  /** The slave's copy of a stored key is there: not over, released to the master, and not yet fetched. */
  predicate Fetchable(t: Trace, a: Association, now: Time, id: KeyID) {
    && id in t.stored && id in t.l.keys && t.stored[id].pair == a && now < t.stored[id].expires
    && t.l.keys[id].slave == KeyState.Available
  }

  lemma FetchableIs(t: Trace, a: Association, now: Time, id: KeyID)
    requires TraceGood(t)
    ensures Deliverable(Sweep(t.l, now), a, id) <==> Fetchable(t, a, now, id)
  {
    EntryOf(t, id);
    if id in t.l.keys { SweptEntry(t.l, id, now); }
    hide TraceGood;
  }

  /** In every history: the slave is given the keys it names exactly when the pair is valid, they are 1 to 128 well
      formed identifiers without repetition, and each copy is there; they come in the order named, with the stored
      bytes. */
  lemma DeliversWhatIsNamed(capacity: nat, calls: seq<Call>, a: Association, ids: seq<KeyID>, now: Time)
    requires Fresh(calls)
    ensures var t := History(capacity, calls);
      var r := ConsumePeer(t.l, a, ids, now).1;
      && (r.Ok? <==>
           && a.Valid() && 1 <= |ids| <= 128 && Distinct(ids)
           && forall k :: 0 <= k < |ids| ==> ValidID(ids[k]) && Fetchable(t, a, now, ids[k]))
      && (r.Ok? ==> |r.value| == |ids| && forall k :: 0 <= k < |ids| ==> InTime(t, a, now, r.value[k], ids[k]))
  {
    hide History, Sweep, ConsumePeer, Deliverable, TraceGood, Fetchable, InTime;
    var t := History(capacity, calls);
    EveryHistory(capacity, calls);
    NamedWhen(t.l, a, ids, now);
    forall k | 0 <= k < |ids|
      ensures Deliverable(Sweep(t.l, now), a, ids[k]) <==> Fetchable(t, a, now, ids[k])
      ensures var r := ConsumePeer(t.l, a, ids, now).1; r.Ok? ==> InTime(t, a, now, r.value[k], ids[k]) {
      FetchableIs(t, a, now, ids[k]);
      if ConsumePeer(t.l, a, ids, now).1.Ok? { FetchedInTime(t, a, now, ids[k]); }
    }
  }

  lemma NamedWhen(l: Ledger, a: Association, ids: seq<KeyID>, now: Time)
    ensures var g, r := Sweep(l, now), ConsumePeer(l, a, ids, now).1;
      && (r.Ok? <==>
           && a.Valid() && 1 <= |ids| <= 128 && Distinct(ids)
           && forall k :: 0 <= k < |ids| ==> ValidID(ids[k]) && Deliverable(g, a, ids[k]))
      && (r.Ok? ==> |r.value| == |ids| && forall k :: 0 <= k < |ids| ==>
            ids[k] in g.keys && r.value[k] == Delivery(ids[k], g.keys[ids[k]].slaveBytes))
  {
    hide Sweep, ConsumePeer, SlaveDelivered, ValidID, Association.Valid;
    ConsumePeerRefines(l, a, ids, now);
  }

  lemma FetchedInTime(t: Trace, a: Association, now: Time, id: KeyID)
    requires TraceGood(t) && Deliverable(Sweep(t.l, now), a, id)
    ensures id in Sweep(t.l, now).keys
    ensures InTime(t, a, now, Delivery(id, Sweep(t.l, now).keys[id].slaveBytes), id)
  {
    FetchableIs(t, a, now, id);
    EntryOf(t, id);
    SweptEntry(t.l, id, now);
    hide TraceGood, Sweep;
  }

  // Metadata.

  /** In every history: a key's metadata are those it was stored with; before its time is up the sides are as they
      were left, afterwards none is open, and one that was open says it expired. */
  lemma MetadataTells(capacity: nat, calls: seq<Call>, id: KeyID, now: Time)
    requires Fresh(calls)
    ensures var t := History(capacity, calls);
      var r := Metadata(t.l, id, now).1;
      && (r.Ok? <==> id in t.stored)
      && (r.Ok? ==>
           && id in t.l.keys
           && var k, e, m := t.stored[id], t.l.keys[id], r.value;
              && m.pair == k.pair && m.source == k.source && m.created == k.created && m.expires == k.expires
              && m.master == (if k.expires <= now && Open(e.master) then KeyState.Expired else e.master)
              && m.slave == (if k.expires <= now && Open(e.slave) then KeyState.Expired else e.slave))
  {
    var t := History(capacity, calls);
    EveryHistory(capacity, calls);
    EntryOf(t, id);
    MetadataRefines(t.l, id, now);
    if id in t.l.keys { SweptEntry(t.l, id, now); }
    hide TraceGood, History, Sweep, Metadata;
  }

  // What ends a key.

  /** Each entry is as it was, or as time left it. */
  predicate AgedOnly(l: Ledger, l': Ledger, now: Time) {
    && l'.keys.Keys == l.keys.Keys
    && forall id :: id in l.keys ==> l'.keys[id] == l.keys[id] || l'.keys[id] == Aged(l.keys[id], now)
  }

  lemma AgedTwice(l: Ledger, l1: Ledger, l2: Ledger, now: Time)
    requires AgedOnly(l, l1, now) && AgedOnly(l1, l2, now)
    ensures AgedOnly(l, l2, now)
  {
    forall id | id in l.keys ensures l2.keys[id] == l.keys[id] || l2.keys[id] == Aged(l.keys[id], now) {
      assert Aged(Aged(l.keys[id], now), now) == Aged(l.keys[id], now);
    }
  }

  lemma TouchAges(l: Ledger, id: KeyID, now: Time)
    requires id in l.keys
    ensures AgedOnly(l, Touch(l, id, now), now)
  {
  }

  lemma {:induction false} ScanAges(l: Ledger, a: Association, n: nat, now: Time, i: nat)
    requires Indexed(l) && i <= |l.order|
    ensures AgedOnly(l, Scan(l, a, n, now, i).0, now)
    decreases |l.order| - i
  {
    hide AgedOnly, Aged, Indexed;
    NothingAges(l, now);
    if n > 0 && i < |l.order| {
      InOrder(l, i);
      var l1 := Touch(l, l.order[i], now);
      var m := if Offered(l1, a, l.order[i]) then n - 1 else n;
      TouchAges(l, l.order[i], now);
      ScanAges(l1, a, m, now, i + 1);
      AgedTwice(l, l1, Scan(l1, a, m, now, i + 1).0, now);
    }
  }

  lemma NothingAges(l: Ledger, now: Time)
    ensures AgedOnly(l, l, now)
  {
  }

  lemma {:induction false} HoldAges(l: Ledger, ids: seq<KeyID>, now: Time, i: nat)
    requires Known(l, ids) && i <= |ids|
    ensures AgedOnly(l, Hold(l, ids, now, i).0, now)
    decreases |ids| - i
  {
    hide AgedOnly, Aged;
    NothingAges(l, now);
    if i < |ids| {
      var l1 := Touch(l, ids[i], now);
      TouchAges(l, ids[i], now);
      HoldAges(l1, ids, now, i + 1);
      AgedTwice(l, l1, Hold(l1, ids, now, i + 1).0, now);
    }
  }

  lemma {:induction false} CheckAges(l: Ledger, a: Association, ids: seq<KeyID>, now: Time, i: nat)
    requires i <= |ids|
    ensures AgedOnly(l, PeerCheck(l, a, ids, now, i).0, now)
    decreases |ids| - i
  {
    hide AgedOnly, Aged;
    NothingAges(l, now);
    if i < |ids| && ids[i] in l.keys {
      var l1 := Touch(l, ids[i], now);
      TouchAges(l, ids[i], now);
      CheckAges(l1, a, ids, now, i + 1);
      AgedTwice(l, l1, PeerCheck(l1, a, ids, now, i + 1).0, now);
    }
  }

  /** The call handed the key out on this side. */
  predicate HandsOut(call: Call, r: Reply, id: KeyID, side: Side) {
    && r.Delivered? && r.delivered.Ok? && (side == MasterSide <==> call.ConsumeReservation?)
    && exists k :: 0 <= k < |r.delivered.value| && r.delivered.value[k].id == id
  }

  /** Why a side that was open is not any more: it was handed out, it was invalidated, or its time was up. */
  predicate Ended(e: Entry, e': Entry, call: Call, r: Reply, id: KeyID, side: Side) {
    var st := SideOf(e', side);
    || (st == KeyState.Consumed && HandsOut(call, r, id, side))
    || (st == KeyState.Invalid && call.InvalidateKey? && call.id == id)
    || (st == KeyState.Expired && e.expires <= call.now)
  }

  ghost predicate EndsFor(l: Ledger, l': Ledger, call: Call, r: Reply) {
    && (forall id :: id in l.keys ==> id in l'.keys)
    && forall id, side :: id in l.keys ==>
      && (Open(SideOf(l.keys[id], side)) && !Open(SideOf(l'.keys[id], side)) ==>
            Ended(l.keys[id], l'.keys[id], call, r, id, side))
      && (!Open(SideOf(l.keys[id], side)) ==> SideOf(l'.keys[id], side) == SideOf(l.keys[id], side))
  }

  lemma AgedEnds(l: Ledger, l': Ledger, call: Call, r: Reply)
    requires AgedOnly(l, l', call.now)
    ensures EndsFor(l, l', call, r)
  {
  }

  lemma ReserveEnds(l: Ledger, a: Association, n: int, now: Time, draw: nat -> KeyID)
    requires Indexed(l) && Injective(draw)
    ensures var (l', r) := Reserve(l, a, n, now, draw); EndsFor(l, l', ReserveKeys(a, n, now, draw), Booked(r))
  {
    var call := ReserveKeys(a, n, now, draw);
    var (l', r) := Reserve(l, a, n, now, draw);
    if a.Valid() && 1 <= n <= MAX_BATCH {
      var (l1, ids) := Scan(l, a, n, now, 0);
      ScanAges(l, a, n, now, 0);
      ScanQuiet(l, a, n, now, 0);
      hide Scan, Quiet, Indexed;
      AgedEnds(l, l1, call, Booked(r));
      if |ids| == n { MarkedEnds(l, l1, a, ids, FirstFree(l1.reservations.Keys, draw, 0), call, Booked(r)); }
    } else {
      NothingAges(l, now);
      AgedEnds(l, l, call, Booked(r));
    }
  }

  lemma MarkedEnds(l: Ledger, l1: Ledger, a: Association, ids: seq<KeyID>, token: KeyID, call: Call, r: Reply)
    requires EndsFor(l, l1, call, r) && l1.keys.Keys == l.keys.Keys && forall k :: 0 <= k < |ids| ==>
      Offered(l1, a, ids[k])
    ensures EndsFor(l, Marked(l1, a, ids, token), call, r)
  {
    var l' := Marked(l1, a, ids, token);
    forall id | id in l.keys ensures id in l'.keys && l'.keys[id].slave == l1.keys[id].slave
      && (l'.keys[id].master == l1.keys[id].master || (Open(l'.keys[id].master) && Open(l1.keys[id].master))) {
      if id in ids { assert Offered(l1, a, id); }
    }
  }

  lemma ConsumeEnds(t: Trace, a: Association, token: KeyID, now: Time)
    requires TraceGood(t)
    ensures Indexed(t.l)
    ensures var (l', r) := Consume(t.l, a, token, now);
      EndsFor(t.l, l', ConsumeReservation(a, token, now), Delivered(r))
  {
    hide TraceGood, EndsFor, Hold, MasterDelivered;
    IsIndexed(t);
    var call, l := ConsumeReservation(a, token, now), t.l;
    var (l', r) := Consume(l, a, token, now);
    NothingAges(l, now);
    AgedEnds(l, l, call, Delivered(r));
    if token in l.reservations && l.reservations[token].pair == a {
      var ids := l.reservations[token].ids;
      var (l1, held) := Hold(l, ids, now, 0);
      HoldAges(l, ids, now, 0);
      HoldQuiet(l, ids, now, 0);
      HoldKeeps(l, ids, now, 0);
      AgedEnds(l, l1, call, Delivered(r));
      if held {
        QuietGood(t, l1);
        SpentEnds(t.(l := l1), l, token, ids, call, Delivered(r));
      }
    }
  }

  lemma SpentEnds(t: Trace, l: Ledger, token: KeyID, ids: seq<KeyID>, call: Call, r: Reply)
    requires TraceGood(t) && Known(t.l, ids) && EndsFor(l, t.l, call, r) && l.keys.Keys == t.l.keys.Keys
    requires call.ConsumeReservation? && r == Delivered(Ok(MasterBytes(t.l, ids)))
    requires forall k :: 0 <= k < |ids| ==> t.l.keys[ids[k]].master == KeyState.Reserved
    ensures EndsFor(l, MasterDelivered(t.l, token, ids), call, r)
  {
    hide TraceGood, HandsOut;
    forall id | id in ids ensures HandsOut(call, r, id, MasterSide)
      && id in t.l.keys && t.l.keys[id].master == KeyState.Reserved && t.l.keys[id].slave == KeyState.Reserved {
      SpentHands(t, ids, call, r, id);
    }
  }

  lemma SpentHands(t: Trace, ids: seq<KeyID>, call: Call, r: Reply, id: KeyID)
    requires TraceGood(t) && Known(t.l, ids) && id in ids
    requires call.ConsumeReservation? && r == Delivered(Ok(MasterBytes(t.l, ids)))
    requires forall k :: 0 <= k < |ids| ==> t.l.keys[ids[k]].master == KeyState.Reserved
    ensures HandsOut(call, r, id, MasterSide) && id in t.l.keys
    ensures t.l.keys[id].master == KeyState.Reserved && t.l.keys[id].slave == KeyState.Reserved
  {
    var k :| 0 <= k < |ids| && ids[k] == id;
    assert r.delivered.value[k].id == id;
    EntryOf(t, id);
    hide TraceGood;
  }

  lemma PeerEnds(l: Ledger, a: Association, ids: seq<KeyID>, now: Time)
    ensures var (l', r) := ConsumePeer(l, a, ids, now); EndsFor(l, l', ConsumePeerKeys(a, ids, now), Delivered(r))
  {
    hide EndsFor, PeerCheck, SlaveDelivered;
    var call := ConsumePeerKeys(a, ids, now);
    var (l', r) := ConsumePeer(l, a, ids, now);
    NothingAges(l, now);
    AgedEnds(l, l, call, Delivered(r));
    if GoodBatch(a, ids) {
      var (l1, ok) := PeerCheck(l, a, ids, now, 0);
      CheckAges(l, a, ids, now, 0);
      PeerQuiet(l, a, ids, now, 0);
      PeerCheckKeeps(l, a, ids, now, 0);
      AgedEnds(l, l1, call, Delivered(r));
      if ok.Ok? { FetchedEnds(l, l1, ids, call, Delivered(r)); }
    }
  }

  lemma FetchedEnds(l: Ledger, l1: Ledger, ids: seq<KeyID>, call: Call, r: Reply)
    requires Known(l1, ids) && EndsFor(l, l1, call, r) && l.keys.Keys == l1.keys.Keys
    requires call.ConsumePeerKeys? && r == Delivered(Ok(SlaveBytes(l1, ids)))
    requires forall k :: 0 <= k < |ids| ==> l1.keys[ids[k]].slave == KeyState.Available
    ensures EndsFor(l, SlaveDelivered(l1, ids), call, r)
  {
    var l' := SlaveDelivered(l1, ids);
    forall id | id in ids ensures HandsOut(call, r, id, SlaveSide)
      && id in l1.keys && l1.keys[id].slave == KeyState.Available {
      var k :| 0 <= k < |ids| && ids[k] == id;
      assert r.delivered.value[k].id == id;
    }
    hide HandsOut;
  }

  lemma InvalidateEnds(l: Ledger, id: KeyID, now: Time)
    ensures var (l', r) := Kept(l, Invalidate(l, id, now)); EndsFor(l, l', InvalidateKey(id, now), r)
  {
  }

  lemma StoreEnds(capacity: nat, l: Ledger, k: Key, now: Time)
    ensures var (l', r) := Kept(l, StoreKey(capacity, l, k, now)); EndsFor(l, l', Store(k, now), r)
  {
    hide Key.Valid;
  }

  lemma LooksEnd(l: Ledger, call: Call, r: Reply, id: KeyID)
    ensures EndsFor(l, Sweep(l, call.now), call, r)
    ensures id in l.keys ==> EndsFor(l, Touch(l, id, call.now), call, r)
    ensures EndsFor(l, l, call, r)
  {
    AgedEnds(l, Sweep(l, call.now), call, r);
    if id in l.keys { TouchAges(l, id, call.now); AgedEnds(l, Touch(l, id, call.now), call, r); }
    NothingAges(l, call.now);
    AgedEnds(l, l, call, r);
  }

  lemma StepEnds(capacity: nat, t: Trace, call: Call)
    requires TraceGood(t) && call.Fresh()
    ensures Indexed(t.l)
    ensures var (l', r) := Step(capacity, t.l, call); EndsFor(t.l, l', call, r)
  {
    hide TraceGood, EndsFor, Reserve, Consume, ConsumePeer, StoreKey, Invalidate, Sweep, Touch;
    IsIndexed(t);
    var r := Step(capacity, t.l, call).1;
    match call
    case Store(k, now) => StoreEnds(capacity, t.l, k, now);
    case ReserveKeys(a, n, now, draw) => ReserveEnds(t.l, a, n, now, draw);
    case ConsumeReservation(a, token, now) => ConsumeEnds(t, a, token, now);
    case ConsumePeerKeys(a, ids, now) => PeerEnds(t.l, a, ids, now);
    case InvalidateKey(id, now) => InvalidateEnds(t.l, id, now);
    case ReadMetadata(id, now) => LooksEnd(t.l, call, r, id);
    case ReadInventory(a, now) => LooksEnd(t.l, call, r, "");
  }

  /** In every history, whatever is called next: a side that ends was handed out just then, or invalidated, or its time
      was up; one that has ended stays as it is. Before a key's time, then, only delivery and invalidation end it. */
  lemma EndsOnlySo(capacity: nat, calls: seq<Call>, call: Call, id: KeyID, side: Side)
    requires Fresh(calls) && call.Fresh() && id in History(capacity, calls).stored
    ensures var t := History(capacity, calls);
      var (l', r) := Step(capacity, t.l, call);
      && id in t.l.keys && id in l'.keys
      && var st, st' := SideOf(t.l.keys[id], side), SideOf(l'.keys[id], side);
         && (!Open(st) ==> st' == st)
         && (Open(st) && !Open(st') ==>
              || (st' == KeyState.Consumed && HandsOut(call, r, id, side))
              || (st' == KeyState.Invalid && call.InvalidateKey? && call.id == id)
              || (st' == KeyState.Expired && t.stored[id].expires <= call.now))
  {
    hide TraceGood, Step, History, HandsOut;
    var t := History(capacity, calls);
    EveryHistory(capacity, calls);
    StepEnds(capacity, t, call);
    EntryOf(t, id);
    var (l', r) := Step(capacity, t.l, call);
    EndsAt(t.l, l', call, r, id, side);
  }

  lemma EndsAt(l: Ledger, l': Ledger, call: Call, r: Reply, id: KeyID, side: Side)
    requires EndsFor(l, l', call, r) && id in l.keys
    ensures id in l'.keys
    ensures !Open(SideOf(l.keys[id], side)) ==> SideOf(l'.keys[id], side) == SideOf(l.keys[id], side)
    ensures Open(SideOf(l.keys[id], side)) && !Open(SideOf(l'.keys[id], side)) ==>
      Ended(l.keys[id], l'.keys[id], call, r, id, side)
  {
  }

  /** Nothing expires before its time: where a side is said to have expired, some call was made when the key's time was
      up. */
  lemma {:induction false} ExpiredByThen(capacity: nat, calls: seq<Call>, id: KeyID, side: Side)
    requires Fresh(calls) && id in History(capacity, calls).l.keys
    requires SideOf(History(capacity, calls).l.keys[id], side) == KeyState.Expired
    ensures id in History(capacity, calls).stored
    ensures exists i :: 0 <= i < |calls| && History(capacity, calls).stored[id].expires <= calls[i].now
  {
    hide TraceGood, Step;
    var before, call := calls[..|calls| - 1], calls[|calls| - 1];
    var t, t' := History(capacity, before), History(capacity, calls);
    EveryHistory(capacity, calls);
    EveryHistory(capacity, before);
    EntryOf(t', id);
    EntryOf(t, id);
    if id in t.stored {
      SameStored(capacity, t, call, id);
      EndsOnlySo(capacity, before, call, id, side);
      if SideOf(t.l.keys[id], side) == KeyState.Expired {
        ExpiredByThen(capacity, before, id, side);
        var i :| 0 <= i < |before| && t.stored[id].expires <= before[i].now;
        assert calls[i] == before[i];
      } else {
        assert t.stored[id].expires <= calls[|calls| - 1].now;
      }
    } else {
      NewIsOpen(capacity, t, call, id);
    }
  }

  lemma SameStored(capacity: nat, t: Trace, call: Call, id: KeyID)
    requires TraceGood(t) && Indexed(t.l) && call.Fresh() && id in t.stored
    ensures id in After(capacity, t, call).stored && After(capacity, t, call).stored[id] == t.stored[id]
  {
    StoredKeys(t);
    hide EntriesGood, Reserve, Consume, ConsumePeer;
  }

  lemma NewIsOpen(capacity: nat, t: Trace, call: Call, id: KeyID)
    requires TraceGood(t) && Indexed(t.l) && call.Fresh() && id !in t.stored && id in After(capacity, t, call).stored
    ensures id in After(capacity, t, call).l.keys
    ensures var e := After(capacity, t, call).l.keys[id];
      e.master == KeyState.Available && e.slave == KeyState.Reserved
  {
    hide TraceGood, Reserve, Consume, ConsumePeer;
  }

  // Storing and invalidating.

  /** In every history: a key is taken exactly when it is valid now, not stored before, and within capacity. It is then
      on offer to its master, and its slave waits. */
  lemma StoresWhatFits(capacity: nat, calls: seq<Call>, k: Key, now: Time)
    requires Fresh(calls)
    ensures var t := History(capacity, calls);
      && var o := StoreKey(capacity, t.l, k, now);
         && (o.Ok? <==>
              && ValidID(k.id) && |k.material| == 32 && k.pair.Valid() && ValidName(k.source)
              && 0 < k.created <= now < k.expires
              && k.id !in t.stored && |t.stored| < capacity)
         && (o.Ok? ==>
              && o.value.order == t.l.order + [k.id] && o.value.reservations == t.l.reservations
              && o.value.keys.Keys == t.l.keys.Keys + {k.id}
              && (forall id :: id in t.l.keys ==> o.value.keys[id] == t.l.keys[id])
              && var e := o.value.keys[k.id];
                 e.master == KeyState.Available && e.slave == KeyState.Reserved && EntryGood(e, k))
  {
    hide History, ValidID, ValidName, Association.Valid;
    var t := History(capacity, calls);
    EveryHistory(capacity, calls);
    StoredKeys(t);
    hide TraceGood;
    assert |t.stored| == |t.stored.Keys| && |t.l.keys| == |t.l.keys.Keys|;
  }

  /** In every history: any stored key can be invalidated; then neither side is open, and one that was open says it was
      invalidated, or that it had expired before. */
  lemma InvalidatesWhatIsOpen(capacity: nat, calls: seq<Call>, id: KeyID, now: Time)
    requires Fresh(calls)
    ensures var t := History(capacity, calls);
      var o := Invalidate(t.l, id, now);
      && (o.Ok? <==> id in t.stored)
      && (o.Ok? ==>
           && id in t.l.keys && o.value.keys.Keys == t.l.keys.Keys
           && (forall x :: x in t.l.keys && x != id ==> o.value.keys[x] == t.l.keys[x])
           && var e, e', late := t.l.keys[id], o.value.keys[id], t.stored[id].expires <= now;
              e'.master == Cut(e.master, late) && e'.slave == Cut(e.slave, late))
  {
    hide History, TraceGood;
    var t := History(capacity, calls);
    EveryHistory(capacity, calls);
    EntryOf(t, id);
    if id in t.l.keys { CutAt(t.l, id, now); }
    hide Invalidate, Cut;
  }

  lemma CutAt(l: Ledger, id: KeyID, now: Time)
    requires id in l.keys
    ensures var o, e := Invalidate(l, id, now), l.keys[id];
      && o.Ok? && o.value.keys.Keys == l.keys.Keys
      && (forall x :: x in l.keys && x != id ==> o.value.keys[x] == l.keys[x])
      && var e' := o.value.keys[id];
         e'.master == Cut(e.master, e.expires <= now) && e'.slave == Cut(e.slave, e.expires <= now)
  {
  }

  /** An open side is over, by its time or by invalidation; a side that was over stays as it was. */
  function Cut(st: KeyState, late: bool): KeyState {
    if !Open(st) then st else if late then KeyState.Expired else KeyState.Invalid
  }
}
