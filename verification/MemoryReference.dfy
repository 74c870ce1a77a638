/** The ledger a reader would write first: every call sweeps all expired entries and then acts without any
    further thought of time. The lazy repository answers every call the same under a clock that never
    runs backwards. */
module MemoryReference {
  import opened Core
  import opened Lifecycle
  import opened Counting
  import opened Tokens
  import opened MemoryLedger

  // The eager ledger.

  function EagerReserve(g: Ledger, a: Association, n: int, draw: nat -> KeyID): (Ledger, Result<Reservation>)
    requires Indexed(g) && Injective(draw)
  {
    if !a.Valid() || !(1 <= n <= MAX_BATCH) then (g, Err(Error.Invalid))
    else if |OnOffer(g, a)| < n then (g, Err(Unavailable))
    else
      SelectCounts(g.order, OnOffer(g, a));
      var ids, token := Select(g.order, OnOffer(g, a))[..n], FirstFree(g.reservations.Keys, draw, 0);
      (Marked(g, a, ids, token), Ok(Reservation(token, ids)))
  }

  function EagerConsume(g: Ledger, a: Association, token: KeyID): (Ledger, Result<seq<Delivery>>)
    requires Indexed(g)
  {
    if token !in g.reservations then (g, Err(Unavailable))
    else
      var b := g.reservations[token];
      if b.pair != a then (g, Err(Unauthorized))
      else if exists i :: 0 <= i < |b.ids| && g.keys[b.ids[i]].master != KeyState.Reserved then (g, Err(Unavailable))
      else (MasterDelivered(g, token, b.ids), Ok(MasterBytes(g, b.ids)))
  }

  predicate Deliverable(g: Ledger, a: Association, id: KeyID) {
    id in g.keys && g.keys[id].pair == a && g.keys[id].slave == KeyState.Available
  }

  /** The first key of the batch that may not be delivered, or the length. */
  function FirstBad(g: Ledger, a: Association, ids: seq<KeyID>, i: nat): (k: nat)
    requires i <= |ids|
    ensures i <= k <= |ids| && (forall j :: i <= j < k ==> Deliverable(g, a, ids[j]))
      && (k < |ids| ==> !Deliverable(g, a, ids[k]))
    decreases |ids| - i
  {
    if i == |ids| || !Deliverable(g, a, ids[i]) then i else FirstBad(g, a, ids, i + 1)
  }

  function EagerConsumePeer(g: Ledger, a: Association, ids: seq<KeyID>): (Ledger, Result<seq<Delivery>>) {
    if !GoodBatch(a, ids) then (g, Err(Error.Invalid))
    else
      var k := FirstBad(g, a, ids, 0);
      if k == |ids| then (SlaveDelivered(g, ids), Ok(SlaveBytes(g, ids)))
      else (g, Err(if ids[k] in g.keys && g.keys[ids[k]].pair != a then Unauthorized else Unavailable))
  }

  function EagerInvalidate(g: Ledger, id: KeyID): Result<Ledger> {
    if id !in g.keys then Err(Unavailable) else Ok(g.(keys := g.keys[id := End(g.keys[id], KeyState.Invalid)]))
  }

  function EagerMetadata(g: Ledger, id: KeyID): Result<Meta> {
    if id !in g.keys then Err(Unavailable) else Ok(MetaOf(g.keys[id]))
  }

  function EagerStep(capacity: nat, g0: Ledger, call: Call): (Ledger, Reply)
    requires Indexed(g0) && call.Fresh()
  {
    var g := Sweep(g0, call.now);
    match call
    case Store(k, now) => Kept(g, StoreKey(capacity, g, k, now))
    case ReserveKeys(a, n, _, draw) => var (g1, r) := EagerReserve(g, a, n, draw); (g1, Booked(r))
    case ConsumeReservation(a, token, _) => var (g1, r) := EagerConsume(g, a, token); (g1, Delivered(r))
    case ConsumePeerKeys(a, ids, _) => var (g1, r) := EagerConsumePeer(g, a, ids); (g1, Delivered(r))
    case InvalidateKey(id, _) => Kept(g, EagerInvalidate(g, id))
    case ReadMetadata(id, _) => (g, Described(EagerMetadata(g, id)))
    case ReadInventory(a, _) => (g, Counted(|OnOffer(g, a)|))
  }

  // Sweeping.

  /** Two ledgers that differ only in entries not yet expired. */
  predicate Alike(l: Ledger, g: Ledger, now: Time) { Sweep(l, now) == Sweep(g, now) }

  lemma SweepLater(l: Ledger, t: Time, now: Time)
    requires t <= now
    ensures Sweep(Sweep(l, t), now) == Sweep(l, now)
  {
    assert Sweep(Sweep(l, t), now).keys == Sweep(l, now).keys;
  }

  lemma AlikeLater(l: Ledger, g: Ledger, t: Time, now: Time)
    requires t <= now && Alike(l, g, t)
    ensures Alike(l, g, now)
  {
    SweepLater(l, t, now);
    SweepLater(g, t, now);
  }

  lemma SweptTouch(l: Ledger, id: KeyID, now: Time)
    requires id in l.keys
    ensures Sweep(Touch(l, id, now), now) == Sweep(l, now) && Touch(l, id, now).keys[id] == Sweep(l, now).keys[id]
  {
    assert Sweep(Touch(l, id, now), now).keys == Sweep(l, now).keys;
  }

  /** Entries already as old as they get: what an operation touched. */
  predicate Settled(l: Ledger, ids: seq<KeyID>, now: Time) {
    forall i :: 0 <= i < |ids| ==> ids[i] in l.keys && l.keys[ids[i]] == Aged(l.keys[ids[i]], now)
  }

  // Reserving.

  lemma SelectStep(ids: seq<KeyID>, good: set<KeyID>, i: nat)
    requires i < |ids|
    ensures Select(ids[i..], good) == (if ids[i] in good then [ids[i]] else []) + Select(ids[i + 1..], good)
  {
    assert ids[i..][1..] == ids[i + 1..];
  }

  function Taken(all: seq<KeyID>, n: nat): seq<KeyID> { all[..if n <= |all| then n else |all|] }

  lemma TakenStep(id: KeyID, rest: seq<KeyID>, n: nat)
    requires n > 0
    ensures Taken([id] + rest, n) == [id] + Taken(rest, n - 1)
  {
  }

  lemma OfferedSwept(l: Ledger, a: Association, id: KeyID, now: Time)
    requires id in l.keys
    ensures Offered(Touch(l, id, now), a, id) <==> id in OnOffer(Sweep(l, now), a)
  {
    SweptTouch(l, id, now);
  }

  /** The lazy scan finds what the swept ledger offers, in order, and leaves the chosen entries settled. */
  lemma {:induction false} ScanSelects(l: Ledger, a: Association, n: nat, now: Time, i: nat)
    requires Indexed(l) && i <= |l.order|
    ensures var (l1, ids) := Scan(l, a, n, now, i);
      && Sweep(l1, now) == Sweep(l, now)
      && ids == Taken(Select(l.order[i..], OnOffer(Sweep(l, now), a)), n)
      && Settled(l1, ids, now)
    decreases |l.order| - i
  {
    hide Sweep, OnOffer, Offered, Aged, End, Settled, Indexed;
    SettledNone(l, now);
    if n > 0 && i < |l.order| {
      InOrder(l, i);
      var id, l1 := l.order[i], Touch(l, l.order[i], now);
      SweptTouch(l, id, now);
      OfferedSwept(l, a, id, now);
      SelectStep(l.order, OnOffer(Sweep(l, now), a), i);
      if Offered(l1, a, id) {
        ScanSelects(l1, a, n - 1, now, i + 1);
        ScanLeaves(l1, a, n - 1, now, i + 1, i);
        TakenStep(id, Select(l.order[i + 1..], OnOffer(Sweep(l, now), a)), n);
        SettledAlso(l, Scan(l1, a, n - 1, now, i + 1).0, id, Scan(l1, a, n - 1, now, i + 1).1, now);
      } else {
        ScanSelects(l1, a, n, now, i + 1);
      }
    }
  }

  lemma SettledNone(l: Ledger, now: Time)
    ensures Settled(l, [], now)
  {
  }

  lemma SettledAlso(l: Ledger, l1: Ledger, id: KeyID, ids: seq<KeyID>, now: Time)
    requires id in l.keys && id in l1.keys && l1.keys[id] == Touch(l, id, now).keys[id] && Settled(l1, ids, now)
    ensures Settled(l1, [id] + ids, now)
  {
    assert Aged(Aged(l.keys[id], now), now) == Aged(l.keys[id], now);
  }

  /** The scan does not go back. */
  lemma {:induction false} ScanLeaves(l: Ledger, a: Association, n: nat, now: Time, i: nat, k: nat)
    requires Indexed(l) && k < i <= |l.order|
    ensures l.order[k] in Scan(l, a, n, now, i).0.keys && Scan(l, a, n, now, i).0.keys[l.order[k]] == l.keys[l.order[k]]
    decreases |l.order| - i
  {
    if n > 0 && i < |l.order| {
      var l1 := Touch(l, l.order[i], now);
      ScanLeaves(l1, a, if Offered(l1, a, l.order[i]) then n - 1 else n, now, i + 1, k);
    }
  }

  lemma MarkSwept(l: Ledger, a: Association, ids: seq<KeyID>, token: KeyID, now: Time)
    requires Settled(l, ids, now) && forall i :: 0 <= i < |ids| ==> !l.keys[ids[i]].master.Terminal()
    ensures Sweep(Marked(l, a, ids, token), now) == Marked(Sweep(l, now), a, ids, token)
  {
    assert Sweep(Marked(l, a, ids, token), now).keys == Marked(Sweep(l, now), a, ids, token).keys;
  }

  lemma OnOfferOpen(l: Ledger, l1: Ledger, a: Association, ids: seq<KeyID>, now: Time)
    requires Settled(l1, ids, now) && Sweep(l1, now) == Sweep(l, now)
    requires forall i :: 0 <= i < |ids| ==> ids[i] in OnOffer(Sweep(l, now), a)
    ensures forall i :: 0 <= i < |ids| ==> !l1.keys[ids[i]].master.Terminal()
  {
    forall i | 0 <= i < |ids| ensures !l1.keys[ids[i]].master.Terminal() {
      assert Sweep(l1, now).keys[ids[i]] == l1.keys[ids[i]];
    }
  }

  lemma SweptIndexed(l: Ledger, now: Time)
    requires Indexed(l)
    ensures var g := Sweep(l, now);
      Indexed(g) && g.order == l.order && g.reservations == l.reservations && g.keys.Keys == l.keys.Keys
  {
  }

  lemma ReserveRefines(l: Ledger, a: Association, n: int, now: Time, draw: nat -> KeyID)
    requires Indexed(l) && Injective(draw)
    ensures Indexed(Sweep(l, now))
    ensures var (l1, r) := Reserve(l, a, n, now, draw);
      (Sweep(l1, now), r) == EagerReserve(Sweep(l, now), a, n, draw)
  {
    hide Sweep, Scan, Marked, Indexed, OnOffer, Settled;
    SweptIndexed(l, now);
    if a.Valid() && 1 <= n <= MAX_BATCH {
      var all := Select(l.order, OnOffer(Sweep(l, now), a));
      ScanSelects(l, a, n, now, 0);
      ScanKeeps(l, a, n, now, 0);
      assert l.order[0..] == l.order;
      OfferCounts(Sweep(l, now), a);
      var (l1, ids) := Scan(l, a, n, now, 0);
      if |ids| == n {
        SelectMembers(l.order, OnOffer(Sweep(l, now), a));
        OnOfferOpen(l, l1, a, ids, now);
        MarkSwept(l1, a, ids, FirstFree(l.reservations.Keys, draw, 0), now);
      }
    }
  }

  lemma OfferCounts(g: Ledger, a: Association)
    requires Indexed(g)
    ensures |Select(g.order, OnOffer(g, a))| == |OnOffer(g, a)|
  {
    SelectCounts(g.order, OnOffer(g, a));
  }

  // Consuming a reservation.

  /** The lazy check of a batch agrees with the swept ledger, and settles the whole batch when it passes. */
  lemma {:induction false} HoldRefines(l: Ledger, ids: seq<KeyID>, now: Time, i: nat)
    requires Known(l, ids) && i <= |ids|
    ensures var (l1, held) := Hold(l, ids, now, i);
      && Sweep(l1, now) == Sweep(l, now)
      && (held <==> forall k :: i <= k < |ids| ==> Sweep(l, now).keys[ids[k]].master == KeyState.Reserved)
      && (held ==> Settled(l1, ids[i..], now))
    decreases |ids| - i
  {
    hide Aged, End;
    if i < |ids| {
      var l1 := Touch(l, ids[i], now);
      SweptTouch(l, ids[i], now);
      HoldRefines(l1, ids, now, i + 1);
      HoldLeaves(l1, ids, now, i + 1, i);
      assert ids[i..] == [ids[i]] + ids[i + 1..];
    }
  }

  lemma {:induction false} HoldLeaves(l: Ledger, ids: seq<KeyID>, now: Time, i: nat, k: nat)
    requires Known(l, ids) && k < i <= |ids|
    ensures ids[k] in Hold(l, ids, now, i).0.keys && Hold(l, ids, now, i).0.keys[ids[k]] == l.keys[ids[k]]
    decreases |ids| - i
  {
    if i < |ids| { HoldLeaves(Touch(l, ids[i], now), ids, now, i + 1, k); }
  }

  lemma MasterSwept(l: Ledger, token: KeyID, ids: seq<KeyID>, now: Time)
    requires Settled(l, ids, now) && forall i :: 0 <= i < |ids| ==> !l.keys[ids[i]].master.Terminal()
    ensures Sweep(MasterDelivered(l, token, ids), now) == MasterDelivered(Sweep(l, now), token, ids)
  {
    assert Sweep(MasterDelivered(l, token, ids), now).keys == MasterDelivered(Sweep(l, now), token, ids).keys;
  }

  lemma ConsumeRefines(l: Ledger, a: Association, token: KeyID, now: Time)
    requires Indexed(l)
    ensures Indexed(Sweep(l, now))
    ensures var (l1, r) := Consume(l, a, token, now);
      (Sweep(l1, now), r) == EagerConsume(Sweep(l, now), a, token)
  {
    hide Aged, End, MasterDelivered;
    SweptIndexed(l, now);
    if token in l.reservations && l.reservations[token].pair == a {
      var ids := l.reservations[token].ids;
      HoldRefines(l, ids, now, 0);
      HoldKeeps(l, ids, now, 0);
      assert ids[0..] == ids;
      var (l1, held) := Hold(l, ids, now, 0);
      if held {
        SettledIsSwept(l1, ids, now);
        MasterSwept(l1, token, ids, now);
        assert MasterBytes(l1, ids) == MasterBytes(Sweep(l, now), ids);
      }
    }
  }

  lemma SettledIsSwept(l: Ledger, ids: seq<KeyID>, now: Time)
    requires Settled(l, ids, now)
    ensures forall i :: 0 <= i < |ids| ==> ids[i] in l.keys && l.keys[ids[i]] == Sweep(l, now).keys[ids[i]]
  {
  }

  // Consuming as the peer.

  lemma {:induction false} PeerCheckRefines(l: Ledger, a: Association, ids: seq<KeyID>, now: Time, i: nat)
    requires Distinct(ids) && i <= |ids|
    ensures var (l1, r) := PeerCheck(l, a, ids, now, i);
      var g := Sweep(l, now);
      var k := FirstBad(g, a, ids, i);
      && Sweep(l1, now) == g
      && r == (if k == |ids| then Ok(()) else Err(if ids[k] in g.keys && g.keys[ids[k]].pair != a then Unauthorized
        else Unavailable))
      && (r.Ok? ==> Settled(l1, ids[i..], now))
    decreases |ids| - i
  {
    hide Aged, End;
    if i < |ids| && ids[i] in l.keys {
      var l1 := Touch(l, ids[i], now);
      SweptTouch(l, ids[i], now);
      SamePair(l, ids[i], now);
      if l.keys[ids[i]].pair == a {
        PeerCheckRefines(l1, a, ids, now, i + 1);
        PeerCheckLeaves(l1, a, ids, now, i + 1, i);
        assert ids[i..] == [ids[i]] + ids[i + 1..];
      }
    }
  }

  lemma SamePair(l: Ledger, id: KeyID, now: Time)
    requires id in l.keys
    ensures Sweep(l, now).keys[id].pair == l.keys[id].pair
  {
  }

  lemma {:induction false} PeerCheckLeaves(l: Ledger, a: Association, ids: seq<KeyID>, now: Time, i: nat, k: nat)
    requires Distinct(ids) && k < i <= |ids| && ids[k] in l.keys
    ensures ids[k] in PeerCheck(l, a, ids, now, i).0.keys
      && PeerCheck(l, a, ids, now, i).0.keys[ids[k]] == l.keys[ids[k]]
    decreases |ids| - i
  {
    if i < |ids| && ids[i] in l.keys { PeerCheckLeaves(Touch(l, ids[i], now), a, ids, now, i + 1, k); }
  }

  lemma SlaveSwept(l: Ledger, ids: seq<KeyID>, now: Time)
    requires Settled(l, ids, now) && forall i :: 0 <= i < |ids| ==> !l.keys[ids[i]].slave.Terminal()
    ensures Sweep(SlaveDelivered(l, ids), now) == SlaveDelivered(Sweep(l, now), ids)
  {
    assert Sweep(SlaveDelivered(l, ids), now).keys == SlaveDelivered(Sweep(l, now), ids).keys;
  }

  lemma ConsumePeerRefines(l: Ledger, a: Association, ids: seq<KeyID>, now: Time)
    ensures var (l1, r) := ConsumePeer(l, a, ids, now);
      (Sweep(l1, now), r) == EagerConsumePeer(Sweep(l, now), a, ids)
  {
    hide Aged, End, SlaveDelivered;
    if GoodBatch(a, ids) {
      PeerCheckRefines(l, a, ids, now, 0);
      PeerCheckKeeps(l, a, ids, now, 0);
      assert ids[0..] == ids;
      var (l1, r) := PeerCheck(l, a, ids, now, 0);
      if r.Ok? {
        SettledIsSwept(l1, ids, now);
        SlaveSwept(l1, ids, now);
        assert SlaveBytes(l1, ids) == SlaveBytes(Sweep(l, now), ids);
      }
    }
  }

  // The other calls.

  lemma StoreRefines(capacity: nat, l: Ledger, k: Key, now: Time)
    ensures var (l1, r) := Kept(l, StoreKey(capacity, l, k, now));
      (Sweep(l1, now), r) == Kept(Sweep(l, now), StoreKey(capacity, Sweep(l, now), k, now))
  {
    assert |Sweep(l, now).keys| == |l.keys| by { assert Sweep(l, now).keys.Keys == l.keys.Keys; }
    if StoreKey(capacity, l, k, now).Ok? {
      assert Sweep(StoreKey(capacity, l, k, now).value, now).keys == Sweep(l, now).keys[k.id := NewEntry(k)];
    }
  }

  lemma InvalidateRefines(l: Ledger, id: KeyID, now: Time)
    ensures var (l1, r) := Kept(l, Invalidate(l, id, now));
      (Sweep(l1, now), r) == Kept(Sweep(l, now), EagerInvalidate(Sweep(l, now), id))
  {
    if id in l.keys {
      var e := End(Aged(l.keys[id], now), KeyState.Invalid);
      assert Aged(e, now) == e;
      assert Sweep(Invalidate(l, id, now).value, now).keys == Sweep(l, now).keys[id := e];
    }
  }

  /** One call: same answer, and the ledgers stay alike. */
  lemma StepRefines(capacity: nat, l: Ledger, call: Call)
    requires Indexed(l) && call.Fresh()
    ensures var (l1, r) := Step(capacity, l, call);
      (Sweep(l1, call.now), r) == EagerStep(capacity, l, call)
  {
    hide Sweep, Reserve, Consume, ConsumePeer, EagerReserve, EagerConsume, EagerConsumePeer, Indexed, StoreKey,
      Invalidate, EagerInvalidate;
    SweptIndexed(l, call.now);
    SweepLater(l, call.now, call.now);
    match call
    case Store(k, now) => StoreRefines(capacity, l, k, now);
    case ReserveKeys(a, n, now, draw) => ReserveRefines(l, a, n, now, draw);
    case ConsumeReservation(a, token, now) => ConsumeRefines(l, a, token, now);
    case ConsumePeerKeys(a, ids, now) => ConsumePeerRefines(l, a, ids, now);
    case InvalidateKey(id, now) => InvalidateRefines(l, id, now);
    case ReadMetadata(id, now) => MetadataRefines(l, id, now);
    case ReadInventory(a, now) =>
  }

  lemma MetadataRefines(l: Ledger, id: KeyID, now: Time)
    ensures var (l1, r) := Metadata(l, id, now);
      Sweep(l1, now) == Sweep(l, now) && r == EagerMetadata(Sweep(l, now), id)
  {
    if id in l.keys { SweptTouch(l, id, now); }
  }

  // Call sequences.

  ghost predicate Orderly(calls: seq<Call>, t: Time) {
    && (forall i :: 0 <= i < |calls| ==> calls[i].Fresh() && t <= calls[i].now)
    && forall i, j :: 0 <= i < j < |calls| ==> calls[i].now <= calls[j].now
  }

  function Replies(capacity: nat, l: Ledger, calls: seq<Call>): seq<Reply>
    requires Indexed(l) && forall i :: 0 <= i < |calls| ==> calls[i].Fresh()
    decreases |calls|
  {
    if calls == [] then []
    else
      StepIndexed(capacity, l, calls[0]);
      [Step(capacity, l, calls[0]).1] + Replies(capacity, Step(capacity, l, calls[0]).0, calls[1..])
  }

  lemma EagerIndexed(capacity: nat, g: Ledger, call: Call)
    requires Indexed(g) && call.Fresh()
    ensures Indexed(EagerStep(capacity, g, call).0)
  {
    hide Indexed;
    StepRefines(capacity, g, call);
    StepIndexed(capacity, g, call);
    SweptIndexed(Step(capacity, g, call).0, call.now);
  }

  function EagerReplies(capacity: nat, g: Ledger, calls: seq<Call>): seq<Reply>
    requires Indexed(g) && forall i :: 0 <= i < |calls| ==> calls[i].Fresh()
    decreases |calls|
  {
    if calls == [] then []
    else
      EagerIndexed(capacity, g, calls[0]);
      [EagerStep(capacity, g, calls[0]).1] + EagerReplies(capacity, EagerStep(capacity, g, calls[0]).0, calls[1..])
  }

  lemma {:induction false} AlikeReplies(capacity: nat, l: Ledger, g: Ledger, calls: seq<Call>, t: Time)
    requires Indexed(l) && Indexed(g) && Alike(l, g, t) && Orderly(calls, t)
    ensures Replies(capacity, l, calls) == EagerReplies(capacity, g, calls)
    decreases |calls|
  {
    hide Step, Sweep, Indexed;
    if calls != [] {
      var call := calls[0];
      AlikeLater(l, g, t, call.now);
      StepRefines(capacity, l, call);
      EagerDepends(capacity, l, g, call);
      StepIndexed(capacity, l, call);
      EagerIndexed(capacity, g, call);
      var l1 := Step(capacity, l, call).0;
      SweepLater(l1, call.now, call.now);
      AlikeReplies(capacity, l1, EagerStep(capacity, g, call).0, calls[1..], call.now);
    }
  }

  /** The eager step sees only the swept ledger. */
  lemma EagerDepends(capacity: nat, l: Ledger, g: Ledger, call: Call)
    requires Indexed(l) && Indexed(g) && call.Fresh() && Alike(l, g, call.now)
    ensures EagerStep(capacity, l, call) == EagerStep(capacity, g, call)
  {
  }

  /** Expiring only what a call touches, and stopping early, answers every sequence of calls under a
      monotone clock as a ledger that first sweeps everything. */
  lemma LazyExpiryRefines(capacity: nat, calls: seq<Call>)
    requires Orderly(calls, 0)
    ensures Replies(capacity, NOTHING, calls) == EagerReplies(capacity, NOTHING, calls)
  {
    AlikeReplies(capacity, NOTHING, NOTHING, calls, 0);
  }

  // Inventory.

  /** At one instant, n keys can be reserved for a valid pair and batch size exactly when the inventory shows
      n, and they are the first n on offer in insertion order. */
  lemma InventoryIsAllocation(l: Ledger, a: Association, n: int, now: Time, draw: nat -> KeyID)
    requires Indexed(l) && Injective(draw) && a.Valid() && 1 <= n <= MAX_BATCH
    ensures Reserve(l, a, n, now, draw).1.Ok? <==> n <= Inventory(l, a, now).1
    ensures var r := Reserve(l, a, n, now, draw).1;
      r.Ok? ==> |r.value.ids| == n && FirstOf(l.order, OnOffer(Sweep(l, now), a),
        r.value.ids) && r.value.token !in l.reservations
  {
    hide Sweep, Scan, Marked, Reserve, OnOffer;
    SweptIndexed(l, now);
    ReserveRefines(l, a, n, now, draw);
    OfferCounts(Sweep(l, now), a);
    if n <= |OnOffer(Sweep(l, now), a)| { SelectIsFirst(l.order, OnOffer(Sweep(l, now), a), n); }
  }
}
