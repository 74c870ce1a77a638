/** The memory repository: a ledger of keys held for two recipients. An operation expires only the entries it
    touches, and its scans stop as soon as they can. */
module MemoryLedger {
  import opened Core
  import opened Uuid
  import opened Lifecycle
  import opened Tokens

  datatype Entry = Entry(
    pair: Association, source: string, created: Time, expires: Time,
    master: KeyState, slave: KeyState,
    masterBytes: Bytes, slaveBytes: Bytes)   // [] once cleared

  datatype Batch = Batch(pair: Association, ids: seq<KeyID>)

  datatype Ledger = Ledger(keys: map<KeyID, Entry>, order: seq<KeyID>, reservations: map<KeyID, Batch>)

  datatype Meta = Meta(pair: Association, source: string, created: Time, expires: Time, master: KeyState,
    slave: KeyState)

  const NOTHING: Ledger := Ledger(map[], [], map[])

  /** The insertion order lists every key once; reservations name known keys, each once. */
  predicate Indexed(l: Ledger) {
    && Distinct(l.order) && (forall i :: 0 <= i < |l.order| ==> l.order[i] in l.keys)
      && (forall id :: id in l.keys ==> id in l.order)
    && forall t :: t in l.reservations ==> Known(l, l.reservations[t].ids)
  }

  predicate Known(l: Ledger, ids: seq<KeyID>) {
    Distinct(ids) && forall i :: 0 <= i < |ids| ==> ids[i] in l.keys
  }

  // Expiry.

  /** Both sides that are not over yet end in the given state, and their bytes are cleared. */
  function End(e: Entry, st: KeyState): Entry {
    e.(master := if e.master.Terminal() then e.master else st, masterBytes := if e.master.Terminal() then e.masterBytes
      else [],
       slave := if e.slave.Terminal() then e.slave else st, slaveBytes := if e.slave.Terminal() then e.slaveBytes
         else [])
  }

  function Aged(e: Entry, now: Time): Entry { if now < e.expires then e else End(e, KeyState.Expired) }

  function Touch(l: Ledger, id: KeyID, now: Time): (r: Ledger)
    requires id in l.keys
    ensures Indexed(l) ==> Indexed(r)
    ensures r.keys.Keys == l.keys.Keys
  {
    l.(keys := l.keys[id := Aged(l.keys[id], now)])
  }

  /** The ledger with every entry expired that is due. */
  function Sweep(l: Ledger, now: Time): Ledger { l.(keys := map id | id in l.keys :: Aged(l.keys[id], now)) }

  // Operations.

  function NewEntry(k: Key): Entry {
    Entry(k.pair, k.source, k.created, k.expires, KeyState.Available, KeyState.Reserved, k.material, k.material)
  }

  function StoreKey(capacity: nat, l: Ledger, k: Key, now: Time): Result<Ledger> {
    if !k.Valid(now) then Err(Error.Invalid)
    else if k.id in l.keys then Err(Duplicate)
    else if |l.keys| >= capacity then Err(Capacity)
    else Ok(l.(keys := l.keys[k.id := NewEntry(k)], order := l.order + [k.id]))
  }

  predicate Offered(l: Ledger, a: Association, id: KeyID) {
    id in l.keys && l.keys[id].pair == a && l.keys[id].master == KeyState.Available
  }

  /** Looks from position i of the order for n keys on offer, expiring what it passes; stops at the n-th. */
  function Scan(l: Ledger, a: Association, n: nat, now: Time, i: nat): (Ledger, seq<KeyID>)
    requires Indexed(l) && i <= |l.order|
    decreases |l.order| - i
  {
    if n == 0 || i == |l.order| then (l, [])
    else
      var id := l.order[i];
      var l1 := Touch(l, id, now);
      if Offered(l1, a, id) then
        var rest := Scan(l1, a, n - 1, now, i + 1);
        (rest.0, [id] + rest.1)
      else Scan(l1, a, n, now, i + 1)
  }

  function Marked(l: Ledger, a: Association, ids: seq<KeyID>, token: KeyID): Ledger {
    l.(keys := map id | id in l.keys :: if id in ids then l.keys[id].(master := KeyState.Reserved) else l.keys[id],
       reservations := l.reservations[token := Batch(a, ids)])
  }

  function Reserve(l: Ledger, a: Association, n: int, now: Time, draw: nat -> KeyID): (Ledger, Result<Reservation>)
    requires Indexed(l) && Injective(draw)
  {
    if !a.Valid() || !(1 <= n <= MAX_BATCH) then (l, Err(Error.Invalid))
    else
      var (l1, ids) := Scan(l, a, n, now, 0);
      if |ids| != n then (l1, Err(Unavailable))
      else
        var token := FirstFree(l1.reservations.Keys, draw, 0);
        (Marked(l1, a, ids, token), Ok(Reservation(token, ids)))
  }

  /** Expires the members of a batch from position i on, up to the first that is not reserved. */
  function Hold(l: Ledger, ids: seq<KeyID>, now: Time, i: nat): (Ledger, bool)
    requires Known(l, ids) && i <= |ids|
    decreases |ids| - i
  {
    if i == |ids| then (l, true)
    else
      var l1 := Touch(l, ids[i], now);
      if l1.keys[ids[i]].master != KeyState.Reserved then (l1, false) else Hold(l1, ids, now, i + 1)
  }

  function MasterSpent(e: Entry): Entry {
    e.(master := KeyState.Consumed, masterBytes := [], slave := KeyState.Available)
  }

  function SlaveSpent(e: Entry): Entry { e.(slave := KeyState.Consumed, slaveBytes := []) }

  function MasterDelivered(l: Ledger, token: KeyID, ids: seq<KeyID>): Ledger {
    l.(keys := map id | id in l.keys :: if id in ids then MasterSpent(l.keys[id])
      else l.keys[id], reservations := l.reservations - {token})
  }

  function SlaveDelivered(l: Ledger, ids: seq<KeyID>): Ledger {
    l.(keys := map id | id in l.keys :: if id in ids then SlaveSpent(l.keys[id]) else l.keys[id])
  }

  function MasterBytes(l: Ledger, ids: seq<KeyID>): (r: seq<Delivery>)
    requires Known(l, ids)
    ensures |r| == |ids| && forall i :: 0 <= i < |ids| ==> r[i] == Delivery(ids[i], l.keys[ids[i]].masterBytes)
  {
    seq(|ids|, i requires 0 <= i < |ids| => Delivery(ids[i], l.keys[ids[i]].masterBytes))
  }

  function SlaveBytes(l: Ledger, ids: seq<KeyID>): (r: seq<Delivery>)
    requires Known(l, ids)
    ensures |r| == |ids| && forall i :: 0 <= i < |ids| ==> r[i] == Delivery(ids[i], l.keys[ids[i]].slaveBytes)
  {
    seq(|ids|, i requires 0 <= i < |ids| => Delivery(ids[i], l.keys[ids[i]].slaveBytes))
  }

  lemma {:induction false} HoldKeeps(l: Ledger, ids: seq<KeyID>, now: Time, i: nat)
    requires Known(l, ids) && i <= |ids|
    ensures var l1 := Hold(l, ids, now, i).0;
      l1.keys.Keys == l.keys.Keys && l1.order == l.order && l1.reservations == l.reservations
    decreases |ids| - i
  {
    if i < |ids| { HoldKeeps(Touch(l, ids[i], now), ids, now, i + 1); }
  }

  function Consume(l: Ledger, a: Association, token: KeyID, now: Time): (Ledger, Result<seq<Delivery>>)
    requires Indexed(l)
  {
    if token !in l.reservations then (l, Err(Unavailable))
    else if l.reservations[token].pair != a then (l, Err(Unauthorized))
    else
      var ids := l.reservations[token].ids;
      HoldKeeps(l, ids, now, 0);
      var (l1, held) := Hold(l, ids, now, 0);
      if !held then (l1, Err(Unavailable)) else (MasterDelivered(l1, token, ids), Ok(MasterBytes(l1, ids)))
  }

  predicate GoodBatch(a: Association, ids: seq<KeyID>) {
    a.Valid() && 1 <= |ids| <= MAX_BATCH && Distinct(ids) && forall i :: 0 <= i < |ids| ==> ValidID(ids[i])
  }

  /** Expires the requested keys from position i on, up to the first that may not be delivered. */
  function PeerCheck(l: Ledger, a: Association, ids: seq<KeyID>, now: Time, i: nat): (Ledger, Result<()>)
    requires i <= |ids|
    decreases |ids| - i
  {
    if i == |ids| then (l, Ok(()))
    else if ids[i] !in l.keys then (l, Err(Unavailable))
    else if l.keys[ids[i]].pair != a then (l, Err(Unauthorized))
    else
      var l1 := Touch(l, ids[i], now);
      if l1.keys[ids[i]].slave != KeyState.Available then (l1, Err(Unavailable)) else PeerCheck(l1, a, ids, now, i + 1)
  }

  lemma {:induction false} PeerCheckKeeps(l: Ledger, a: Association, ids: seq<KeyID>, now: Time, i: nat)
    requires i <= |ids|
    ensures var (l1, r) := PeerCheck(l, a, ids, now, i);
      && l1.keys.Keys == l.keys.Keys && l1.order == l.order && l1.reservations == l.reservations
      && (r.Ok? ==> forall k :: i <= k < |ids| ==> ids[k] in l.keys)
    decreases |ids| - i
  {
    if i < |ids| && ids[i] in l.keys { PeerCheckKeeps(Touch(l, ids[i], now), a, ids, now, i + 1); }
  }

  function ConsumePeer(l: Ledger, a: Association, ids: seq<KeyID>, now: Time): (Ledger, Result<seq<Delivery>>) {
    if !GoodBatch(a, ids) then (l, Err(Error.Invalid))
    else
      PeerCheckKeeps(l, a, ids, now, 0);
      var (l1, r) := PeerCheck(l, a, ids, now, 0);
      if r.Err? then (l1, Err(r.error)) else (SlaveDelivered(l1, ids), Ok(SlaveBytes(l1, ids)))
  }

  function Invalidate(l: Ledger, id: KeyID, now: Time): Result<Ledger> {
    if id !in l.keys then Err(Unavailable)
      else Ok(l.(keys := l.keys[id := End(Aged(l.keys[id], now), KeyState.Invalid)]))
  }

  function MetaOf(e: Entry): Meta { Meta(e.pair, e.source, e.created, e.expires, e.master, e.slave) }

  function Metadata(l: Ledger, id: KeyID, now: Time): (Ledger, Result<Meta>) {
    if id !in l.keys then (l, Err(Unavailable)) else (Touch(l, id, now), Ok(MetaOf(Aged(l.keys[id], now))))
  }

  function OnOffer(l: Ledger, a: Association): set<KeyID> { set id | id in l.keys && Offered(l, a, id) }

  /** Expires everything and counts what is on offer. */
  function Inventory(l: Ledger, a: Association, now: Time): (Ledger, nat) {
    (Sweep(l, now), |OnOffer(Sweep(l, now), a)|)
  }

  // Calls.

  datatype Call =
    | Store(key: Key, now: Time)
    | ReserveKeys(a: Association, n: int, now: Time, draw: nat -> KeyID)
    | ConsumeReservation(a: Association, token: KeyID, now: Time)
    | ConsumePeerKeys(a: Association, ids: seq<KeyID>, now: Time)
    | InvalidateKey(id: KeyID, now: Time)
    | ReadMetadata(id: KeyID, now: Time)
    | ReadInventory(a: Association, now: Time)
  {
    /** Randomly drawn identifiers do not repeat. */
    ghost predicate Fresh() { ReserveKeys? ==> Injective(draw) }
  }

  datatype Reply =
    | Done(done: Result<()>)
    | Booked(booked: Result<Reservation>)
    | Delivered(delivered: Result<seq<Delivery>>)
    | Described(described: Result<Meta>)
    | Counted(counted: nat)

  function Kept(l: Ledger, r: Result<Ledger>): (Ledger, Reply) {
    match r case Ok(l1) => (l1, Done(Ok(()))) case Err(e) => (l, Done(Err(e)))
  }

  function Step(capacity: nat, l: Ledger, call: Call): (Ledger, Reply)
    requires Indexed(l) && call.Fresh()
  {
    match call
    case Store(k, now) => Kept(l, StoreKey(capacity, l, k, now))
    case ReserveKeys(a, n, now, draw) => var (l1, r) := Reserve(l, a, n, now, draw); (l1, Booked(r))
    case ConsumeReservation(a, token, now) => var (l1, r) := Consume(l, a, token, now); (l1, Delivered(r))
    case ConsumePeerKeys(a, ids, now) => var (l1, r) := ConsumePeer(l, a, ids, now); (l1, Delivered(r))
    case InvalidateKey(id, now) => Kept(l, Invalidate(l, id, now))
    case ReadMetadata(id, now) => var (l1, r) := Metadata(l, id, now); (l1, Described(r))
    case ReadInventory(a, now) => var (l1, n) := Inventory(l, a, now); (l1, Counted(n))
  }

  lemma {:induction false} ScanKeeps(l: Ledger, a: Association, n: nat, now: Time, i: nat)
    requires Indexed(l) && i <= |l.order|
    ensures var (l1, ids) := Scan(l, a, n, now, i);
      && l1.keys.Keys == l.keys.Keys && l1.order == l.order && l1.reservations == l.reservations
      && Within(ids, l.order[i..]) && |ids| <= n
    decreases |l.order| - i
  {
    if n > 0 && i < |l.order| {
      InOrder(l, i);
      var id := l.order[i];
      var l1 := Touch(l, id, now);
      var m := if Offered(l1, a, id) then n - 1 else n;
      LaterInOrder(l, i);
      hide Indexed, Aged, End, Offered, Within;
      ScanKeeps(l1, a, m, now, i + 1);
      WithinMore(id, Scan(l1, a, m, now, i + 1).1, l.order[i + 1..]);
    } else {
      hide Indexed;
    }
  }

  /** Some of the elements, each at most once. */
  predicate Within(ids: seq<KeyID>, all: seq<KeyID>) { Distinct(ids) && forall k :: 0 <= k < |ids| ==> ids[k] in all }

  lemma WithinMore(id: KeyID, ids: seq<KeyID>, all: seq<KeyID>)
    requires Within(ids, all) && id !in all
    ensures Within(ids, [id] + all) && Within([id] + ids, [id] + all)
  {
    forall k | 0 <= k < |ids| ensures ids[k] in [id] + all && ids[k] != id { assert ids[k] in all; }
  }

  lemma LaterInOrder(l: Ledger, i: nat)
    requires Indexed(l) && i < |l.order|
    ensures l.order[i..] == [l.order[i]] + l.order[i + 1..] && l.order[i] !in l.order[i + 1..]
  {
  }

  lemma InOrder(l: Ledger, i: nat)
    requires Indexed(l) && i < |l.order|
    ensures l.order[i] in l.keys
  {
  }

  lemma StepIndexed(capacity: nat, l: Ledger, call: Call)
    requires Indexed(l) && call.Fresh()
    ensures Indexed(Step(capacity, l, call).0)
  {
    hide Aged, End, Scan, Hold, PeerCheck, StoreKey;
    match call
    case Store(k, now) => if StoreKey(capacity, l, k, now).Ok? { StoreIndexed(capacity, l, k, now); }
    case ReserveKeys(a, n, now, draw) => ReserveIndexed(l, a, n, now, draw);
    case ConsumeReservation(a, token, now) => if token in l.reservations {
      HoldKeeps(l, l.reservations[token].ids, now, 0);
    }
    case ConsumePeerKeys(a, ids, now) => PeerCheckKeeps(l, a, ids, now, 0);
    case _ =>
  }

  lemma ReserveIndexed(l: Ledger, a: Association, n: int, now: Time, draw: nat -> KeyID)
    requires Indexed(l) && Injective(draw)
    ensures Indexed(Reserve(l, a, n, now, draw).0)
  {
    hide Scan;
    if n >= 0 { ScanKeeps(l, a, n, now, 0); }
  }

  lemma StoreIndexed(capacity: nat, l: Ledger, k: Key, now: Time)
    requires Indexed(l) && StoreKey(capacity, l, k, now).Ok?
    ensures Indexed(StoreKey(capacity, l, k, now).value)
  {
    var l1 := StoreKey(capacity, l, k, now).value;
    assert l1.order[|l.order|] == k.id;
    forall id | id in l.keys ensures id in l1.order {
      var i :| 0 <= i < |l.order| && l.order[i] == id;
      assert l1.order[i] == id;
    }
  }
}
