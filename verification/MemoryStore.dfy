/** The memory repository as it runs: entries edited in place by scanning loops, each operation proved to be
    the ledger step of the same name. */
module MemoryStore {
  import opened Core
  import opened Uuid
  import opened Lifecycle
  import opened Tokens
  import opened MemoryLedger

  /** The entries after `change` was applied to the first n of ids. */
  function Edited(keys: map<KeyID, Entry>, ids: seq<KeyID>, n: nat, change: Entry -> Entry): map<KeyID, Entry>
    requires n <= |ids|
  {
    map id | id in keys :: if id in ids[..n] then change(keys[id]) else keys[id]
  }

  lemma EditedNext(keys: map<KeyID, Entry>, ids: seq<KeyID>, n: nat, change: Entry -> Entry)
    requires n < |ids| && Distinct(ids) && ids[n] in keys
    ensures ids[n] in Edited(keys, ids, n, change) && Edited(keys, ids, n, change)[ids[n]] == keys[ids[n]]
    ensures Edited(keys, ids, n + 1, change) == Edited(keys, ids, n, change)[ids[n] := change(keys[ids[n]])]
  {
    assert ids[..n + 1] == ids[..n] + [ids[n]];
    assert ids[n] !in ids[..n];
  }

  lemma EditedAll(keys: map<KeyID, Entry>, ids: seq<KeyID>, change: Entry -> Entry)
    ensures Edited(keys, ids, 0, change) == keys
    ensures Edited(keys, ids, |ids|, change) == map id | id in keys :: if id in ids then change(keys[id]) else keys[id]
  {
    assert ids[..|ids|] == ids;
  }

  /** The entries when only those in rest still wait to be swept. */
  predicate HalfSwept(l: Ledger, keys: map<KeyID, Entry>, rest: set<KeyID>, now: Time) {
    keys.Keys == l.keys.Keys && forall id :: id in keys ==>
      keys[id] == if id in rest then l.keys[id] else Sweep(l, now).keys[id]
  }

  lemma HalfSweptEnds(l: Ledger, now: Time)
    ensures HalfSwept(l, l.keys, l.keys.Keys, now)
    ensures forall a :: OnOffer(Sweep(l, now), a) - l.keys.Keys == {}
  {
  }

  lemma HalfSweptAll(l: Ledger, keys: map<KeyID, Entry>, now: Time)
    requires HalfSwept(l, keys, {}, now)
    ensures keys == Sweep(l, now).keys && Sweep(l, now).order == l.order && Sweep(l, now).reservations == l.reservations
  {
  }

  lemma SweepNext(l: Ledger, keys: map<KeyID, Entry>, rest: set<KeyID>, now: Time, id: KeyID, a: Association)
    requires HalfSwept(l, keys, rest, now) && id in rest && id in keys
    ensures HalfSwept(l, keys[id := Aged(keys[id], now)], rest - {id}, now)
    ensures var good := OnOffer(Sweep(l, now), a);
      good - (rest - {id}) == (good - rest) + (if Aged(keys[id], now).pair == a
        && Aged(keys[id], now).master == KeyState.Available then {id} else {})
  {
  }

  function Prepend(ids: seq<KeyID>, found: (Ledger, seq<KeyID>)): (Ledger, seq<KeyID>) { (found.0, ids + found.1) }

  lemma ScanNext(l: Ledger, a: Association, n: nat, now: Time, i: nat, ids: seq<KeyID>)
    requires Indexed(l) && i < |l.order| && n > 0
    ensures l.order[i] in l.keys
    ensures var l1 := Touch(l, l.order[i], now);
      Prepend(ids, Scan(l, a, n, now, i)) ==
        if Offered(l1, a, l.order[i]) then Prepend(ids + [l.order[i]], Scan(l1, a, n - 1, now, i + 1))
          else Prepend(ids, Scan(l1, a, n, now, i + 1))
  {
    hide Aged, End;
    var l1 := Touch(l, l.order[i], now);
    if Offered(l1, a, l.order[i]) {
      var rest := Scan(l1, a, n - 1, now, i + 1).1;
      assert ids + ([l.order[i]] + rest) == (ids + [l.order[i]]) + rest;
    }
  }

  lemma ScanFinds(l: Ledger, a: Association, n: nat, now: Time)
    requires Indexed(l)
    ensures var (l1, ids) := Scan(l, a, n, now, 0);
      Distinct(ids) && |ids| <= n && forall i :: 0 <= i < |ids| ==> ids[i] in l1.keys
    ensures Prepend([], Scan(l, a, n, now, 0)) == Scan(l, a, n, now, 0)
  {
    ScanKeeps(l, a, n, now, 0);
    assert [] + Scan(l, a, n, now, 0).1 == Scan(l, a, n, now, 0).1;
  }

  lemma ScanOver(l: Ledger, a: Association, n: nat, now: Time, i: nat, ids: seq<KeyID>)
    requires Indexed(l) && i <= |l.order| && (n == 0 || i == |l.order|)
    ensures Prepend(ids, Scan(l, a, n, now, i)) == (l, ids)
  {
    assert ids + [] == ids;
  }

  class Memory {
    const capacity: nat
    var keys: map<KeyID, Entry>
    var order: seq<KeyID>
    var reservations: map<KeyID, Batch>

    function Contents(): Ledger
      reads this
    {
      Ledger(keys, order, reservations)
    }

    ghost predicate Valid()
      reads this
    {
      1 <= capacity <= 100000 && Indexed(Contents())
    }

    constructor (capacity: nat)
      requires 1 <= capacity <= 100000
      ensures Valid() && Contents() == NOTHING && this.capacity == capacity
    {
      this.capacity := capacity;
      keys, order, reservations := map[], [], map[];
    }

    static method Open(capacity: int) returns (r: Result<Memory>)
      ensures r.Ok? <==> 1 <= capacity <= 100000
      ensures r.Ok? ==>
        fresh(r.value) && r.value.Valid() && r.value.Contents() == NOTHING && r.value.capacity == capacity
      ensures r.Err? ==> r.error == Error.Invalid
    {
      if capacity < 1 || capacity > 100000 {
        return Err(Error.Invalid);
      }
      var m := new Memory(capacity);
      return Ok(m);
    }

    method StoreKey(k: Key, now: Time) returns (r: Result<()>)
      requires Valid()
      modifies this
      ensures Valid()
      ensures (Contents(), Done(r)) == Step(capacity, old(Contents()), Store(k, now))
    {
      StepIndexed(capacity, Contents(), Store(k, now));
      if !k.Valid(now) {
        return Err(Error.Invalid);
      }
      if k.id in keys {
        return Err(Duplicate);
      }
      if |keys| >= capacity {
        return Err(Capacity);
      }
      keys := keys[k.id := Entry(k.pair, k.source, k.created, k.expires, KeyState.Available, KeyState.Reserved,
        k.material, k.material)];
      order := order + [k.id];
      return Ok(());
    }

    /** Ends the sides of one entry that are still open once its time is up. */
    method Expire(id: KeyID, now: Time)
      requires Valid() && id in keys
      modifies this`keys
      ensures Valid() && Contents() == Touch(old(Contents()), id, now)
    {
      var e := keys[id];
      if now < e.expires {
        assert keys[id := e] == keys;
        return;
      }
      if !e.master.Terminal() {
        e := e.(master := KeyState.Expired, masterBytes := []);
      }
      if !e.slave.Terminal() {
        e := e.(slave := KeyState.Expired, slaveBytes := []);
      }
      keys := keys[id := e];
    }

    method NewToken(draw: nat -> KeyID) returns (token: KeyID)
      requires Injective(draw)
      ensures token == FirstFree(reservations.Keys, draw, 0)
    {
      var i := 0;
      token := draw(0);
      while token in reservations
        invariant token == draw(i)
        invariant FirstFree(reservations.Keys, draw, i) == FirstFree(reservations.Keys, draw, 0)
        decreases reservations.Keys - Drawn(draw, i)
      {
        DrawnGrows(reservations.Keys, draw, i);
        i := i + 1;
        token := draw(i);
      }
    }

    method ReserveKeys(a: Association, count: int, now: Time, draw: nat -> KeyID) returns (r: Result<Reservation>)
      requires Valid() && Injective(draw)
      modifies this
      ensures Valid()
      ensures (Contents(), Booked(r)) == Step(capacity, old(Contents()), Call.ReserveKeys(a, count, now, draw))
    {
      StepIndexed(capacity, Contents(), Call.ReserveKeys(a, count, now, draw));
      if !a.Valid() || count < 1 || count > MAX_BATCH {
        return Err(Error.Invalid);
      }
      var ids := FindOffered(a, count, now);
      if |ids| != count {
        return Err(Unavailable);
      }
      var token := NewToken(draw);
      MarkReserved(ids);
      reservations := reservations[token := Batch(a, ids)];
      return Ok(Reservation(token, ids));
    }

    /** Scans in insertion order until enough keys on offer are found. */
    method FindOffered(a: Association, count: nat, now: Time) returns (ids: seq<KeyID>)
      requires Valid()
      modifies this`keys
      ensures Valid() && (Contents(), ids) == Scan(old(Contents()), a, count, now, 0)
      ensures forall i :: 0 <= i < |ids| ==> ids[i] in keys
      ensures Distinct(ids) && |ids| <= count
    {
      hide Indexed, Scan, Touch, Prepend;
      ScanFinds(Contents(), a, count, now);
      ids := [];
      var i := 0;
      while i < |order| && |ids| < count
        invariant Valid() && i <= |order| && |ids| <= count
        invariant Prepend(ids, Scan(Contents(), a, count - |ids|, now, i)) == Scan(old(Contents()), a, count, now, 0)
      {
        ScanNext(Contents(), a, count - |ids|, now, i, ids);
        var id := order[i];
        Expire(id, now);
        if keys[id].pair == a && keys[id].master == KeyState.Available {
          ids := ids + [id];
        }
        i := i + 1;
      }
      ScanOver(Contents(), a, count - |ids|, now, i, ids);
    }

    method MarkReserved(ids: seq<KeyID>)
      requires Distinct(ids) && forall i :: 0 <= i < |ids| ==> ids[i] in keys
      modifies this`keys
      ensures keys == map id | id in old(keys) :: if id in ids then old(keys)[id].(master := KeyState.Reserved)
        else old(keys)[id]
    {
      ghost var change := (e: Entry) => e.(master := KeyState.Reserved);
      EditedAll(keys, ids, change);
      for i := 0 to |ids|
        invariant keys == Edited(old(keys), ids, i, change)
      {
        EditedNext(old(keys), ids, i, change);
        keys := keys[ids[i] := keys[ids[i]].(master := KeyState.Reserved)];
      }
    }

    method ConsumeReservation(a: Association, token: KeyID, now: Time) returns (r: Result<seq<Delivery>>)
      requires Valid()
      modifies this
      ensures Valid()
      ensures (Contents(), Delivered(r)) == Step(capacity, old(Contents()), Call.ConsumeReservation(a, token, now))
    {
      StepIndexed(capacity, Contents(), Call.ConsumeReservation(a, token, now));
      if token !in reservations {
        return Err(Unavailable);
      }
      var b := reservations[token];
      if b.pair != a {
        return Err(Unauthorized);
      }
      HoldKeeps(Contents(), b.ids, now, 0);
      var i := 0;
      while i < |b.ids|
        invariant i <= |b.ids| && Valid() && Known(Contents(), b.ids)
        invariant order == old(order) && reservations == old(reservations)
        invariant Hold(Contents(), b.ids, now, i) == Hold(old(Contents()), b.ids, now, 0)
      {
        Expire(b.ids[i], now);
        if keys[b.ids[i]].master != KeyState.Reserved {
          return Err(Unavailable);
        }
        i := i + 1;
      }
      var out := HandMaster(b.ids);
      reservations := reservations - {token};
      return Ok(out);
    }

    /** Copies out the master's bytes, clears them and opens the slave's copy, key by key. */
    method HandMaster(ids: seq<KeyID>) returns (out: seq<Delivery>)
      requires Known(Contents(), ids)
      modifies this`keys
      ensures out == MasterBytes(old(Contents()), ids)
      ensures keys == map id | id in old(keys) :: if id in ids then MasterSpent(old(keys)[id]) else old(keys)[id]
    {
      out := [];
      EditedAll(keys, ids, MasterSpent);
      for i := 0 to |ids|
        invariant keys == Edited(old(keys), ids, i, MasterSpent)
        invariant |out| == i && forall k :: 0 <= k < i ==> out[k] == Delivery(ids[k], old(keys)[ids[k]].masterBytes)
      {
        EditedNext(old(keys), ids, i, MasterSpent);
        var e := keys[ids[i]];
        out := out + [Delivery(ids[i], e.masterBytes)];
        keys := keys[ids[i] := e.(masterBytes := [], master := KeyState.Consumed, slave := KeyState.Available)];
      }
    }

    method ConsumePeerKeys(a: Association, ids: seq<KeyID>, now: Time) returns (r: Result<seq<Delivery>>)
      requires Valid()
      modifies this
      ensures Valid()
      ensures (Contents(), Delivered(r)) == Step(capacity, old(Contents()), Call.ConsumePeerKeys(a, ids, now))
    {
      StepIndexed(capacity, Contents(), Call.ConsumePeerKeys(a, ids, now));
      if !a.Valid() || |ids| < 1 || |ids| > MAX_BATCH {
        return Err(Error.Invalid);
      }
      var proper := ProperIDs(ids);
      if !proper {
        return Err(Error.Invalid);
      }
      PeerCheckKeeps(Contents(), a, ids, now, 0);
      var i := 0;
      while i < |ids|
        invariant i <= |ids| && Valid()
        invariant order == old(order) && reservations == old(reservations)
        invariant PeerCheck(Contents(), a, ids, now, i) == PeerCheck(old(Contents()), a, ids, now, 0)
      {
        if ids[i] !in keys {
          return Err(Unavailable);
        }
        if keys[ids[i]].pair != a {
          return Err(Unauthorized);
        }
        Expire(ids[i], now);
        if keys[ids[i]].slave != KeyState.Available {
          return Err(Unavailable);
        }
        i := i + 1;
      }
      var out := HandSlave(ids);
      return Ok(out);
    }

    /** All identifiers are well formed and none repeats. */
    method ProperIDs(ids: seq<KeyID>) returns (ok: bool)
      ensures ok <==> Distinct(ids) && forall i :: 0 <= i < |ids| ==> ValidID(ids[i])
    {
      var seen := {};
      for i := 0 to |ids|
        invariant seen == set k | 0 <= k < i :: ids[k]
        invariant forall k :: 0 <= k < i ==> ValidID(ids[k])
        invariant forall j, k :: 0 <= j < k < i ==> ids[j] != ids[k]
      {
        if !ValidID(ids[i]) || ids[i] in seen {
          return false;
        }
        seen := seen + {ids[i]};
      }
      return true;
    }

    method HandSlave(ids: seq<KeyID>) returns (out: seq<Delivery>)
      requires Known(Contents(), ids)
      modifies this`keys
      ensures out == SlaveBytes(old(Contents()), ids)
      ensures keys == map id | id in old(keys) :: if id in ids then SlaveSpent(old(keys)[id]) else old(keys)[id]
    {
      out := [];
      EditedAll(keys, ids, SlaveSpent);
      for i := 0 to |ids|
        invariant keys == Edited(old(keys), ids, i, SlaveSpent)
        invariant |out| == i && forall k :: 0 <= k < i ==> out[k] == Delivery(ids[k], old(keys)[ids[k]].slaveBytes)
      {
        EditedNext(old(keys), ids, i, SlaveSpent);
        var e := keys[ids[i]];
        out := out + [Delivery(ids[i], e.slaveBytes)];
        keys := keys[ids[i] := e.(slaveBytes := [], slave := KeyState.Consumed)];
      }
    }

    method InvalidateKey(id: KeyID, now: Time) returns (r: Result<()>)
      requires Valid()
      modifies this
      ensures Valid()
      ensures (Contents(), Done(r)) == Step(capacity, old(Contents()), Call.InvalidateKey(id, now))
    {
      if id !in keys {
        return Err(Unavailable);
      }
      Expire(id, now);
      var e := keys[id];
      if !e.master.Terminal() {
        e := e.(master := KeyState.Invalid, masterBytes := []);
      }
      if !e.slave.Terminal() {
        e := e.(slave := KeyState.Invalid, slaveBytes := []);
      }
      keys := keys[id := e];
      assert keys == old(keys)[id := End(Aged(old(keys)[id], now), KeyState.Invalid)];
      return Ok(());
    }

    method Metadata(id: KeyID, now: Time) returns (r: Result<Meta>)
      requires Valid()
      modifies this
      ensures Valid()
      ensures (Contents(), Described(r)) == Step(capacity, old(Contents()), ReadMetadata(id, now))
    {
      if id !in keys {
        return Err(Unavailable);
      }
      Expire(id, now);
      return Ok(MetaOf(keys[id]));
    }

    /** Expires and counts over the map, in no particular order. */
    method Inventory(a: Association, now: Time) returns (available: nat)
      requires Valid()
      modifies this
      ensures Valid()
      ensures (Contents(), Counted(available)) == Step(capacity, old(Contents()), ReadInventory(a, now))
    {
      hide Indexed, Aged, End, Sweep, OnOffer, HalfSwept;
      HalfSweptEnds(Contents(), now);
      available := 0;
      var rest := keys.Keys;
      ghost var swept := Sweep(Contents(), now);
      while rest != {}
        invariant Valid() && rest <= keys.Keys && keys.Keys == old(keys.Keys)
        invariant order == old(order) && reservations == old(reservations)
        invariant HalfSwept(old(Contents()), keys, rest, now)
        invariant available == |OnOffer(swept, a) - rest|
        decreases |rest|
      {
        var id :| id in rest;
        SweepNext(old(Contents()), keys, rest, now, id, a);
        Expire(id, now);
        if keys[id].pair == a && keys[id].master == KeyState.Available {
          available := available + 1;
        }
        rest := rest - {id};
      }
      assert OnOffer(swept, a) - rest == OnOffer(swept, a);
      HalfSweptAll(old(Contents()), keys, now);
    }
  }
}
