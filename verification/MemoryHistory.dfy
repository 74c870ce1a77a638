/** The memory repository over whole call sequences, under any clock: which states occur, what the
    reservations hold, and what each recipient was ever handed. */
module MemoryHistory {
  import opened Core
  import opened Lifecycle
  import opened Tokens
  import opened MemoryLedger
  import opened MemoryReference

  datatype Side = MasterSide | SlaveSide

  /** Bytes handed to one of a key's two recipients. */
  datatype Release = Release(side: Side, id: KeyID, bytes: Bytes)

  /** A ledger with what was ever stored in it and handed out by it. */
  datatype Trace = Trace(l: Ledger, stored: map<KeyID, Key>, log: seq<Release>)

  function Handed(side: Side, ds: seq<Delivery>): (r: seq<Release>)
    ensures |r| == |ds| && forall i :: 0 <= i < |ds| ==> r[i] == Release(side, ds[i].id, ds[i].material)
  {
    seq(|ds|, i requires 0 <= i < |ds| => Release(side, ds[i].id, ds[i].material))
  }

  function Logged(log: seq<Release>, side: Side, r: Reply): seq<Release> {
    if r.Delivered? && r.delivered.Ok? then log + Handed(side, r.delivered.value) else log
  }

  function After(capacity: nat, t: Trace, call: Call): Trace
    requires Indexed(t.l) && call.Fresh()
  {
    var (l1, r) := Step(capacity, t.l, call);
    Trace(l1,
          if call.Store? && r == Done(Ok(())) then t.stored[call.key.id := call.key] else t.stored,
          Logged(t.log, if call.ConsumeReservation? then MasterSide else SlaveSide, r))
  }

  /** The repository after a sequence of calls. */
  function History(capacity: nat, calls: seq<Call>): (t: Trace)
    requires forall i :: 0 <= i < |calls| ==> calls[i].Fresh()
    ensures Indexed(t.l)
  {
    if calls == [] then Trace(NOTHING, map[], [])
    else
      var t := History(capacity, calls[..|calls| - 1]);
      var call := calls[|calls| - 1];
      StepIndexed(capacity, t.l, call);
      After(capacity, t, call)
  }

  // What holds in every reachable state.

  /** The eight combinations of states that occur. */
  predicate StatePair(m: KeyState, s: KeyState) {
    || (m.Available? && s.Reserved?) || (m.Reserved? && s.Reserved?)
    || (m.Consumed? && (s.Available? || s.Consumed? || s.Expired? || s.Invalid?))
    || (m.Expired? && s.Expired?) || (m.Invalid? && s.Invalid?)
  }

  /** The entry is of the stored key: for its pair, from its source, with its times; and each side holds the stored
      bytes exactly while it is not over. */
  predicate EntryGood(e: Entry, k: Key) {
    && e.pair == k.pair && e.source == k.source && e.created == k.created && e.expires == k.expires
    && StatePair(e.master, e.slave) && |k.material| == KEY_BYTES
    && e.masterBytes == (if e.master.Terminal() then [] else k.material)
    && e.slaveBytes == (if e.slave.Terminal() then [] else k.material)
  }

  predicate EntriesGood(l: Ledger, stored: map<KeyID, Key>) {
    stored.Keys == l.keys.Keys && forall id :: id in l.keys ==> EntryGood(l.keys[id], stored[id])
  }

  predicate Bookable(m: KeyState) { m.Reserved? || m.Expired? || m.Invalid? }

  /** A live reservation: a non-empty batch of one pair, nothing of it on offer or delivered. */
  predicate BatchGood(l: Ledger, b: Batch) {
    && b.ids != []
    && forall i :: 0 <= i < |b.ids| ==>
      b.ids[i] in l.keys && l.keys[b.ids[i]].pair == b.pair && Bookable(l.keys[b.ids[i]].master)
  }

  predicate HeldBy(l: Ledger, id: KeyID, token: KeyID) { token in l.reservations && id in l.reservations[token].ids }

  ghost predicate BatchesGood(l: Ledger) {
    && (forall token :: token in l.reservations ==> BatchGood(l, l.reservations[token]))
    && (forall id, token, other :: HeldBy(l, id, token) && HeldBy(l, id, other) ==> token == other)
    && (forall id :: id in l.keys && l.keys[id].master == KeyState.Reserved ==> exists token :: HeldBy(l, id, token))
  }

  predicate Over(e: Entry, side: Side) {
    if side == MasterSide then e.master == KeyState.Consumed else e.slave == KeyState.Consumed
  }

  /** Only stored bytes of consumed copies were handed out. */
  predicate ReleaseGood(t: Trace, i: nat)
    requires i < |t.log|
  {
    var r := t.log[i];
    r.id in t.l.keys && r.id in t.stored && r.bytes == t.stored[r.id].material && Over(t.l.keys[r.id], r.side)
  }

  predicate Was(log: seq<Release>, n: nat, side: Side, id: KeyID) {
    exists i :: 0 <= i < n <= |log| && log[i].side == side && log[i].id == id
  }

  predicate LogGood(t: Trace) {
    && (forall i :: 0 <= i < |t.log| ==> ReleaseGood(t, i))
    && (forall i, j :: 0 <= i < j < |t.log| ==> t.log[i].side != t.log[j].side || t.log[i].id != t.log[j].id)
    && (forall i :: 0 <= i < |t.log| && t.log[i].side == SlaveSide ==> Was(t.log, i, MasterSide, t.log[i].id))
    && (forall id, side :: id in t.l.keys && Over(t.l.keys[id], side) ==> Was(t.log, |t.log|, side, id))
  }

  ghost predicate TraceGood(t: Trace) {
    Indexed(t.l) && EntriesGood(t.l, t.stored) && BatchesGood(t.l) && LogGood(t)
  }

  // Ageing.

  predicate Decays(e: Entry, e': Entry) { e' == e || e' == End(e, KeyState.Expired) || e' == End(e, KeyState.Invalid) }

  /** Only entries that ended changed. */
  predicate Quiet(l: Ledger, l': Ledger) {
    && l'.keys.Keys == l.keys.Keys && l'.order == l.order && l'.reservations == l.reservations
    && forall id :: id in l.keys ==> Decays(l.keys[id], l'.keys[id])
  }

  lemma QuietTrans(l: Ledger, l1: Ledger, l2: Ledger)
    requires Quiet(l, l1) && Quiet(l1, l2)
    ensures Quiet(l, l2)
  {
    forall id | id in l.keys ensures Decays(l.keys[id], l2.keys[id]) {
      assert Decays(l.keys[id], l1.keys[id]) && Decays(l1.keys[id], l2.keys[id]);
    }
  }

  lemma TouchQuiet(l: Ledger, id: KeyID, now: Time)
    requires id in l.keys
    ensures Quiet(l, Touch(l, id, now))
  {
  }

  /** Entries may change to others that suit the same stored key. */
  lemma EntriesChanged(t: Trace, l': Ledger)
    requires EntriesGood(t.l, t.stored) && l'.keys.Keys == t.l.keys.Keys
    requires forall id :: id in t.l.keys ==>
      (EntryGood(t.l.keys[id], t.stored[id]) ==> EntryGood(l'.keys[id], t.stored[id]))
    ensures EntriesGood(l', t.stored)
  {
    hide EntryGood;
  }

  lemma QuietEntries(t: Trace, l': Ledger)
    requires EntriesGood(t.l, t.stored) && Quiet(t.l, l')
    ensures EntriesGood(l', t.stored)
  {
    forall id | id in t.l.keys && EntryGood(t.l.keys[id], t.stored[id]) ensures EntryGood(l'.keys[id], t.stored[id]) {
      DecaysGood(t.l.keys[id], l'.keys[id], t.stored[id]);
    }
    EntriesChanged(t, l');
  }

  lemma DecaysGood(e: Entry, e': Entry, k: Key)
    requires EntryGood(e, k) && Decays(e, e')
    ensures EntryGood(e', k)
  {
  }

  lemma QuietIndexed(l: Ledger, l': Ledger)
    requires Indexed(l) && Quiet(l, l')
    ensures Indexed(l')
  {
  }

  lemma QuietGood(t: Trace, l': Ledger)
    requires TraceGood(t) && Quiet(t.l, l')
    ensures TraceGood(t.(l := l'))
  {
    hide Indexed, EntriesGood, BatchesGood, LogGood, Quiet;
    QuietIndexed(t.l, l');
    QuietEntries(t, l');
    QuietBatches(t.l, l');
    QuietLog(t, l');
  }

  lemma QuietBatches(l: Ledger, l': Ledger)
    requires BatchesGood(l) && Quiet(l, l')
    ensures BatchesGood(l')
  {
    forall token | token in l'.reservations ensures BatchGood(l', l'.reservations[token]) {
      assert BatchGood(l, l.reservations[token]);
    }
    forall id | id in l'.keys && l'.keys[id].master == KeyState.Reserved ensures exists token :: HeldBy(l', id, token) {
      assert l.keys[id].master == KeyState.Reserved;
      var token :| HeldBy(l, id, token);
      assert HeldBy(l', id, token);
    }
    forall id, token, other | HeldBy(l', id, token) && HeldBy(l', id, other) ensures token == other {
      assert HeldBy(l, id, token) && HeldBy(l, id, other);
    }
  }

  lemma QuietLog(t: Trace, l': Ledger)
    requires LogGood(t) && Quiet(t.l, l')
    ensures LogGood(t.(l := l'))
  {
    forall i | 0 <= i < |t.log| ensures ReleaseGood(t.(l := l'), i) { assert ReleaseGood(t, i); }
    forall id, side | id in l'.keys && Over(l'.keys[id], side) ensures Was(t.log, |t.log|, side, id) {
      assert Over(t.l.keys[id], side);
    }
  }

  // What the scans do.

  lemma {:induction false} ScanQuiet(l: Ledger, a: Association, n: nat, now: Time, i: nat)
    requires Indexed(l) && i <= |l.order|
    ensures var (l1, ids) := Scan(l, a, n, now, i);
      Quiet(l, l1) && forall k :: 0 <= k < |ids| ==> Offered(l1, a, ids[k])
    decreases |l.order| - i
  {
    hide Decays, Aged, End, Quiet;
    QuietRefl(l);
    if n > 0 && i < |l.order| {
      var l1 := Touch(l, l.order[i], now);
      TouchQuiet(l, l.order[i], now);
      var m := if Offered(l1, a, l.order[i]) then n - 1 else n;
      ScanQuiet(l1, a, m, now, i + 1);
      ScanLeaves(l1, a, m, now, i + 1, i);
      QuietTrans(l, l1, Scan(l1, a, m, now, i + 1).0);
    }
  }

  lemma QuietRefl(l: Ledger)
    ensures Quiet(l, l)
  {
  }

  lemma {:induction false} HoldQuiet(l: Ledger, ids: seq<KeyID>, now: Time, i: nat)
    requires Known(l, ids) && i <= |ids|
    ensures var (l1, held) := Hold(l, ids, now, i);
      Quiet(l, l1) && (held ==> forall k :: i <= k < |ids| ==> l1.keys[ids[k]].master == KeyState.Reserved)
    decreases |ids| - i
  {
    hide Decays, Aged, End;
    QuietRefl(l);
    if i < |ids| {
      var l1 := Touch(l, ids[i], now);
      TouchQuiet(l, ids[i], now);
      HoldQuiet(l1, ids, now, i + 1);
      HoldLeaves(l1, ids, now, i + 1, i);
      QuietTrans(l, l1, Hold(l1, ids, now, i + 1).0);
    }
  }

  lemma {:induction false} PeerQuiet(l: Ledger, a: Association, ids: seq<KeyID>, now: Time, i: nat)
    requires Distinct(ids) && i <= |ids|
    ensures var (l1, r) := PeerCheck(l, a, ids, now, i);
      Quiet(l, l1) && (r.Ok? ==> forall k :: i <= k < |ids| ==>
        ids[k] in l1.keys && l1.keys[ids[k]].slave == KeyState.Available)
    decreases |ids| - i
  {
    hide Decays, Aged, End;
    QuietRefl(l);
    if i < |ids| && ids[i] in l.keys {
      var l1 := Touch(l, ids[i], now);
      TouchQuiet(l, ids[i], now);
      PeerQuiet(l1, a, ids, now, i + 1);
      PeerCheckLeaves(l1, a, ids, now, i + 1, i);
      QuietTrans(l, l1, PeerCheck(l1, a, ids, now, i + 1).0);
    }
  }

  // Storing.

  lemma StoreGood(capacity: nat, t: Trace, k: Key, now: Time)
    requires TraceGood(t) && StoreKey(capacity, t.l, k, now).Ok?
    ensures TraceGood(Trace(StoreKey(capacity, t.l, k, now).value, t.stored[k.id := k], t.log))
  {
    hide Indexed, EntriesGood, BatchesGood, LogGood;
    StoreIndexed(capacity, t.l, k, now);
    StoreEntries(capacity, t, k, now);
    StoreBatches(t.l, StoreKey(capacity, t.l, k, now).value, k);
    StoreLog(t, k);
  }

  lemma StoreEntries(capacity: nat, t: Trace, k: Key, now: Time)
    requires EntriesGood(t.l, t.stored) && StoreKey(capacity, t.l, k, now).Ok?
    ensures EntriesGood(StoreKey(capacity, t.l, k, now).value, t.stored[k.id := k])
  {
    assert EntryGood(NewEntry(k), k);
    hide EntryGood;
  }

  lemma StoreLog(t: Trace, k: Key)
    requires LogGood(t) && k.id !in t.l.keys
    ensures LogGood(Trace(t.l.(keys := t.l.keys[k.id := NewEntry(k)], order := t.l.order + [k.id]),
      t.stored[k.id := k], t.log))
  {
    var t' := Trace(t.l.(keys := t.l.keys[k.id := NewEntry(k)], order := t.l.order + [k.id]),
      t.stored[k.id := k], t.log);
    forall i | 0 <= i < |t.log| ensures ReleaseGood(t', i) { assert ReleaseGood(t, i); }
    forall id, side | id in t'.l.keys && Over(t'.l.keys[id], side) ensures Was(t.log, |t.log|, side, id) {
      assert Over(t.l.keys[id], side);
    }
  }

  lemma StoreBatches(l: Ledger, l': Ledger, k: Key)
    requires BatchesGood(l) && k.id !in l.keys && l' ==
      l.(keys := l.keys[k.id := NewEntry(k)], order := l.order + [k.id])
    ensures BatchesGood(l')
  {
    forall token | token in l'.reservations ensures BatchGood(l', l'.reservations[token]) {
      assert BatchGood(l, l.reservations[token]);
    }
    forall id | id in l'.keys && l'.keys[id].master == KeyState.Reserved ensures exists token :: HeldBy(l', id, token) {
      var token :| HeldBy(l, id, token);
      assert HeldBy(l', id, token);
    }
    forall id, token, other | HeldBy(l', id, token) && HeldBy(l', id, other) ensures token == other {
      assert HeldBy(l, id, token) && HeldBy(l, id, other);
    }
  }

  // Reserving.

  lemma MarkedBatches(l: Ledger, a: Association, ids: seq<KeyID>, token: KeyID)
    requires Indexed(l) && BatchesGood(l) && token !in l.reservations && ids != []
    requires forall k :: 0 <= k < |ids| ==> Offered(l, a, ids[k])
    ensures BatchesGood(Marked(l, a, ids, token))
  {
    var l' := Marked(l, a, ids, token);
    forall u | u in l'.reservations ensures BatchGood(l', l'.reservations[u]) {
      if u != token { assert BatchGood(l, l.reservations[u]); }
    }
    forall id, u, v | HeldBy(l', id, u) && HeldBy(l', id, v) ensures u == v {
      OfferedUnheld(l, a, ids, id, u);
      OfferedUnheld(l, a, ids, id, v);
      if u != token && v != token { assert HeldBy(l, id, u) && HeldBy(l, id, v); }
    }
    forall id | id in l'.keys && l'.keys[id].master == KeyState.Reserved ensures exists u :: HeldBy(l', id, u) {
      if id in ids { assert HeldBy(l', id, token); }
      else {
        var u :| HeldBy(l, id, u);
        assert HeldBy(l', id, u);
      }
    }
  }

  lemma OfferedUnheld(l: Ledger, a: Association, ids: seq<KeyID>, id: KeyID, token: KeyID)
    requires BatchesGood(l) && forall k :: 0 <= k < |ids| ==> Offered(l, a, ids[k])
    ensures id in ids ==> !HeldBy(l, id, token)
  {
    if HeldBy(l, id, token) { assert BatchGood(l, l.reservations[token]); }
  }

  lemma MarkedEntries(t: Trace, a: Association, ids: seq<KeyID>, token: KeyID)
    requires EntriesGood(t.l, t.stored) && forall k :: 0 <= k < |ids| ==> Offered(t.l, a, ids[k])
    ensures EntriesGood(Marked(t.l, a, ids, token), t.stored)
  {
    EntriesChanged(t, Marked(t.l, a, ids, token));
  }

  lemma MarkedIndexed(l: Ledger, a: Association, ids: seq<KeyID>, token: KeyID)
    requires Indexed(l) && Known(l, ids)
    ensures Indexed(Marked(l, a, ids, token))
  {
    var l' := Marked(l, a, ids, token);
    forall u | u in l'.reservations ensures Known(l', l'.reservations[u].ids) {
      if u != token { assert Known(l, l.reservations[u].ids); }
    }
  }

  lemma MarkedGood(t: Trace, a: Association, ids: seq<KeyID>, token: KeyID)
    requires TraceGood(t) && token !in t.l.reservations && ids != [] && Distinct(ids)
    requires forall k :: 0 <= k < |ids| ==> Offered(t.l, a, ids[k])
    ensures TraceGood(t.(l := Marked(t.l, a, ids, token)))
  {
    hide Indexed, EntriesGood, BatchesGood, LogGood, Marked;
    MarkedIndexed(t.l, a, ids, token);
    MarkedEntries(t, a, ids, token);
    MarkedBatches(t.l, a, ids, token);
    MarkedLog(t, a, ids, token);
  }

  lemma MarkedLog(t: Trace, a: Association, ids: seq<KeyID>, token: KeyID)
    requires LogGood(t) && forall k :: 0 <= k < |ids| ==> Offered(t.l, a, ids[k])
    ensures LogGood(t.(l := Marked(t.l, a, ids, token)))
  {
    var t' := t.(l := Marked(t.l, a, ids, token));
    forall i | 0 <= i < |t.log| ensures ReleaseGood(t', i) { assert ReleaseGood(t, i); }
    forall id, side | id in t'.l.keys && Over(t'.l.keys[id], side) ensures Was(t.log, |t.log|, side, id) {
      assert Over(t.l.keys[id], side);
    }
  }

  lemma ReserveGood(capacity: nat, t: Trace, a: Association, n: int, now: Time, draw: nat -> KeyID)
    requires TraceGood(t) && Injective(draw)
    ensures TraceGood(t.(l := Reserve(t.l, a, n, now, draw).0))
  {
    hide TraceGood, Marked, Scan, Quiet;
    assert Indexed(t.l) by { IsIndexed(t); }
    if a.Valid() && 1 <= n <= MAX_BATCH {
      var (l1, ids) := Scan(t.l, a, n, now, 0);
      ScanQuiet(t.l, a, n, now, 0);
      ScanKeeps(t.l, a, n, now, 0);
      QuietGood(t, l1);
      if |ids| == n { MarkedGood(t.(l := l1), a, ids, FirstFree(l1.reservations.Keys, draw, 0)); }
    }
  }

  lemma IsIndexed(t: Trace)
    requires TraceGood(t)
    ensures Indexed(t.l)
  {
  }

  // Delivering.

  lemma LogGrows(log: seq<Release>, more: seq<Release>, n: nat, side: Side, id: KeyID)
    requires Was(log, n, side, id)
    ensures Was(log + more, n, side, id) && forall m :: n <= m <= |log + more| ==> Was(log + more, m, side, id)
  {
    var i :| 0 <= i < n <= |log| && log[i].side == side && log[i].id == id;
    assert (log + more)[i] == log[i];
  }

  /** Copies on one side that may be handed out: none was before, and a slave's only after the master's. */
  predicate Handable(t: Trace, side: Side, ids: seq<KeyID>) {
    && Known(t.l, ids)
    && forall k :: 0 <= k < |ids| ==>
      !Over(t.l.keys[ids[k]], side) && (side == SlaveSide ==> Over(t.l.keys[ids[k]], MasterSide))
  }

  /** The deliveries carry the stored bytes. */
  predicate Carried(t: Trace, ids: seq<KeyID>, ds: seq<Delivery>) {
    |ds| == |ids| && forall k :: 0 <= k < |ids| ==>
      ids[k] in t.stored && ds[k] == Delivery(ids[k], t.stored[ids[k]].material)
  }

  /** Afterwards exactly these copies are over in addition. */
  predicate OverAfter(l: Ledger, l': Ledger, side: Side, ids: seq<KeyID>) {
    && l'.keys.Keys == l.keys.Keys
    && forall id, s :: id in l.keys ==> (Over(l'.keys[id], s) <==> Over(l.keys[id], s) || (s == side && id in ids))
  }

  lemma HandedGood(t: Trace, l': Ledger, side: Side, ids: seq<KeyID>, ds: seq<Delivery>, i: nat)
    requires LogGood(t) && Handable(t, side, ids) && Carried(t, ids, ds) && OverAfter(t.l, l', side, ids)
      && i < |t.log| + |ds|
    ensures ReleaseGood(Trace(l', t.stored, t.log + Handed(side, ds)), i)
  {
    var log := t.log + Handed(side, ds);
    if i < |t.log| {
      assert log[i] == t.log[i] && ReleaseGood(t, i);
    } else {
      assert log[i] == Handed(side, ds)[i - |t.log|];
    }
  }

  lemma HandedOnce(t: Trace, side: Side, ids: seq<KeyID>, ds: seq<Delivery>, i: nat, j: nat)
    requires LogGood(t) && Handable(t, side, ids) && Carried(t, ids, ds) && i < j < |t.log| + |ds|
    ensures var log := t.log + Handed(side, ds); log[i].side != log[j].side || log[i].id != log[j].id
  {
    var log := t.log + Handed(side, ds);
    if i < |t.log| { assert log[i] == t.log[i] && ReleaseGood(t, i); }
    if j >= |t.log| { assert log[j] == Handed(side, ds)[j - |t.log|]; }
  }

  lemma HandedAfterMaster(t: Trace, side: Side, ids: seq<KeyID>, ds: seq<Delivery>, i: nat)
    requires LogGood(t) && Handable(t, side, ids) && Carried(t, ids, ds) && i < |t.log| + |ds|
    ensures var log := t.log + Handed(side, ds); log[i].side == SlaveSide ==> Was(log, i, MasterSide, log[i].id)
  {
    var log, b := t.log + Handed(side, ds), |t.log|;
    if log[i].side == SlaveSide {
      if i < b { LogGrows(t.log, Handed(side, ds), i, MasterSide, t.log[i].id); }
      else {
        assert log[i] == Handed(side, ds)[i - b];
        LogGrows(t.log, Handed(side, ds), b, MasterSide, log[i].id);
      }
    }
  }

  lemma HandedCovers(t: Trace, l': Ledger, side: Side, ids: seq<KeyID>, ds: seq<Delivery>, id: KeyID, s: Side)
    requires LogGood(t) && Carried(t, ids, ds) && OverAfter(t.l, l', side, ids) && id in l'.keys && Over(l'.keys[id], s)
    ensures var log := t.log + Handed(side, ds); Was(log, |log|, s, id)
  {
    var log := t.log + Handed(side, ds);
    if Over(t.l.keys[id], s) { LogGrows(t.log, Handed(side, ds), |t.log|, s, id); }
    else {
      var k :| 0 <= k < |ids| && ids[k] == id;
      assert log[|t.log| + k] == Handed(side, ds)[k];
    }
  }

  /** Handing out the stored bytes of copies on one side that were not handed out before, once each. */
  lemma HandedLog(t: Trace, l': Ledger, side: Side, ids: seq<KeyID>, ds: seq<Delivery>)
    requires LogGood(t) && Handable(t, side, ids) && Carried(t, ids, ds) && OverAfter(t.l, l', side, ids)
    ensures LogGood(Trace(l', t.stored, t.log + Handed(side, ds)))
  {
    var t' := Trace(l', t.stored, t.log + Handed(side, ds));
    forall i | 0 <= i < |t'.log| ensures ReleaseGood(t', i) { HandedGood(t, l', side, ids, ds, i); }
    forall i, j | 0 <= i < j < |t'.log| ensures t'.log[i].side != t'.log[j].side || t'.log[i].id != t'.log[j].id {
      HandedOnce(t, side, ids, ds, i, j);
    }
    forall i | 0 <= i < |t'.log| && t'.log[i].side == SlaveSide ensures Was(t'.log, i, MasterSide, t'.log[i].id) {
      HandedAfterMaster(t, side, ids, ds, i);
    }
    forall id, s | id in l'.keys && Over(l'.keys[id], s) ensures Was(t'.log, |t'.log|, s, id) {
      HandedCovers(t, l', side, ids, ds, id, s);
    }
    hide LogGood, Handable, Carried, OverAfter, Was, ReleaseGood;
  }

  lemma SpentBatches(l: Ledger, token: KeyID)
    requires Indexed(l) && BatchesGood(l) && token in l.reservations
    ensures BatchesGood(MasterDelivered(l, token, l.reservations[token].ids))
  {
    var ids := l.reservations[token].ids;
    var l' := MasterDelivered(l, token, ids);
    forall u | u in l'.reservations ensures BatchGood(l', l'.reservations[u]) {
      var b := l.reservations[u];
      assert BatchGood(l, b);
      forall i | 0 <= i < |b.ids| ensures b.ids[i] !in ids {
        assert HeldBy(l, b.ids[i], u);
        if b.ids[i] in ids { assert HeldBy(l, b.ids[i], token); }
      }
    }
    forall id | id in l'.keys && l'.keys[id].master == KeyState.Reserved ensures exists u :: HeldBy(l', id, u) {
      var u :| HeldBy(l, id, u);
      assert HeldBy(l', id, u);
    }
    forall id, u, v | HeldBy(l', id, u) && HeldBy(l', id, v) ensures u == v {
      assert HeldBy(l, id, u) && HeldBy(l, id, v);
    }
  }

  lemma MasterEntries(t: Trace, token: KeyID, ids: seq<KeyID>)
    requires EntriesGood(t.l, t.stored) && Known(t.l, ids) && forall i :: 0 <= i < |ids| ==>
      t.l.keys[ids[i]].master == KeyState.Reserved
    ensures EntriesGood(MasterDelivered(t.l, token, ids), t.stored)
  {
    EntriesChanged(t, MasterDelivered(t.l, token, ids));
  }

  /** An open copy holds the stored bytes. */
  lemma StoredBytes(t: Trace, ids: seq<KeyID>)
    requires EntriesGood(t.l, t.stored) && Known(t.l, ids)
    ensures forall i :: 0 <= i < |ids| ==>
      && (!t.l.keys[ids[i]].master.Terminal() ==> t.l.keys[ids[i]].masterBytes == t.stored[ids[i]].material)
      && (!t.l.keys[ids[i]].slave.Terminal() ==> t.l.keys[ids[i]].slaveBytes == t.stored[ids[i]].material)
      && (t.l.keys[ids[i]].slave == KeyState.Available ==> Over(t.l.keys[ids[i]], MasterSide))
      && (t.l.keys[ids[i]].master == KeyState.Reserved ==> !Over(t.l.keys[ids[i]], SlaveSide))
  {
    forall i | 0 <= i < |ids| ensures EntryGood(t.l.keys[ids[i]], t.stored[ids[i]]) {}
  }

  lemma MasterLog(t: Trace, token: KeyID, ids: seq<KeyID>)
    requires LogGood(t) && EntriesGood(t.l, t.stored) && Known(t.l, ids) && forall i :: 0 <= i < |ids| ==>
      t.l.keys[ids[i]].master == KeyState.Reserved
    ensures LogGood(Trace(MasterDelivered(t.l, token, ids), t.stored, t.log
      + Handed(MasterSide, MasterBytes(t.l, ids))))
  {
    hide LogGood, EntriesGood;
    StoredBytes(t, ids);
    assert t.l.keys.Keys == t.stored.Keys by { StoredKeys(t); }
    HandedLog(t, MasterDelivered(t.l, token, ids), MasterSide, ids, MasterBytes(t.l, ids));
  }

  lemma StoredKeys(t: Trace)
    requires EntriesGood(t.l, t.stored)
    ensures t.l.keys.Keys == t.stored.Keys
  {
  }

  lemma MasterGood(t: Trace, token: KeyID)
    requires TraceGood(t) && token in t.l.reservations
    requires forall i :: 0 <= i < |t.l.reservations[token].ids| ==>
      t.l.reservations[token].ids[i] in t.l.keys && t.l.keys[t.l.reservations[token].ids[i]].master == KeyState.Reserved
    ensures Known(t.l, t.l.reservations[token].ids)
    ensures var ids := t.l.reservations[token].ids;
      TraceGood(Trace(MasterDelivered(t.l, token, ids), t.stored, t.log + Handed(MasterSide, MasterBytes(t.l, ids))))
  {
    var ids := t.l.reservations[token].ids;
    BatchKnown(t.l, token);
    hide Indexed, EntriesGood, BatchesGood, LogGood, MasterDelivered;
    SpentBatches(t.l, token);
    MasterEntries(t, token, ids);
    MasterLog(t, token, ids);
    SpentIndexed(t.l, token, ids);
  }

  lemma BatchKnown(l: Ledger, token: KeyID)
    requires Indexed(l) && token in l.reservations
    ensures Known(l, l.reservations[token].ids)
  {
  }

  lemma SpentIndexed(l: Ledger, token: KeyID, ids: seq<KeyID>)
    requires Indexed(l)
    ensures Indexed(MasterDelivered(l, token, ids)) && Indexed(SlaveDelivered(l, ids))
  {
  }

  lemma ConsumeGood(t: Trace, a: Association, token: KeyID, now: Time)
    requires TraceGood(t)
    ensures Indexed(t.l)
    ensures var (l1, r) := Consume(t.l, a, token, now);
      TraceGood(Trace(l1, t.stored, if r.Ok? then t.log + Handed(MasterSide, r.value) else t.log))
  {
    hide TraceGood, Quiet, MasterDelivered, Hold;
    IsIndexed(t);
    if token in t.l.reservations && t.l.reservations[token].pair == a {
      var ids := t.l.reservations[token].ids;
      var (l1, held) := Hold(t.l, ids, now, 0);
      HoldQuiet(t.l, ids, now, 0);
      HoldKeeps(t.l, ids, now, 0);
      QuietGood(t, l1);
      if held { MasterGood(t.(l := l1), token); }
    }
  }

  lemma SlaveEntries(t: Trace, ids: seq<KeyID>)
    requires EntriesGood(t.l, t.stored) && Known(t.l, ids) && forall i :: 0 <= i < |ids| ==>
      t.l.keys[ids[i]].slave == KeyState.Available
    ensures EntriesGood(SlaveDelivered(t.l, ids), t.stored)
  {
    EntriesChanged(t, SlaveDelivered(t.l, ids));
  }

  lemma SlaveLog(t: Trace, ids: seq<KeyID>)
    requires LogGood(t) && EntriesGood(t.l, t.stored) && Known(t.l, ids) && forall i :: 0 <= i < |ids| ==>
      t.l.keys[ids[i]].slave == KeyState.Available
    ensures LogGood(Trace(SlaveDelivered(t.l, ids), t.stored, t.log + Handed(SlaveSide, SlaveBytes(t.l, ids))))
  {
    hide LogGood, EntriesGood;
    StoredBytes(t, ids);
    StoredKeys(t);
    HandedLog(t, SlaveDelivered(t.l, ids), SlaveSide, ids, SlaveBytes(t.l, ids));
  }

  lemma SlaveGood(t: Trace, ids: seq<KeyID>)
    requires TraceGood(t) && Known(t.l, ids)
    requires forall i :: 0 <= i < |ids| ==> t.l.keys[ids[i]].slave == KeyState.Available
    ensures TraceGood(Trace(SlaveDelivered(t.l, ids), t.stored, t.log + Handed(SlaveSide, SlaveBytes(t.l, ids))))
  {
    hide Indexed, EntriesGood, BatchesGood, LogGood, SlaveDelivered;
    SlaveEntries(t, ids);
    SlaveBatches(t.l, ids);
    SlaveLog(t, ids);
    SpentIndexed(t.l, "", ids);
  }

  lemma SlaveBatches(l: Ledger, ids: seq<KeyID>)
    requires BatchesGood(l)
    ensures BatchesGood(SlaveDelivered(l, ids))
  {
    var l' := SlaveDelivered(l, ids);
    forall u | u in l'.reservations ensures BatchGood(l', l'.reservations[u]) {
      assert BatchGood(l, l.reservations[u]);
    }
    forall id | id in l'.keys && l'.keys[id].master == KeyState.Reserved ensures exists u :: HeldBy(l', id, u) {
      var u :| HeldBy(l, id, u);
      assert HeldBy(l', id, u);
    }
    forall id, u, v | HeldBy(l', id, u) && HeldBy(l', id, v) ensures u == v {
      assert HeldBy(l, id, u) && HeldBy(l, id, v);
    }
  }

  lemma PeerGood(t: Trace, a: Association, ids: seq<KeyID>, now: Time)
    requires TraceGood(t)
    ensures var (l1, r) := ConsumePeer(t.l, a, ids, now);
      TraceGood(Trace(l1, t.stored, if r.Ok? then t.log + Handed(SlaveSide, r.value) else t.log))
  {
    hide TraceGood, Quiet, SlaveDelivered, PeerCheck;
    if GoodBatch(a, ids) {
      var (l1, r) := PeerCheck(t.l, a, ids, now, 0);
      PeerQuiet(t.l, a, ids, now, 0);
      PeerCheckKeeps(t.l, a, ids, now, 0);
      QuietGood(t, l1);
      if r.Ok? { SlaveGood(t.(l := l1), ids); }
    }
  }

  // Every call.

  lemma AfterGood(capacity: nat, t: Trace, call: Call)
    requires TraceGood(t) && call.Fresh()
    ensures Indexed(t.l) && TraceGood(After(capacity, t, call))
  {
    hide TraceGood, Reserve, Consume, ConsumePeer, StoreKey, Quiet, Sweep;
    IsIndexed(t);
    match call
    case Store(k, now) => if StoreKey(capacity, t.l, k, now).Ok? { StoreGood(capacity, t, k, now); }
    case ReserveKeys(a, n, now, draw) => ReserveGood(capacity, t, a, n, now, draw);
    case ConsumeReservation(a, token, now) => ConsumeGood(t, a, token, now);
    case ConsumePeerKeys(a, ids, now) => PeerGood(t, a, ids, now);
    case InvalidateKey(id, now) => InvalidateQuiet(t.l, id, now); QuietGood(t, Kept(t.l, Invalidate(t.l, id, now)).0);
    case ReadMetadata(id, now) => MetadataQuiet(t.l, id, now); QuietGood(t, Metadata(t.l, id, now).0);
    case ReadInventory(a, now) => SweepQuiet(t.l, now); QuietGood(t, Sweep(t.l, now));
  }

  lemma InvalidateQuiet(l: Ledger, id: KeyID, now: Time)
    ensures Quiet(l, Kept(l, Invalidate(l, id, now)).0)
  {
  }

  lemma MetadataQuiet(l: Ledger, id: KeyID, now: Time)
    ensures Quiet(l, Metadata(l, id, now).0)
  {
  }

  lemma SweepQuiet(l: Ledger, now: Time)
    ensures Quiet(l, Sweep(l, now))
  {
  }

  /** In every reachable state: only the eight combinations of states; each entry is the stored key's, and each
      side's bytes are the stored ones, there exactly while that side is not over; reservations disjoint and covering
      what is reserved; each recipient handed a key once, the slave only after the master. */
  lemma {:induction false} EveryHistory(capacity: nat, calls: seq<Call>)
    requires forall i :: 0 <= i < |calls| ==> calls[i].Fresh()
    ensures TraceGood(History(capacity, calls))
  {
    hide TraceGood, After;
    if calls == [] {
      assert TraceGood(History(capacity, [])) by { EmptyGood(); }
    } else {
      EveryHistory(capacity, calls[..|calls| - 1]);
      AfterGood(capacity, History(capacity, calls[..|calls| - 1]), calls[|calls| - 1]);
    }
  }

  lemma EmptyGood()
    ensures TraceGood(Trace(NOTHING, map[], []))
  {
  }

  // Exactly the reserved batch.

  predicate Spends(call: Call, token: KeyID) { call.ConsumeReservation? && call.token == token }

  /** A reservation stays what it is until it is consumed; a new one never takes its token. */
  lemma BatchStays(capacity: nat, l: Ledger, call: Call, token: KeyID)
    requires Indexed(l) && call.Fresh() && token in l.reservations && !Spends(call, token)
    ensures var l' := Step(capacity, l, call).0;
      token in l'.reservations && l'.reservations[token] == l.reservations[token]
  {
    hide Aged, End, Scan, Hold, PeerCheck;
    match call
    case ReserveKeys(a, n, now, draw) => if n >= 0 { ScanKeeps(l, a, n, now, 0); }
    case ConsumeReservation(a, t, now) => if t in l.reservations { HoldKeeps(l, l.reservations[t].ids, now, 0); }
    case ConsumePeerKeys(a, ids, now) => PeerCheckKeeps(l, a, ids, now, 0);
    case _ =>
  }

  lemma {:induction false} BatchLasts(capacity: nat, calls: seq<Call>, more: seq<Call>, token: KeyID)
    requires forall i :: 0 <= i < |calls + more| ==> (calls + more)[i].Fresh()
    requires forall i :: 0 <= i < |calls| ==> calls[i].Fresh()
    requires token in History(capacity, calls).l.reservations && forall i :: 0 <= i < |more| ==> !Spends(more[i], token)
    ensures var l, l' := History(capacity, calls).l, History(capacity, calls + more).l;
      token in l'.reservations && l'.reservations[token] == l.reservations[token]
  {
    hide Step;
    var all := calls + more;
    if more == [] {
      assert all == calls;
    } else {
      var m := more[..|more| - 1];
      assert all[..|all| - 1] == calls + m;
      BatchLasts(capacity, calls, m, token);
      BatchStays(capacity, History(capacity, calls + m).l, all[|all| - 1], token);
    }
  }

  /** A reservation hands out exactly the keys it was made of, in that order and with their stored bytes,
      whatever happens in between short of consuming it. */
  lemma ReservationHandsItsBatch(capacity: nat, calls: seq<Call>, a: Association, n: int, now: Time,
        draw: nat -> KeyID, more: seq<Call>, b: Association, later: Time)
    requires Injective(draw) && (forall i :: 0 <= i < |calls| ==> calls[i].Fresh()) && forall i :: 0 <= i < |more| ==>
      more[i].Fresh()
    requires Reserve(History(capacity, calls).l, a, n, now, draw).1.Ok?
    requires var token := Reserve(History(capacity, calls).l, a, n, now, draw).1.value.token;
      && (forall i :: 0 <= i < |more| ==> !Spends(more[i], token))
      && Consume(History(capacity, calls + [ReserveKeys(a, n, now, draw)] + more).l, b, token, later).1.Ok?
    ensures var res := Reserve(History(capacity, calls).l, a, n, now, draw).1.value;
      var t := History(capacity, calls + [ReserveKeys(a, n, now, draw)] + more);
      var ds := Consume(t.l, b, res.token, later).1.value;
      |ds| == |res.ids| && forall i :: 0 <= i < |ds| ==>
        ds[i].id == res.ids[i] && ds[i].id in t.stored && ds[i].material == t.stored[ds[i].id].material
  {
    var call := ReserveKeys(a, n, now, draw);
    var before, all := calls + [call], calls + [call] + more;
    assert before[..|calls|] == calls;
    var res, t := Reserve(History(capacity, calls).l, a, n, now, draw).1.value, History(capacity, all);
    assert History(capacity, before).l == Reserve(History(capacity, calls).l, a, n, now, draw).0;
    BatchLasts(capacity, before, more, res.token);
    EveryHistory(capacity, all);
    HandsBatch(t, b, res.token, later);
  }

  lemma HandsBatch(t: Trace, b: Association, token: KeyID, now: Time)
    requires TraceGood(t) && Consume(t.l, b, token, now).1.Ok?
    ensures token in t.l.reservations
    ensures var ids, ds := t.l.reservations[token].ids, Consume(t.l, b, token, now).1.value;
      |ds| == |ids| && forall i :: 0 <= i < |ds| ==>
        ds[i].id == ids[i] && ds[i].id in t.stored && ds[i].material == t.stored[ds[i].id].material
  {
    hide Quiet, TraceGood, Indexed;
    IsIndexed(t);
    BatchKnown(t.l, token);
    var ids := t.l.reservations[token].ids;
    var (l1, held) := Hold(t.l, ids, now, 0);
    HoldQuiet(t.l, ids, now, 0);
    HoldKeeps(t.l, ids, now, 0);
    hide Hold;
    QuietGood(t, l1);
    HeldBytes(t.(l := l1), ids);
  }

  lemma HeldBytes(t: Trace, ids: seq<KeyID>)
    requires TraceGood(t) && Known(t.l, ids) && forall i :: 0 <= i < |ids| ==>
      t.l.keys[ids[i]].master == KeyState.Reserved
    ensures forall i :: 0 <= i < |ids| ==>
      ids[i] in t.stored && t.l.keys[ids[i]].masterBytes == t.stored[ids[i]].material
  {
    hide Indexed, BatchesGood, LogGood;
    StoredBytes(t, ids);
  }
}
