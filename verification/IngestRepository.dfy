/** The repository of a site as it runs: maps edited in place under its lock, saved to the journal, and a
    provider whose reply arrives in between. Each operation is proved to be the site's step of that name. */
module IngestRepository {
  import opened Core
  import opened Uuid
  import opened Lifecycle
  import opened Tokens
  import opened Counting
  import opened IngestState
  import opened IngestInvariant
  import opened IngestRuns

  // Maps part way through a loop.

  lemma WipedMore(keys: map<KeyID, LocalKey>, done: set<KeyID>, id: KeyID)
    ensures Wiped(keys, done + {id}) == if id in keys
      then Wiped(keys, done)[id := Ended(Wiped(keys, done)[id], KeyState.Invalid)] else Wiped(keys, done)
  {
    if id in keys {
      assert Ended(Ended(keys[id], KeyState.Invalid), KeyState.Invalid) == Ended(keys[id], KeyState.Invalid);
    }
  }

  lemma ElementsMore<T>(ids: seq<T>, i: nat)
    requires i < |ids|
    ensures Elements(ids[..i + 1]) == Elements(ids[..i]) + {ids[i]}
  {
    assert ids[..i + 1] == ids[..i] + [ids[i]];
  }

  lemma WipedNothing(keys: map<KeyID, LocalKey>)
    ensures Wiped(keys, {}) == keys
  {
  }

  lemma NamedMore(keys: map<KeyID, LocalKey>, ids: seq<KeyID>, i: nat, k: LocalKey)
    requires i < |ids|
    ensures Named(keys, ids[..i + 1], k) == Named(keys, ids[..i], k)[ids[i] := k]
  {
    assert ids[..i + 1] == ids[..i] + [ids[i]];
    var a, b := Named(keys, ids[..i + 1], k), Named(keys, ids[..i], k)[ids[i] := k];
    forall id ensures id in a <==> id in b { NamedKeys(keys, ids[..i + 1], k, id); NamedKeys(keys, ids[..i], k, id); }
    assert a == b;
  }

  lemma NamedKeys(keys: map<KeyID, LocalKey>, ids: seq<KeyID>, k: LocalKey, id: KeyID)
    ensures id in Named(keys, ids, k) <==> id in keys || id in ids
  {
  }

  lemma NamedNone(keys: map<KeyID, LocalKey>, k: LocalKey)
    ensures Named(keys, [], k) == keys
  {
  }

  lemma AddedKeys(keys: map<KeyID, LocalKey>, q: Request, ds: seq<Delivery>, id: KeyID)
    ensures id in Added(keys, q, ds) <==> id in keys || id in IDs(ds)
    ensures id in IDs(ds) <==> exists i :: 0 <= i < |ds| && ds[i].id == id
  {
    IDsOf(ds, id);
  }

  lemma AddedMore(keys: map<KeyID, LocalKey>, q: Request, ds: seq<Delivery>, i: nat)
    requires i < |ds|
    ensures Added(keys, q, ds[..i + 1]) == Added(keys, q,
      ds[..i])[ds[i].id := LocalKey(ds[i].material, KeyState.Reserved, q.started, q.expires)]
    ensures IDs(ds[..i + 1]) == IDs(ds[..i]) + [ds[i].id]
  {
    var k := LocalKey(ds[i].material, KeyState.Reserved, q.started, q.expires);
    var a, b := Added(keys, q, ds[..i + 1]), Added(keys, q, ds[..i])[ds[i].id := k];
    assert ds[..i + 1][..i] == ds[..i];
    assert IDs(ds[..i + 1]) == IDs(ds[..i]) + [ds[i].id];
    forall id ensures id in a <==> id in b { AddedKeys(keys, q, ds[..i + 1], id); AddedKeys(keys, q, ds[..i], id); }
    forall id | id in a ensures a[id] == b[id] {
      hide Added;
      AddedAt(keys, q, ds[..i + 1], id);
      AddedAt(keys, q, ds[..i], id);
    }
    assert a == b;
  }

  lemma AddedAt(keys: map<KeyID, LocalKey>, q: Request, ds: seq<Delivery>, id: KeyID)
    ensures id in Added(keys, q, ds) <==> id in keys || id in IDs(ds)
    ensures id in Added(keys, q, ds) ==>
      Added(keys, q, ds)[id] == if id in IDs(ds) then LocalKey(BytesFor(ds, id), KeyState.Reserved, q.started,
        q.expires) else keys[id]
  {
    AddedKeys(keys, q, ds, id);
  }

  lemma AddedNone(keys: map<KeyID, LocalKey>, q: Request)
    ensures Added(keys, q, []) == keys
  {
  }

  /** The keys when those in left still wait to be expired. */
  predicate HalfExpired(s: State, keys: map<KeyID, LocalKey>, left: set<KeyID>, now: Time) {
    keys.Keys == s.keys.Keys && forall id :: id in keys ==>
      keys[id] == if id in left then s.keys[id] else Expiring(s, now).keys[id]
  }

  /** Some key not among those left is due. */
  predicate DueOutside(s: State, left: set<KeyID>, now: Time) {
    exists id :: id in s.keys && id !in left && Due(s.keys[id], now)
  }

  lemma HalfExpiredNext(s: State, keys: map<KeyID, LocalKey>, left: set<KeyID>, now: Time, id: KeyID)
    requires HalfExpired(s, keys, left, now) && id in left && id in keys
    ensures DueOutside(s, left - {id}, now) <==> DueOutside(s, left, now) || Due(keys[id], now)
    ensures HalfExpired(s, if Due(keys[id], now) then keys[id := Ended(keys[id], KeyState.Expired)]
      else keys, left - {id}, now)
  {
  }

  lemma HalfExpiredEnds(s: State, keys: map<KeyID, LocalKey>, now: Time)
    ensures HalfExpired(s, s.keys, s.keys.Keys, now)
    ensures HalfExpired(s, keys, {}, now) ==> keys == Expiring(s, now).keys
    ensures !AnyDue(s, now) ==> Expiring(s, now).keys == s.keys
    ensures Expiring(s, now) == s.(keys := Expiring(s, now).keys)
    ensures !DueOutside(s, s.keys.Keys, now) && (DueOutside(s, {}, now) <==> AnyDue(s, now))
  {
  }

  function Suspected(q: Request): Request { if q.phase == Phase.Pending then q.(phase := Phase.Uncertain) else q }

  /** The journal while the requests in left still wait to be recovered. */
  predicate HalfRecovered(s: State, requests: map<KeyID, Request>, keys: map<KeyID, LocalKey>, left: set<KeyID>) {
    && requests == (map t | t in s.requests :: if t in left then s.requests[t] else Suspected(s.requests[t]))
    && keys == Wiped(s.keys, PendingIDs(s.(requests := s.requests - left)))
  }

  lemma HalfRecoveredEnds(s: State)
    ensures HalfRecovered(s, s.requests, s.keys, s.requests.Keys)
    ensures forall requests, keys :: HalfRecovered(s, requests, keys, {}) ==>
      s.(requests := requests, keys := keys) == Recovered(s)
  {
    assert s.requests - s.requests.Keys == map[];
    assert s.requests - {} == s.requests;
    assert PendingIDs(s.(requests := map[])) == {};
    WipedNothing(s.keys);
  }

  lemma HalfRecoveredNext(s: State, requests: map<KeyID, Request>, keys: map<KeyID, LocalKey>, left: set<KeyID>,
        t: KeyID)
    requires HalfRecovered(s, requests, keys, left) && t in left && t in s.requests
    ensures t in requests && requests[t] == s.requests[t]
    ensures HalfRecovered(s, requests[t := Suspected(s.requests[t])],
      if s.requests[t].phase == Phase.Pending then Wiped(keys, Elements(s.requests[t].ids)) else keys, left - {t})
  {
    var before, after := PendingIDs(s.(requests := s.requests - left)),
      PendingIDs(s.(requests := s.requests - (left - {t})));
    PendingMore(s, left, t);
    var more := if s.requests[t].phase == Phase.Pending then Elements(s.requests[t].ids) else {};
    assert Wiped(Wiped(s.keys, before), more) == Wiped(s.keys, before + more);
  }

  lemma PendingMore(s: State, left: set<KeyID>, t: KeyID)
    requires t in left && t in s.requests
    ensures PendingIDs(s.(requests := s.requests - (left - {t}))) ==
      PendingIDs(s.(requests := s.requests - left)) + if s.requests[t].phase == Phase.Pending
        then Elements(s.requests[t].ids) else {}
  {
    var a, b := s.(requests := s.requests - (left - {t})), s.(requests := s.requests - left);
    forall id | id in PendingIDs(a) ensures id in PendingIDs(b) + if s.requests[t].phase == Phase.Pending
      then Elements(s.requests[t].ids) else {} {
      var u, i :| u in a.requests && a.requests[u].phase == Phase.Pending && 0 <= i < |a.requests[u].ids|
        && a.requests[u].ids[i] == id;
      if u != t { assert u in b.requests && b.requests[u] == a.requests[u]; }
    }
    forall id | id in PendingIDs(b) ensures id in PendingIDs(a) {
      var u, i :| u in b.requests && b.requests[u].phase == Phase.Pending && 0 <= i < |b.requests[u].ids|
        && b.requests[u].ids[i] == id;
      assert a.requests[u] == b.requests[u];
    }
    forall id | s.requests[t].phase == Phase.Pending && id in Elements(s.requests[t].ids) ensures id in PendingIDs(a) {
      var i :| 0 <= i < |s.requests[t].ids| && s.requests[t].ids[i] == id;
      assert a.requests[t] == s.requests[t];
    }
  }

  class Repository {
    const p: Profile
    var attempts: nat
    var requests: map<KeyID, Request>
    var keys: map<KeyID, LocalKey>
    var disk: State
    var broken: bool

    function S(): State
      reads this
    {
      State(attempts, requests, keys)
    }

    function View(): Site
      reads this
    {
      Site(S(), disk, broken)
    }

    ghost predicate Valid()
      reads this
    {
      p.Valid() && SiteGood(p, View(), None)
    }

    constructor Load(p: Profile, d: State)
      ensures this.p == p && View() == Site(d, d, false)
    {
      this.p := p;
      attempts, requests, keys, disk, broken := d.attempts, d.requests, d.keys, d, false;
    }

    /** Opens a journal; a site without one begins with empty books. A journal that could not be saved again
        is not served. */
    static method Open(p: Profile, journal: Option<State>, now: Time, fe: Fault, f: Fault)
          returns (r: Result<Repository>)
      requires p.Valid() && (journal.Some? && journal.value.attempts <= p.capacity ==> Inv(p, journal.value))
      ensures var site := IngestState.Open(p, if journal.Some? then journal.value else FRESH, now, fe, f);
        && (r.Ok? <==> !site.broken)
        && (r.Ok? ==> fresh(r.value) && r.value.p == p && r.value.Valid() && r.value.View() == site)
    {
      var d := if journal.Some? then journal.value else FRESH;
      if d.attempts > p.capacity {
        return Err(Error.Journal);
      }
      assert Inv(p, d);
      OpenKeeps(p, d, now, fe, f);
      var repo := new Repository.Load(p, d);
      repo.Recover();
      var done := repo.ExpireKeys(now, fe);
      if done.Ok? {
        done := repo.Save(f);
      }
      return if done.Ok? then Ok(repo) else Err(Error.Journal);
    }

    /** A request found pending may have reached the provider. */
    method Recover()
      modifies this`requests, this`keys
      ensures View() == old(View()).(s := Recovered(old(S())))
    {
      HalfRecoveredEnds(S());
      var left := requests.Keys;
      while left != {}
        invariant left <= old(requests).Keys && HalfRecovered(old(S()), requests, keys, left)
        decreases |left|
      {
        var t :| t in left;
        HalfRecoveredNext(old(S()), requests, keys, left, t);
        var q := requests[t];
        if q.phase == Phase.Pending {
          requests := requests[t := q.(phase := Phase.Uncertain)];
          Wipe(q.ids);
        } else {
          assert requests[t := q] == requests;
        }
        left := left - {t};
      }
    }

    /** Clears and invalidates those of the keys that are known. */
    method Wipe(ids: seq<KeyID>)
      modifies this`keys
      ensures keys == Wiped(old(keys), Elements(ids))
    {
      WipedNothing(keys);
      assert Elements(ids[..0]) == {};
      for i := 0 to |ids|
        invariant keys == Wiped(old(keys), Elements(ids[..i]))
      {
        ElementsMore(ids, i);
        WipedMore(old(keys), Elements(ids[..i]), ids[i]);
        if ids[i] in keys {
          keys := keys[ids[i] := keys[ids[i]].(material := [], state := KeyState.Invalid)];
        }
      }
      assert ids[..|ids|] == ids;
    }

    method Save(f: Fault) returns (r: Result<()>)
      modifies this`disk, this`broken
      ensures View() == IngestState.Save(old(View()), f) && r == Saved(f)
    {
      match f {
        case Saves => disk := S();
        case FailsOld => broken := true;
        case FailsNew => disk, broken := S(), true;
      }
      return if f == Saves then Ok(()) else Err(Error.Journal);
    }

    method ExpireKeys(now: Time, f: Fault) returns (r: Result<()>)
      requires !broken
      modifies this
      ensures View() == Expire(old(View()), now, f)
      ensures r == if broken then Err(Error.Journal) else Ok(())
    {
      hide HalfExpired, DueOutside, Expiring;
      ghost var s := S();
      HalfExpiredEnds(s, keys, now);
      var changed, left := false, keys.Keys;
      while left != {}
        invariant left <= keys.Keys && HalfExpired(s, keys, left, now)
        invariant changed <==> DueOutside(s, left, now)
        invariant attempts == old(attempts) && requests == old(requests) && disk == old(disk) && !broken
        decreases |left|
      {
        var id :| id in left;
        HalfExpiredNext(s, keys, left, now, id);
        var k := keys[id];
        if !k.state.Terminal() && k.expires <= now {
          keys := keys[id := k.(material := [], state := KeyState.Expired)];
          changed := true;
        }
        left := left - {id};
      }
      HalfExpiredEnds(s, keys, now);
      assert changed <==> AnyDue(s, now);
      if changed {
        r := Save(f);
      } else {
        r := Ok(());
      }
    }

    method CheckCaller(a: Association, role: SiteRole, now: Time, f: Fault) returns (r: Result<()>)
      modifies this
      ensures (View(), r) == Check(p, old(View()), a, role, now, f)
    {
      if broken {
        return Err(Error.Journal);
      }
      if a != p.pair || p.role != role {
        return Err(Unauthorized);
      }
      r := ExpireKeys(now, f);
    }

    method NewToken(draw: nat -> KeyID) returns (token: KeyID)
      requires Injective(draw)
      ensures token == FirstFree(requests.Keys, draw, 0)
    {
      var i := 0;
      token := draw(0);
      while token in requests
        invariant token == draw(i)
        invariant FirstFree(requests.Keys, draw, i) == FirstFree(requests.Keys, draw, 0)
        decreases requests.Keys - Drawn(draw, i)
      {
        DrawnGrows(requests.Keys, draw, i);
        i := i + 1;
        token := draw(i);
      }
    }

    /** Writes the intent to ask for n keys before the provider hears of it. */
    method BeginRequest(n: int, ids: seq<KeyID>, now: Time, draw: nat -> KeyID, f: Fault) returns (r: Result<KeyID>)
      requires Injective(draw)
      modifies this
      ensures (View(), r) == Begin(p, old(View()), n, ids, now, draw, f)
    {
      if n < 1 || n > MAX_BATCH {
        return Err(Error.Invalid);
      }
      if attempts + n > p.capacity {
        return Err(Capacity);
      }
      var token := NewToken(draw);
      var q := Request(ids, n, Phase.Pending, now, now + p.lifetime);
      requests := requests[token := q];
      attempts := attempts + n;
      AddReserved(ids, LocalKey([], KeyState.Reserved, now, q.expires));
      assert S() == Intended(p, old(S()), n, ids, now, token);
      var saved := Save(f);
      return if saved.Ok? then Ok(token) else Err(Error.Journal);
    }

    method AddReserved(ids: seq<KeyID>, k: LocalKey)
      modifies this`keys
      ensures keys == Named(old(keys), ids, k)
    {
      NamedNone(keys, k);
      for i := 0 to |ids|
        invariant keys == Named(old(keys), ids[..i], k)
      {
        NamedMore(old(keys), ids, i, k);
        keys := keys[ids[i] := k];
      }
      assert ids[..|ids|] == ids;
    }

    method MarkUncertain(token: KeyID, f: Fault) returns (e: Error)
      requires token in requests
      modifies this
      ensures (View(), e) == Doubt(old(View()), token, f)
    {
      var q := requests[token];
      requests := requests[token := q.(phase := Phase.Uncertain)];
      Wipe(q.ids);
      assert Elements(q.ids) == set i | 0 <= i < |q.ids| :: q.ids[i];
      var saved := Save(f);
      return if saved.Ok? then Unavailable else Error.Journal;
    }

    /** Checks the provider's reply once more before anything is kept. */
    method Validate(q: Request, ds: seq<Delivery>, slave: bool, now: Time) returns (ok: bool)
      ensures ok <==> Acceptable(S(), q, ds, slave, now)
    {
      if |ds| != q.count || q.expires <= now {
        return false;
      }
      var seen := {};
      for i := 0 to |ds|
        invariant seen == set k | 0 <= k < i :: ds[k].id
        invariant Distincts(ds[..i])
        invariant forall k :: 0 <= k < i ==>
          ValidID(ds[k].id) && |ds[k].material| == KEY_BYTES && (if slave then ds[k].id in q.ids else ds[k].id !in keys)
      {
        var d := ds[i];
        if !ValidID(d.id) || |d.material| != KEY_BYTES || d.id in seen {
          assert d.id in seen ==> !Distincts(ds);
          return false;
        }
        seen := seen + {d.id};
        if slave {
          if d.id !in q.ids {
            return false;
          }
        } else if d.id in keys {
          return false;
        }
      }
      assert ds[..|ds|] == ds;
      return true;
    }

    method ReserveKeys(a: Association, n: int, reply: Result<seq<Delivery>>, draw: nat -> KeyID, at: Course)
          returns (r: Result<Reservation>)
      requires Valid() && Injective(draw)
      modifies this
      ensures Valid()
      ensures (View(), r) == IngestState.ReserveKeys(p, old(View()), a, n, reply, draw, at)
    {
      ReserveKeysGood(p, View(), a, n, reply, draw, at);
      hide Check, Begin, EndReserve, SiteGood;
      var ok := CheckCaller(a, MasterSite, at.checked, at.expiry);
      if ok.Err? {
        return Err(ok.error);
      }
      var begun := BeginRequest(n, [], at.begun, draw, at.intent);
      if begun.Err? {
        return Err(begun.error);
      }
      r := FinishReserve(begun.value, reply, at.replied, at.outcome);
    }

    method FinishReserve(token: KeyID, reply: Result<seq<Delivery>>, now: Time, f: Fault)
          returns (r: Result<Reservation>)
      requires token in requests
      modifies this
      ensures (View(), r) == EndReserve(old(View()), token, reply, now, f)
    {
      hide Acceptable;
      var acceptable := false;
      if reply.Ok? {
        acceptable := Validate(requests[token], reply.value, false, now);
      }
      if !acceptable {
        var e := MarkUncertain(token, f);
        return Err(e);
      }
      KeepReply(token, reply.value);
      var q := requests[token];
      requests := requests[token := q.(phase := Phase.Stored)];
      assert S() == IngestState.Kept(old(S()), token, reply.value);
      var saved := Save(f);
      return if saved.Ok? then Ok(Reservation(token, requests[token].ids)) else Err(Error.Journal);
    }

    method KeepReply(token: KeyID, ds: seq<Delivery>)
      requires token in requests
      modifies this`requests, this`keys
      ensures var q := old(requests)[token];
        requests == old(requests)[token := q.(ids := q.ids + IDs(ds))] && keys == Added(old(keys), q, ds)
    {
      var q := requests[token];
      AddedNone(keys, q);
      assert q.ids + IDs(ds[..0]) == q.ids;
      for i := 0 to |ds|
        invariant requests == old(requests)[token := q.(ids := q.ids + IDs(ds[..i]))]
        invariant keys == Added(old(keys), q, ds[..i])
      {
        AddedMore(old(keys), q, ds, i);
        assert q.ids + IDs(ds[..i + 1]) == q.ids + IDs(ds[..i]) + [ds[i].id];
        var now := requests[token];
        requests := requests[token := now.(ids := now.ids + [ds[i].id])];
        keys := keys[ds[i].id := LocalKey(ds[i].material, KeyState.Reserved, now.started, now.expires)];
      }
      assert ds[..|ds|] == ds;
    }

    method ConsumeReservation(a: Association, token: KeyID, at: Course) returns (r: Result<seq<Delivery>>)
      requires Valid()
      modifies this
      ensures Valid()
      ensures (View(), r) == Consume(p, old(View()), a, token, at.checked, at.expiry, at.replied, at.outcome)
    {
      ConsumeKeeps(p, View(), a, token, at.checked, at.expiry, at.replied, at.outcome);
      CheckKeeps(p, View(), a, MasterSite, at.checked, at.expiry);
      hide Check, ConsumeBatch, Forward, SiteGood;
      var ok := CheckCaller(a, MasterSite, at.checked, at.expiry);
      if ok.Err? {
        return Err(ok.error);
      }
      ServingBooks(p, View());
      r := HandBatch(token, at.replied, at.outcome);
    }

    method HandBatch(token: KeyID, now: Time, f: Fault) returns (r: Result<seq<Delivery>>)
      requires Inv(p, S())
      modifies this
      ensures (View(), r) == ConsumeBatch(old(View()), token, now, f)
    {
      hide Inv;
      if token !in requests || requests[token].phase != Phase.Stored || requests[token].expires <= now {
        return Err(Unavailable);
      }
      var q := requests[token];
      var ready := AllReady(q.ids);
      if !ready {
        return Err(Unavailable);
      }
      RequestKnown(p, S(), token);
      var out := HandOut(q.ids);
      requests := requests[token := q.(phase := Phase.Consumed)];
      assert S() == AllConsumed(old(S()), token);
      var saved := Save(f);
      return if saved.Ok? then Ok(out) else Err(Error.Journal);
    }

    method AllReady(ids: seq<KeyID>) returns (ok: bool)
      ensures ok <==> forall i :: 0 <= i < |ids| ==> Ready(S(), ids[i])
    {
      for i := 0 to |ids|
        invariant forall k :: 0 <= k < i ==> Ready(S(), ids[k])
      {
        if ids[i] !in keys || keys[ids[i]].state != KeyState.Reserved || |keys[ids[i]].material| != KEY_BYTES {
          return false;
        }
      }
      return true;
    }

    /** Copies out the bytes of each key, clears them and marks the key consumed. */
    method HandOut(ids: seq<KeyID>) returns (out: seq<Delivery>)
      requires Distinct(ids) && forall i :: 0 <= i < |ids| ==> ids[i] in keys
      modifies this`keys
      ensures out == Held(old(S()), ids)
      ensures keys == map id | id in old(keys) :: if id in ids then Ended(old(keys)[id], KeyState.Consumed)
        else old(keys)[id]
    {
      out := [];
      for i := 0 to |ids|
        invariant keys == map id | id in old(keys) :: if id in ids[..i] then Ended(old(keys)[id], KeyState.Consumed)
          else old(keys)[id]
        invariant |out| == i && forall k :: 0 <= k < i ==> out[k] == Delivery(ids[k], old(keys)[ids[k]].material)
      {
        assert ids[..i + 1] == ids[..i] + [ids[i]] && ids[i] !in ids[..i];
        out := out + [Delivery(ids[i], keys[ids[i]].material)];
        keys := keys[ids[i] := keys[ids[i]].(material := [], state := KeyState.Consumed)];
      }
      assert ids[..|ids|] == ids;
    }

    method CheckAsked(ids: seq<KeyID>) returns (r: Result<()>)
      ensures r == Asked(S(), ids, 0)
    {
      var seen, i := {}, 0;
      while i < |ids|
        invariant i <= |ids| && seen == Elements(ids[..i])
        invariant Asked(S(), ids, i) == Asked(S(), ids, 0)
      {
        if !ValidID(ids[i]) || ids[i] in seen {
          return Err(Error.Invalid);
        }
        ElementsMore(ids, i);
        seen := seen + {ids[i]};
        if ids[i] in keys {
          return Err(Unavailable);
        }
        i := i + 1;
      }
      return Ok(());
    }

    method ConsumePeerKeys(a: Association, ids: seq<KeyID>, reply: Result<seq<Delivery>>, draw: nat -> KeyID,
          at: Course) returns (r: Result<seq<Delivery>>)
      requires Valid() && Injective(draw)
      modifies this
      ensures Valid()
      ensures (View(), r) == IngestState.ConsumePeerKeys(p, old(View()), a, ids, reply, draw, at)
    {
      RetrieveKeysGood(p, View(), a, ids, reply, draw, at);
      hide Check, Begin, EndRetrieve, SiteGood, Asked;
      var ok := CheckCaller(a, SlaveSite, at.checked, at.expiry);
      if ok.Err? {
        return Err(ok.error);
      }
      if |ids| < 1 || |ids| > MAX_BATCH {
        return Err(Error.Invalid);
      }
      var asked := CheckAsked(ids);
      if asked.Err? {
        return Err(asked.error);
      }
      var begun := BeginRequest(|ids|, ids, at.begun, draw, at.intent);
      if begun.Err? {
        return Err(begun.error);
      }
      BegunNames(p, View(), begun.value);
      r := FinishRetrieve(begun.value, reply, at.replied, at.outcome);
    }

    method FinishRetrieve(token: KeyID, reply: Result<seq<Delivery>>, now: Time, f: Fault)
          returns (r: Result<seq<Delivery>>)
      requires token in requests && forall i :: 0 <= i < |requests[token].ids| ==> requests[token].ids[i] in keys
      modifies this
      ensures (View(), r) == EndRetrieve(old(View()), token, reply, now, f)
    {
      hide Acceptable;
      var acceptable := false;
      if reply.Ok? {
        acceptable := Validate(requests[token], reply.value, true, now);
      }
      if !acceptable {
        var e := MarkUncertain(token, f);
        return Err(e);
      }
      var q := requests[token];
      var out := MatchReply(q.ids, reply.value);
      requests := requests[token := q.(phase := Phase.Consumed)];
      var saved := Save(f);
      return if saved.Ok? then Ok(out) else Err(Error.Journal);
    }

    /** Looks the reply up by identifier and marks the keys consumed, in the order asked. */
    method MatchReply(ids: seq<KeyID>, ds: seq<Delivery>) returns (out: seq<Delivery>)
      requires forall i :: 0 <= i < |ids| ==> ids[i] in keys
      modifies this`keys
      ensures out == Matched(ids, ds)
      ensures keys == map id | id in old(keys) :: if id in ids then old(keys)[id].(state := KeyState.Consumed)
        else old(keys)[id]
    {
      var byID := IndexReply(ds);
      hide BytesFor;
      out := [];
      for i := 0 to |ids|
        invariant keys == map id | id in old(keys) :: if id in ids[..i] then old(keys)[id].(state := KeyState.Consumed)
          else old(keys)[id]
        invariant |out| == i && forall k :: 0 <= k < i ==> out[k] == Delivery(ids[k], BytesFor(ds, ids[k]))
      {
        assert ids[..i + 1] == ids[..i] + [ids[i]];
        out := out + [Delivery(ids[i], if ids[i] in byID then byID[ids[i]] else [])];
        keys := keys[ids[i] := keys[ids[i]].(state := KeyState.Consumed)];
      }
      assert ids[..|ids|] == ids;
    }

    method IndexReply(ds: seq<Delivery>) returns (byID: map<KeyID, Bytes>)
      ensures forall id :: BytesFor(ds, id) == if id in byID then byID[id] else []
    {
      byID := map[];
      for i := 0 to |ds|
        invariant forall id :: BytesFor(ds[..i], id) == if id in byID then byID[id] else []
      {
        assert ds[..i + 1][..i] == ds[..i];
        byID := byID[ds[i].id := ds[i].material];
      }
      assert ds[..|ds|] == ds;
    }

    method InvalidateKey(id: KeyID, f: Fault) returns (r: Result<()>)
      requires Valid()
      modifies this
      ensures Valid()
      ensures (View(), r) == Invalidate(old(View()), id, f)
    {
      InvalidateKeeps(p, View(), id, f);
      if broken {
        return Err(Error.Journal);
      }
      if id !in keys {
        return Err(Unavailable);
      }
      var k := keys[id];
      if !k.state.Terminal() {
        keys := keys[id := k.(material := [], state := KeyState.Invalid)];
        r := Save(f);
        return;
      }
      return Ok(());
    }

    method CountOffer(a: Association, offer: Option<int>, now: Time, f: Fault) returns (available: int)
      requires Valid()
      modifies this
      ensures Valid()
      ensures (View(), available) == Inventory(p, old(View()), a, offer, now, f)
      ensures 0 <= available <= p.capacity
    {
      CheckKeeps(p, View(), a, MasterSite, now, f);
      available := 0;
      var ok := CheckCaller(a, MasterSite, now, f);
      if ok.Err? {
        return;
      }
      assert attempts <= p.capacity;
      if offer.Some? && offer.value >= 0 {
        available := if offer.value < p.capacity - attempts then offer.value else p.capacity - attempts;
      }
    }
  }

  lemma ServingBooks(p: Profile, site: Site)
    requires SiteGood(p, site, None) && !site.broken
    ensures Inv(p, site.s)
  {
  }

  lemma RequestKnown(p: Profile, s: State, token: KeyID)
    requires Inv(p, s) && token in s.requests
    ensures Distinct(s.requests[token].ids)
  {
    assert RequestGood(p, s.requests[token]);
  }

  lemma BegunNames(p: Profile, site: Site, token: KeyID)
    requires SiteGood(p, site, Some(token))
    ensures token in site.s.requests && forall i :: 0 <= i < |site.s.requests[token].ids| ==>
      site.s.requests[token].ids[i] in site.s.keys
  {
    forall i | 0 <= i < |site.s.requests[token].ids| ensures site.s.requests[token].ids[i] in site.s.keys {
      assert Names(site.s, token, site.s.requests[token].ids[i]);
    }
  }

  lemma ReserveKeysGood(p: Profile, site: Site, a: Association, n: int, reply: Result<seq<Delivery>>,
        draw: nat -> KeyID, at: Course)
    requires SiteGood(p, site, None) && Injective(draw)
    ensures SiteGood(p, IngestState.ReserveKeys(p, site, a, n, reply, draw, at).0, None)
  {
    hide SiteGood, StartReserve, EndReserve;
    StartReserveKeeps(p, site, a, n, at.checked, at.expiry, at.begun, draw, at.intent);
    var (site1, token) := StartReserve(p, site, a, n, at.checked, at.expiry, at.begun, draw, at.intent);
    if token.Ok? {
      StartedRole(p, site, a, n, draw, at);
      EndReserveKeeps(p, site1, token.value, reply, at.replied, at.outcome);
    }
  }

  lemma StartedRole(p: Profile, site: Site, a: Association, n: int, draw: nat -> KeyID, at: Course)
    requires Injective(draw) && StartReserve(p, site, a, n, at.checked, at.expiry, at.begun, draw, at.intent).1.Ok?
    ensures p.role == MasterSite
  {
  }

  lemma RetrieveKeysGood(p: Profile, site: Site, a: Association, ids: seq<KeyID>, reply: Result<seq<Delivery>>,
        draw: nat -> KeyID, at: Course)
    requires SiteGood(p, site, None) && Injective(draw)
    ensures SiteGood(p, IngestState.ConsumePeerKeys(p, site, a, ids, reply, draw, at).0, None)
    ensures var (site1, token) := StartRetrieve(p, site, a, ids, at.checked, at.expiry, at.begun, draw, at.intent);
      token.Ok? ==> SiteGood(p, site1, Some(token.value))
  {
    hide SiteGood, StartRetrieve, EndRetrieve;
    StartRetrieveKeeps(p, site, a, ids, at.checked, at.expiry, at.begun, draw, at.intent);
    var (site1, token) := StartRetrieve(p, site, a, ids, at.checked, at.expiry, at.begun, draw, at.intent);
    if token.Ok? {
      RetrieveStarted(p, site, a, ids, draw, at);
      EndRetrieveKeeps(p, site1, token.value, reply, at.replied, at.outcome);
    }
  }

  lemma RetrieveStarted(p: Profile, site: Site, a: Association, ids: seq<KeyID>, draw: nat -> KeyID, at: Course)
    requires Injective(draw) && StartRetrieve(p, site, a, ids, at.checked, at.expiry, at.begun, draw, at.intent).1.Ok?
    ensures p.role == SlaveSite
  {
  }
}
