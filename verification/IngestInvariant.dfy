/** The books of a site: what every journal state satisfies, that every edit keeps it, and that requests and
    keys only move forward. */
module IngestInvariant {
  import opened Core
  import opened Lifecycle
  import opened Counting
  import opened IngestState

  // Sums over requests.

  /** The keys asked for by all requests. */
  ghost function Total(qs: map<KeyID, Request>): nat
    decreases |qs|
  {
    if qs == map[] then 0
    else
      var t :| t in qs;
      assert |qs - {t}| < |qs| by { Smaller(qs, t); }
      qs[t].count + Total(qs - {t})
  }

  lemma Smaller(qs: map<KeyID, Request>, t: KeyID)
    requires t in qs
    ensures |qs - {t}| == |qs| - 1
  {
    assert (qs - {t}).Keys == qs.Keys - {t};
    assert |(qs - {t}).Keys| == |qs - {t}| && |qs.Keys| == |qs|;
  }

  /** Any request may be counted first. */
  lemma {:induction false} TotalSplit(qs: map<KeyID, Request>, t: KeyID)
    requires t in qs
    ensures Total(qs) == qs[t].count + Total(qs - {t})
    decreases |qs|
  {
    var u :| u in qs && Total(qs) == qs[u].count + Total(qs - {u});
    if u != t {
      Smaller(qs, u);
      Smaller(qs, t);
      TotalSplit(qs - {u}, t);
      TotalSplit(qs - {t}, u);
      assert qs - {u} - {t} == qs - {t} - {u};
    }
  }

  /** Requests that keep their counts keep the total. */
  lemma {:induction false} TotalSame(qs: map<KeyID, Request>, qs': map<KeyID, Request>)
    requires qs'.Keys == qs.Keys && forall t :: t in qs ==> qs'[t].count == qs[t].count
    ensures Total(qs') == Total(qs)
    decreases |qs|
  {
    if qs == map[] {
      assert qs' == map[];
    } else {
      var t :| t in qs;
      Smaller(qs, t);
      TotalSame(qs - {t}, qs' - {t});
      TotalSplit(qs, t);
      TotalSplit(qs', t);
    }
  }

  function Listed(qs: map<KeyID, Request>): set<KeyID> {
    set t, i | t in qs && 0 <= i < |qs[t].ids| :: qs[t].ids[i]
  }

  lemma {:induction false} ElementsSize(ids: seq<KeyID>)
    ensures |Elements(ids)| <= |ids|
  {
    if ids != [] {
      ElementsSize(ids[1..]);
      assert Elements(ids) == Elements(ids[1..]) + {ids[0]} by {
        forall x | x in Elements(ids) ensures x in Elements(ids[1..]) + {ids[0]} {
          var i :| 0 <= i < |ids| && ids[i] == x;
          if i > 0 { assert ids[1..][i - 1] == x; }
        }
        forall x | x in Elements(ids[1..]) ensures x in Elements(ids) {
          var i :| 0 <= i < |ids[1..]| && ids[1..][i] == x;
          assert ids[i + 1] == x;
        }
      }
    }
  }

  lemma ListedSplit(qs: map<KeyID, Request>, t: KeyID)
    requires t in qs
    ensures Listed(qs) <= Listed(qs - {t}) + Elements(qs[t].ids)
  {
    forall x | x in Listed(qs) ensures x in Listed(qs - {t}) + Elements(qs[t].ids) {
      var u, i :| u in qs && 0 <= i < |qs[u].ids| && qs[u].ids[i] == x;
      if u != t { assert (qs - {t})[u] == qs[u]; }
    }
  }

  /** Every listed key was counted. */
  lemma {:induction false} ListedCounted(qs: map<KeyID, Request>)
    requires forall t :: t in qs ==> |qs[t].ids| <= qs[t].count
    ensures |Listed(qs)| <= Total(qs)
    decreases |qs|
  {
    if qs == map[] {
      assert Listed(qs) == {};
    } else {
      var t :| t in qs;
      Smaller(qs, t);
      ListedCounted(qs - {t});
      TotalSplit(qs, t);
      ElementsSize(qs[t].ids);
      ListedSplit(qs, t);
      SubsetSize(Listed(qs), Listed(qs - {t}) + Elements(qs[t].ids));
    }
  }

  // The books.

  predicate Names(s: State, t: KeyID, id: KeyID) { t in s.requests && id in s.requests[t].ids }

  /** A request lives for the profile's lifetime, and lists all its keys, or none yet when the provider of a master is
      to choose them. */
  predicate RequestGood(p: Profile, q: Request) {
    && 1 <= q.count <= MAX_BATCH && Distinct(q.ids) && q.expires == q.started + p.lifetime
    && (|q.ids| == q.count || (q.ids == [] && p.role == MasterSite))
    && (q.ids == [] ==> q.phase == Phase.Pending || q.phase == Phase.Uncertain)
    && (p.role == MasterSite && q.phase == Phase.Pending ==> q.ids == [])
    && (q.phase == Phase.Stored ==> p.role == MasterSite)
  }

  /** What a key of a request in a given phase may be. Bytes are kept only for a stored reservation. */
  predicate KeyGood(q: Request, k: LocalKey) {
    && k.created == q.started && k.expires == q.expires
    && match q.phase
       case Pending => k.state == KeyState.Reserved && k.material == []
       case Stored => if k.state == KeyState.Reserved then |k.material| == KEY_BYTES
         else (k.state.Expired? || k.state.Invalid?) && k.material == []
       case Consumed => k.state == KeyState.Consumed && k.material == []
       case Uncertain => k.state == KeyState.Invalid && k.material == []
  }

  ghost predicate ListsGood(p: Profile, s: State) {
    && (forall t :: t in s.requests ==> RequestGood(p, s.requests[t]))
    && (forall t, u, id :: Names(s, t, id) && Names(s, u, id) ==> t == u)
  }

  ghost predicate KeysGood(s: State) {
    && (forall t, id :: Names(s, t, id) ==> id in s.keys && KeyGood(s.requests[t], s.keys[id]))
    && (forall id :: id in s.keys ==> exists t :: Names(s, t, id))
  }

  ghost predicate Balanced(p: Profile, s: State) { s.attempts == Total(s.requests) && s.attempts <= p.capacity }

  ghost predicate Inv(p: Profile, s: State) { Balanced(p, s) && ListsGood(p, s) && KeysGood(s) }

  predicate NonePending(s: State) { forall t :: t in s.requests ==> s.requests[t].phase != Phase.Pending }

  // Moving forward.

  predicate Onward(a: Phase, b: Phase) {
    a == b || a == Phase.Pending || (a == Phase.Stored && b == Phase.Consumed)
  }

  predicate RequestOnward(q: Request, q': Request) {
    && Onward(q.phase, q'.phase) && q'.count == q.count && q'.started == q.started && q'.expires == q.expires
    && (q'.ids == q.ids || (q.phase == Phase.Pending && q.ids == []))
  }

  /** A key that is over stays as it is; otherwise its bytes stay or go. */
  predicate KeyOnward(k: LocalKey, k': LocalKey) {
    && (k.state.Terminal() ==> k'.state == k.state)
      && (!k.state.Terminal() ==> k'.state == k.state || k'.state.Terminal())
    && (k'.material == k.material || k'.material == []) && k'.created == k.created && k'.expires == k.expires
  }

  predicate Forward(s: State, s': State) {
    && s.attempts <= s'.attempts
    && (forall t :: t in s.requests ==> t in s'.requests && RequestOnward(s.requests[t], s'.requests[t]))
    && (forall id :: id in s.keys ==> id in s'.keys && KeyOnward(s.keys[id], s'.keys[id]))
  }

  lemma ForwardRefl(s: State)
    ensures Forward(s, s)
  {
  }

  lemma ForwardTrans(s: State, s1: State, s2: State)
    requires Forward(s, s1) && Forward(s1, s2)
    ensures Forward(s, s2)
  {
    forall id | id in s.keys ensures id in s2.keys && KeyOnward(s.keys[id], s2.keys[id]) {
      assert KeyOnward(s.keys[id], s1.keys[id]) && KeyOnward(s1.keys[id], s2.keys[id]);
    }
    forall t | t in s.requests ensures t in s2.requests && RequestOnward(s.requests[t], s2.requests[t]) {
      assert RequestOnward(s.requests[t], s1.requests[t]) && RequestOnward(s1.requests[t], s2.requests[t]);
    }
  }

  // Edits that leave the lists of keys alone.

  /** The same requests with the same lists, each perhaps in another phase. */
  predicate SameLists(p: Profile, s: State, s': State) {
    && s'.attempts == s.attempts && s'.requests.Keys == s.requests.Keys && s'.keys.Keys == s.keys.Keys
    && forall t :: t in s.requests ==>
         s'.requests[t].ids == s.requests[t].ids && s'.requests[t].count == s.requests[t].count
           && RequestGood(p, s'.requests[t])
  }

  lemma SameListsBalanced(p: Profile, s: State, s': State)
    requires Balanced(p, s) && SameLists(p, s, s')
    ensures Balanced(p, s')
  {
    TotalSame(s.requests, s'.requests);
  }

  lemma SameListsKeys(p: Profile, s: State, s': State)
    requires KeysGood(s) && SameLists(p, s, s')
    requires forall t, id :: Names(s, t, id) && id in s.keys && KeyGood(s.requests[t], s.keys[id]) ==>
      KeyGood(s'.requests[t], s'.keys[id])
    ensures KeysGood(s')
  {
    forall t, id | Names(s', t, id) ensures id in s'.keys && KeyGood(s'.requests[t], s'.keys[id]) {
      assert Names(s, t, id);
    }
    forall id | id in s'.keys ensures exists t :: Names(s', t, id) {
      var t :| Names(s, t, id);
      assert Names(s', t, id);
    }
  }

  lemma SameListsGood(p: Profile, s: State, s': State)
    requires ListsGood(p, s) && SameLists(p, s, s')
    ensures ListsGood(p, s')
  {
    forall t, u, id | Names(s', t, id) && Names(s', u, id) ensures t == u { assert Names(s, t, id) && Names(s, u, id); }
  }

  lemma SameListsInv(p: Profile, s: State, s': State)
    requires Inv(p, s) && SameLists(p, s, s')
    requires forall t, id :: Names(s, t, id) && id in s.keys && KeyGood(s.requests[t], s.keys[id]) ==>
      KeyGood(s'.requests[t], s'.keys[id])
    ensures Inv(p, s')
  {
    hide Balanced, ListsGood, KeysGood, SameLists, KeyGood;
    SameListsBalanced(p, s, s');
    SameListsKeys(p, s, s');
    SameListsGood(p, s, s');
  }

  lemma ExpiringKey(q: Request, k: LocalKey, now: Time)
    requires q.phase != Phase.Pending && KeyGood(q, k)
    ensures KeyGood(q, if Due(k, now) then Ended(k, KeyState.Expired) else k)
  {
  }

  lemma ExpiringKeeps(p: Profile, s: State, now: Time)
    requires Inv(p, s) && NonePending(s)
    ensures Inv(p, Expiring(s, now)) && NonePending(Expiring(s, now)) && Forward(s, Expiring(s, now))
  {
    var s' := Expiring(s, now);
    assert SameLists(p, s, s') by { hide Balanced, KeysGood; }
    assert Forward(s, s') by { hide Inv; }
    forall t, id | Names(s, t, id) && id in s.keys && KeyGood(s.requests[t], s.keys[id])
      ensures KeyGood(s'.requests[t], s'.keys[id]) {
      hide Inv, SameLists, Forward;
      ExpiringKey(s.requests[t], s.keys[id], now);
    }
    hide Inv, SameLists, Names, KeyGood, Forward;
    SameListsInv(p, s, s');
  }

  lemma PendingListed(p: Profile, s: State, t: KeyID, id: KeyID)
    requires ListsGood(p, s) && Names(s, t, id)
    ensures id in PendingIDs(s) <==> s.requests[t].phase == Phase.Pending
  {
    if id in PendingIDs(s) {
      var u, i :| u in s.requests && s.requests[u].phase == Phase.Pending && 0 <= i < |s.requests[u].ids|
        && s.requests[u].ids[i] == id;
      assert Names(s, u, id);
    }
    if s.requests[t].phase == Phase.Pending {
      var i :| 0 <= i < |s.requests[t].ids| && s.requests[t].ids[i] == id;
    }
  }

  lemma RecoveredKey(p: Profile, s: State, t: KeyID, id: KeyID)
    requires ListsGood(p, s) && Names(s, t, id) && id in s.keys && KeyGood(s.requests[t], s.keys[id])
    ensures KeyGood(Recovered(s).requests[t], Recovered(s).keys[id]) && KeyOnward(s.keys[id], Recovered(s).keys[id])
  {
    PendingListed(p, s, t, id);
    hide ListsGood, PendingIDs;
  }

  lemma RecoveredLists(p: Profile, s: State)
    requires ListsGood(p, s)
    ensures SameLists(p, s, Recovered(s)) && NonePending(Recovered(s))
  {
  }

  lemma RecoveredForward(p: Profile, s: State)
    requires ListsGood(p, s) && KeysGood(s)
    ensures Forward(s, Recovered(s))
  {
    forall id | id in s.keys ensures id in Recovered(s).keys && KeyOnward(s.keys[id], Recovered(s).keys[id]) {
      var t :| Names(s, t, id);
      RecoveredKey(p, s, t, id);
    }
    hide KeysGood, ListsGood, KeyOnward;
  }

  lemma RecoveredKeeps(p: Profile, s: State)
    requires Inv(p, s)
    ensures Inv(p, Recovered(s)) && NonePending(Recovered(s)) && Forward(s, Recovered(s))
  {
    hide Balanced, ListsGood, KeysGood, SameLists, Forward, NonePending, Recovered;
    RecoveredLists(p, s);
    RecoveredForward(p, s);
    forall t, id | Names(s, t, id) && id in s.keys && KeyGood(s.requests[t], s.keys[id])
      ensures KeyGood(Recovered(s).requests[t], Recovered(s).keys[id]) {
      RecoveredKey(p, s, t, id);
    }
    SameListsInv(p, s, Recovered(s));
  }

  // Edits of one request and its keys.

  /** s' differs from s in request t, its keys, and other keys only by new ones. */
  ghost predicate OnlyRequest(s: State, s': State, t: KeyID) {
    && t in s'.requests && s'.requests - {t} == s.requests - {t}
    && (forall u, id :: u != t && Names(s, u, id) && id in s.keys ==> id in s'.keys && s'.keys[id] == s.keys[id])
  }

  /** The keys of s' are those of s and those request t lists now. */
  ghost predicate KeysOf(s: State, s': State, t: KeyID)
    requires t in s'.requests
  {
    && s'.keys.Keys == s.keys.Keys + Elements(s'.requests[t].ids)
    && (t in s.requests ==> forall id :: Names(s, t, id) ==> Names(s', t, id))
  }

  lemma OneLists(p: Profile, s: State, s': State, t: KeyID)
    requires ListsGood(p, s) && OnlyRequest(s, s', t) && RequestGood(p, s'.requests[t])
    requires forall u, id :: u != t && Names(s, u, id) ==> !Names(s', t, id)
    ensures ListsGood(p, s')
  {
    forall u | u in s'.requests && u != t ensures u in s.requests && s'.requests[u] == s.requests[u] {
      OtherRequest(s, s', t, u);
    }
    forall u, v, id | Names(s', u, id) && Names(s', v, id) ensures u == v {
      if u != t { assert Names(s, u, id); }
      if v != t { assert Names(s, v, id); }
    }
  }

  lemma OtherRequest(s: State, s': State, t: KeyID, u: KeyID)
    requires OnlyRequest(s, s', t) && u != t
    ensures u in s'.requests <==> u in s.requests
    ensures u in s.requests ==> s'.requests[u] == s.requests[u]
  {
    assert u in s'.requests <==> u in s'.requests - {t};
    assert u in s.requests <==> u in s.requests - {t};
    if u in s.requests { assert (s.requests - {t})[u] == s.requests[u] && (s'.requests - {t})[u] == s'.requests[u]; }
  }

  lemma OneKeys(s: State, s': State, t: KeyID)
    requires KeysGood(s) && OnlyRequest(s, s', t) && KeysOf(s, s', t)
    requires forall id :: Names(s', t, id) && id in s'.keys ==> KeyGood(s'.requests[t], s'.keys[id])
    ensures KeysGood(s')
  {
    forall u, id | Names(s', u, id) ensures id in s'.keys && KeyGood(s'.requests[u], s'.keys[id]) {
      if u != t {
        OtherRequest(s, s', t, u);
        assert Names(s, u, id);
      } else {
        Listing(s', t, id);
      }
    }
    forall id | id in s'.keys ensures exists u :: Names(s', u, id) {
      if id in s.keys {
        var u :| Names(s, u, id);
        if u != t { OtherRequest(s, s', t, u); }
        assert Names(s', u, id);
      } else {
        Listing(s', t, id);
        assert Names(s', t, id);
      }
    }
  }

  lemma Listing(s: State, t: KeyID, id: KeyID)
    requires t in s.requests
    ensures Names(s, t, id) <==> id in Elements(s.requests[t].ids)
  {
    if Names(s, t, id) { var i :| 0 <= i < |s.requests[t].ids| && s.requests[t].ids[i] == id; }
  }

  lemma OneBalanced(p: Profile, s: State, s': State, t: KeyID)
    requires Balanced(p, s) && OnlyRequest(s, s', t) && s'.attempts <= p.capacity
    requires s'.attempts == s.attempts + s'.requests[t].count - if t in s.requests then s.requests[t].count else 0
    ensures Balanced(p, s')
  {
    TotalSplit(s'.requests, t);
    if t in s.requests { TotalSplit(s.requests, t); } else { assert s.requests - {t} == s.requests; }
  }

  // The intent.

  lemma IntendedOnly(p: Profile, s: State, n: nat, ids: seq<KeyID>, now: Time, token: KeyID)
    requires token !in s.requests && forall i :: 0 <= i < |ids| ==> ids[i] !in s.keys
    ensures var s' := Intended(p, s, n, ids, now, token);
      OnlyRequest(s, s', token) && KeysOf(s, s', token)
  {
    var s' := Intended(p, s, n, ids, now, token);
    assert s'.requests - {token} == s.requests - {token};
  }

  lemma IntendedForward(p: Profile, s: State, n: nat, ids: seq<KeyID>, now: Time, token: KeyID)
    requires token !in s.requests && forall i :: 0 <= i < |ids| ==> ids[i] !in s.keys
    ensures Forward(s, Intended(p, s, n, ids, now, token))
  {
  }

  lemma IntendedKeeps(p: Profile, s: State, n: nat, ids: seq<KeyID>, now: Time, token: KeyID)
    requires Inv(p, s) && token !in s.requests && 1 <= n <= MAX_BATCH && s.attempts + n <= p.capacity
    requires Distinct(ids) && (forall i :: 0 <= i < |ids| ==> ids[i] !in s.keys)
    requires if p.role == MasterSite then ids == [] else |ids| == n
    ensures var s' := Intended(p, s, n, ids, now, token); Inv(p, s') && Forward(s, s')
  {
    var s' := Intended(p, s, n, ids, now, token);
    IntendedOnly(p, s, n, ids, now, token);
    IntendedForward(p, s, n, ids, now, token);
    assert RequestGood(p, s'.requests[token]);
    forall id | Names(s', token, id) && id in s'.keys ensures KeyGood(s'.requests[token], s'.keys[id]) { hide Inv; }
    forall u, id | u != token && Names(s, u, id) ensures !Names(s', token, id) { NamedKnown(s, u, id); }
    assert s'.requests[token].count == n && s'.attempts == s.attempts + n;
    hide Balanced, ListsGood, KeysGood, OnlyRequest, KeysOf, Forward, Intended, Names;
    OneBalanced(p, s, s', token);
    OneLists(p, s, s', token);
    OneKeys(s, s', token);
  }

  lemma NamedKnown(s: State, t: KeyID, id: KeyID)
    requires KeysGood(s) && Names(s, t, id)
    ensures id in s.keys && KeyGood(s.requests[t], s.keys[id])
  {
  }

  // The outcome.

  /** Changing one request's phase and its own keys, no list. */
  lemma PhaseKeeps(p: Profile, s: State, s': State, t: KeyID)
    requires Inv(p, s) && t in s.requests && OnlyRequest(s, s', t) && s'.attempts == s.attempts
      && s'.keys.Keys == s.keys.Keys
    requires s'.requests[t].ids == s.requests[t].ids && s'.requests[t].count == s.requests[t].count
      && RequestGood(p, s'.requests[t])
    requires forall id :: Names(s, t, id) && id in s.keys && KeyGood(s.requests[t], s.keys[id]) ==>
      KeyGood(s'.requests[t], s'.keys[id])
    ensures Inv(p, s')
  {
    forall id | Names(s', t, id) && id in s'.keys ensures KeyGood(s'.requests[t], s'.keys[id]) { NamedKnown(s, t, id); }
    forall u, id | u != t && Names(s, u, id) ensures !Names(s', t, id) { NamedApart(p, s, u, t, id); }
    assert KeysOf(s, s', t) by {
      forall id | id in Elements(s'.requests[t].ids) ensures id in s.keys { Listing(s, t, id); NamedKnown(s, t, id); }
    }
    hide Balanced, ListsGood, KeysGood, OnlyRequest, KeysOf, Names, KeyGood;
    OneBalanced(p, s, s', t);
    OneLists(p, s, s', t);
    OneKeys(s, s', t);
  }

  lemma NamedApart(p: Profile, s: State, t: KeyID, u: KeyID, id: KeyID)
    requires ListsGood(p, s) && Names(s, t, id) && t != u
    ensures !Names(s, u, id)
  {
  }

  /** Edits keys that only request t lists. */
  lemma OwnKeysOnly(p: Profile, s: State, s': State, t: KeyID)
    requires ListsGood(p, s) && t in s.requests && t in s'.requests && s'.requests == s.requests[t := s'.requests[t]]
    requires forall id :: id in s.keys && !Names(s, t, id) ==> id in s'.keys && s'.keys[id] == s.keys[id]
    ensures OnlyRequest(s, s', t)
  {
    assert s'.requests - {t} == s.requests - {t};
    forall u, id | u != t && Names(s, u, id) && id in s.keys ensures id in s'.keys && s'.keys[id] == s.keys[id] {
      NamedApart(p, s, u, t, id);
    }
  }

  lemma DoubtedKeeps(p: Profile, s: State, t: KeyID)
    requires Inv(p, s) && t in s.requests && s.requests[t].phase == Phase.Pending
    ensures Inv(p, Doubted(s, t)) && Forward(s, Doubted(s, t))
    ensures NonePending(s.(requests := s.requests - {t})) ==> NonePending(Doubted(s, t))
  {
    var s' := Doubted(s, t);
    forall id ensures Names(s, t, id) <==> id in Elements(s.requests[t].ids) { Listing(s, t, id); }
    DoubtedForward(s, t);
    DoubtedPending(s, t);
    OwnKeysOnly(p, s, s', t);
    assert RequestGood(p, s.requests[t]);
    forall id | Names(s, t, id) && id in s.keys && KeyGood(s.requests[t], s.keys[id])
      ensures KeyGood(s'.requests[t], s'.keys[id]) {
      hide Inv, OnlyRequest, Forward;
    }
    hide Inv, OnlyRequest, Forward, Names, NonePending;
    PhaseKeeps(p, s, s', t);
  }

  lemma DoubtedPending(s: State, t: KeyID)
    requires t in s.requests
    ensures NonePending(s.(requests := s.requests - {t})) ==> NonePending(Doubted(s, t))
  {
    if NonePending(s.(requests := s.requests - {t})) {
      forall u | u in s.requests && u != t ensures s.requests[u].phase != Phase.Pending {
        assert u in s.requests - {t} && (s.requests - {t})[u] == s.requests[u];
      }
    }
  }

  lemma DoubtedForward(s: State, t: KeyID)
    requires KeysGood(s) && t in s.requests && s.requests[t].phase == Phase.Pending
    ensures Forward(s, Doubted(s, t))
  {
    forall id | id in s.keys ensures KeyOnward(s.keys[id], Doubted(s, t).keys[id]) {
      if id in Elements(s.requests[t].ids) {
        Listing(s, t, id);
        NamedKnown(s, t, id);
      }
    }
    hide KeysGood, KeyOnward;
  }

  lemma {:induction false} BytesFound(keys: seq<Delivery>, i: nat)
    requires Distincts(keys) && i < |keys|
    ensures BytesFor(keys, keys[i].id) == keys[i].material
  {
    if i < |keys| - 1 { BytesFound(keys[..|keys| - 1], i); }
  }

  lemma IDsOf(keys: seq<Delivery>, id: KeyID)
    ensures id in IDs(keys) <==> exists i :: 0 <= i < |keys| && keys[i].id == id
    ensures id in IDs(keys) <==> id in Elements(IDs(keys))
  {
    if id in IDs(keys) { var i :| 0 <= i < |IDs(keys)| && IDs(keys)[i] == id; assert keys[i].id == id; }
    if i :| 0 <= i < |keys| && keys[i].id == id { assert IDs(keys)[i] == id; }
  }

  /** A master's accepted reply: new keys, each with its bytes. */
  predicate NewKeys(s: State, keys: seq<Delivery>) {
    Distincts(keys) && forall i :: 0 <= i < |keys| ==> keys[i].id !in s.keys && |keys[i].material| == KEY_BYTES
  }

  lemma KeptShape(s: State, t: KeyID, keys: seq<Delivery>)
    requires KeysGood(s) && t in s.requests && s.requests[t].ids == [] && NewKeys(s, keys)
    ensures var s' := Kept(s, t, keys);
      OnlyRequest(s, s', t) && KeysOf(s, s', t) && s'.requests[t].ids == IDs(keys) && Distinct(IDs(keys))
  {
    var s' := Kept(s, t, keys);
    assert s.requests[t].ids + IDs(keys) == IDs(keys);
    assert s'.requests - {t} == s.requests - {t};
    forall id ensures id in IDs(keys) <==> id in Elements(IDs(keys)) { IDsOf(keys, id); }
    forall id ensures id in IDs(keys) <==> id in set i | 0 <= i < |keys| :: keys[i].id { IDsOf(keys, id); }
    forall id | id in IDs(keys) ensures id !in s.keys { IDsOf(keys, id); }
  }

  lemma KeptKey(s: State, t: KeyID, keys: seq<Delivery>, id: KeyID)
    requires t in s.requests && NewKeys(s, keys) && id in IDs(keys)
    ensures var s' := Kept(s, t, keys);
      id in s'.keys && KeyGood(s'.requests[t], s'.keys[id]) && s'.keys[id].state == KeyState.Reserved
    ensures exists i :: 0 <= i < |keys| && keys[i] == Delivery(id, Kept(s, t, keys).keys[id].material)
  {
    IDsOf(keys, id);
    var i :| 0 <= i < |keys| && keys[i].id == id;
    BytesFound(keys, i);
  }

  lemma KeptForward(s: State, t: KeyID, keys: seq<Delivery>)
    requires t in s.requests && s.requests[t].phase == Phase.Pending && s.requests[t].ids == [] && NewKeys(s, keys)
    ensures Forward(s, Kept(s, t, keys))
  {
    forall id | id in s.keys ensures id !in IDs(keys) { IDsOf(keys, id); }
  }

  lemma KeptKeeps(p: Profile, s: State, t: KeyID, keys: seq<Delivery>)
    requires Inv(p, s) && p.role == MasterSite && t in s.requests && s.requests[t].phase == Phase.Pending
    requires |keys| == s.requests[t].count && NewKeys(s, keys)
    ensures Inv(p, Kept(s, t, keys)) && Forward(s, Kept(s, t, keys))
    ensures NonePending(s.(requests := s.requests - {t})) ==> NonePending(Kept(s, t, keys))
  {
    var s' := Kept(s, t, keys);
    assert RequestGood(p, s.requests[t]);
    KeptShape(s, t, keys);
    KeptForward(s, t, keys);
    KeptPending(s, t, keys);
    assert RequestGood(p, s'.requests[t]);
    forall id | Names(s', t, id) && id in s'.keys ensures KeyGood(s'.requests[t], s'.keys[id]) {
      KeptKey(s, t, keys, id);
    }
    forall u, id | u != t && Names(s, u, id) ensures !Names(s', t, id) {
      NamedKnown(s, u, id);
      IDsOf(keys, id);
    }
    hide Balanced, ListsGood, KeysGood, OnlyRequest, KeysOf, Names, KeyGood, NonePending, Forward;
    OneBalanced(p, s, s', t);
    OneLists(p, s, s', t);
    OneKeys(s, s', t);
  }

  lemma KeptPending(s: State, t: KeyID, keys: seq<Delivery>)
    requires t in s.requests
    ensures NonePending(s.(requests := s.requests - {t})) ==> NonePending(Kept(s, t, keys))
  {
    if NonePending(s.(requests := s.requests - {t})) {
      forall u | u in s.requests && u != t ensures s.requests[u].phase != Phase.Pending {
        assert u in s.requests - {t} && (s.requests - {t})[u] == s.requests[u];
      }
    }
  }

  // Consumption.

  lemma ConsumedForward(s: State, t: KeyID)
    requires t in s.requests && s.requests[t].phase == Phase.Stored && forall i :: 0 <= i < |s.requests[t].ids| ==>
      Ready(s, s.requests[t].ids[i])
    ensures Forward(s, AllConsumed(s, t))
  {
  }

  lemma ConsumedKeeps(p: Profile, s: State, t: KeyID)
    requires Inv(p, s) && NonePending(s) && t in s.requests && s.requests[t].phase == Phase.Stored
    requires forall i :: 0 <= i < |s.requests[t].ids| ==> Ready(s, s.requests[t].ids[i])
    ensures Inv(p, AllConsumed(s, t)) && Forward(s, AllConsumed(s, t)) && NonePending(AllConsumed(s, t))
  {
    var s' := AllConsumed(s, t);
    ConsumedForward(s, t);
    OwnKeysOnly(p, s, s', t);
    assert RequestGood(p, s.requests[t]);
    forall id | Names(s, t, id) && id in s.keys && KeyGood(s.requests[t], s.keys[id])
      ensures KeyGood(s'.requests[t], s'.keys[id]) {
      hide Inv, OnlyRequest, Forward;
    }
    hide Inv, OnlyRequest, Forward, Names;
    PhaseKeeps(p, s, s', t);
  }

  lemma RetrievedForward(s: State, t: KeyID)
    requires KeysGood(s) && t in s.requests && s.requests[t].phase == Phase.Pending
    ensures Forward(s, Retrieved(s, t))
  {
    forall id | id in s.keys && id in s.requests[t].ids ensures KeyOnward(s.keys[id], Retrieved(s, t).keys[id]) {
      NamedKnown(s, t, id);
    }
    hide KeysGood;
  }

  lemma RetrievedKeeps(p: Profile, s: State, t: KeyID)
    requires Inv(p, s) && p.role == SlaveSite && t in s.requests && s.requests[t].phase == Phase.Pending
    ensures Inv(p, Retrieved(s, t)) && Forward(s, Retrieved(s, t))
    ensures NonePending(s.(requests := s.requests - {t})) ==> NonePending(Retrieved(s, t))
  {
    var s' := Retrieved(s, t);
    RetrievedForward(s, t);
    RetrievedPending(s, t);
    OwnKeysOnly(p, s, s', t);
    assert RequestGood(p, s.requests[t]);
    forall id | Names(s, t, id) && id in s.keys && KeyGood(s.requests[t], s.keys[id])
      ensures KeyGood(s'.requests[t], s'.keys[id]) {
      hide Inv, OnlyRequest, Forward;
    }
    hide Inv, OnlyRequest, Forward, Names, NonePending;
    PhaseKeeps(p, s, s', t);
  }

  lemma RetrievedPending(s: State, t: KeyID)
    requires t in s.requests
    ensures NonePending(s.(requests := s.requests - {t})) ==> NonePending(Retrieved(s, t))
  {
    if NonePending(s.(requests := s.requests - {t})) {
      forall u | u in s.requests && u != t ensures s.requests[u].phase != Phase.Pending {
        assert u in s.requests - {t} && (s.requests - {t})[u] == s.requests[u];
      }
    }
  }

  function Invalidated(s: State, id: KeyID): State
    requires id in s.keys
  {
    s.(keys := s.keys[id := Ended(s.keys[id], KeyState.Invalid)])
  }

  lemma InvalidatedKeeps(p: Profile, s: State, id: KeyID)
    requires Inv(p, s) && NonePending(s) && id in s.keys && !s.keys[id].state.Terminal()
    ensures Inv(p, Invalidated(s, id)) && Forward(s, Invalidated(s, id)) && NonePending(Invalidated(s, id))
  {
    var s' := Invalidated(s, id);
    assert SameLists(p, s, s') by { hide Balanced, KeysGood; }
    assert Forward(s, s') by { hide Inv; }
    forall t, x | Names(s, t, x) && x in s.keys && KeyGood(s.requests[t], s.keys[x])
      ensures KeyGood(s'.requests[t], s'.keys[x]) {
      hide Inv, SameLists, Forward;
    }
    hide Inv, SameLists, Names, KeyGood, Forward;
    SameListsInv(p, s, s');
  }

  // What the books say.

  /** The site never holds more keys than it asked for, nor asks for more than its capacity; it keeps bytes
      only of reserved keys of stored reservations. */
  lemma Books(p: Profile, s: State)
    requires Inv(p, s)
    ensures |s.keys| <= s.attempts == Total(s.requests) && s.attempts <= p.capacity
    ensures forall id :: id in s.keys && s.keys[id].material != [] ==>
      s.keys[id].state == KeyState.Reserved && p.role == MasterSite && exists t ::
        Names(s, t, id) && s.requests[t].phase == Phase.Stored
  {
    ListedCounted(s.requests) by {
      forall t | t in s.requests ensures |s.requests[t].ids| <= s.requests[t].count {
        assert RequestGood(p, s.requests[t]);
      }
    }
    KeysListed(s);
    SubsetSize(s.keys.Keys, Listed(s.requests));
    assert |s.keys.Keys| == |s.keys|;
    forall id | id in s.keys && s.keys[id].material != []
      ensures s.keys[id].state == KeyState.Reserved && p.role == MasterSite && exists t ::
        Names(s, t, id) && s.requests[t].phase == Phase.Stored {
      var t :| Names(s, t, id);
      assert KeyGood(s.requests[t], s.keys[id]) && RequestGood(p, s.requests[t]);
    }
  }

  lemma KeysListed(s: State)
    requires KeysGood(s)
    ensures s.keys.Keys <= Listed(s.requests)
  {
    forall id | id in s.keys ensures id in Listed(s.requests) {
      var t :| Names(s, t, id);
      var i :| 0 <= i < |s.requests[t].ids| && s.requests[t].ids[i] == id;
    }
  }
}
