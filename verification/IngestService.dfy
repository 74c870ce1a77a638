/** What a site promises its recipient: when a request succeeds, with which keys, for how long, and which error is
    reported otherwise. All of it is said of the calls as a whole, from the first check to the last save. */
module IngestService {
  import opened Core
  import opened Uuid
  import opened Lifecycle
  import opened Tokens
  import opened IngestState
  import opened IngestInvariant
  import opened IngestRuns

  // Time.

  /** The key is still to be handed out. */
  predicate Unspent(st: KeyState) { st == KeyState.Available || st == KeyState.Reserved }

  predicate Overdue(k: LocalKey, now: Time) { Unspent(k.state) && k.expires <= now }

  predicate SomeOverdue(s: State, now: Time) { exists id :: id in s.keys && Overdue(s.keys[id], now) }

  /** Time has ended exactly the keys whose time was up, and taken their bytes. */
  predicate AgedTo(keys: map<KeyID, LocalKey>, keys': map<KeyID, LocalKey>, now: Time) {
    && keys'.Keys == keys.Keys
    && forall id :: id in keys ==>
         keys'[id] == if Unspent(keys[id].state) && keys[id].expires <= now
           then LocalKey([], KeyState.Expired, keys[id].created, keys[id].expires) else keys[id]
  }

  /** How a save left a process and its journal. */
  predicate SavedAs(site: Site, s': State, site': Site, f: Fault) {
    && site'.s == s' && (site'.broken <==> f != Saves)
    && site'.disk == if f == FailsOld then site.disk else s'
  }

  /** A sweep at a serving site ends exactly the keys whose time is up, and saves only when there are any. */
  lemma ExpireIs(site: Site, now: Time, f: Fault)
    requires !site.broken
    ensures var site' := Expire(site, now, f);
      && AgedTo(site.s.keys, site'.s.keys, now) && site'.s == site.s.(keys := site'.s.keys)
      && (if SomeOverdue(site.s, now) then SavedAs(site, site'.s, site', f) else site' == site)
  {
    DueIs(site.s, now);
    if !SomeOverdue(site.s, now) {
      forall id | id in site.s.keys ensures !Overdue(site.s.keys[id], now) {}
    }
  }

  lemma DueIs(s: State, now: Time)
    ensures AnyDue(s, now) <==> SomeOverdue(s, now)
    ensures AgedTo(s.keys, Expiring(s, now).keys, now)
  {
    forall id | id in s.keys ensures Due(s.keys[id], now) <==> Overdue(s.keys[id], now) {}
  }

  // Refusals before the provider is called.

  /** Why a call is turned away at the door, if it is: a broken process, the wrong pair or role, or a sweep that could
      not be saved. */
  function Turned(p: Profile, site: Site, a: Association, role: SiteRole, now: Time, f: Fault): Option<Error> {
    if site.broken then Some(Error.Journal)
    else if a != p.pair || p.role != role then Some(Unauthorized)
    else if SomeOverdue(site.s, now) && f != Saves then Some(Error.Journal)
    else None
  }

  lemma CheckIs(p: Profile, site: Site, a: Association, role: SiteRole, now: Time, f: Fault)
    ensures var (site1, r) := Check(p, site, a, role, now, f);
      && r == (match Turned(p, site, a, role, now, f) case None => Ok(()) case Some(e) => Err(e))
      && (r.Ok? ==> !site1.broken && AgedTo(site.s.keys, site1.s.keys, now) && site1.s == site.s.(keys := site1.s.keys))
  {
    if !site.broken { ExpireIs(site, now, f); }
    hide Expire;
  }

  /** Why no intent is written: the batch is not of 1 to 128 keys, or exceeds what the site may ever ask for, or the
      save fails. */
  function Unbegun(p: Profile, s: State, n: int, f: Fault): Option<Error> {
    if !(1 <= n <= 128) then Some(Error.Invalid)
    else if s.attempts + n > p.capacity then Some(Capacity)
    else if f != Saves then Some(Error.Journal)
    else None
  }

  /** The intent in the journal: a new request for n keys that lives as long as the profile says from its beginning,
      counted, with an empty record for every key named. */
  predicate Begun(p: Profile, s: State, s': State, n: nat, ids: seq<KeyID>, now: Time, token: KeyID) {
    && token !in s.requests && s'.attempts == s.attempts + n
    && s'.requests == s.requests[token := Request(ids, n, Phase.Pending, now, now + p.lifetime)]
    && s'.keys.Keys == s.keys.Keys + (set i | 0 <= i < |ids| :: ids[i])
    && (forall i :: 0 <= i < |ids| ==> s'.keys[ids[i]] == LocalKey([], KeyState.Reserved, now, now + p.lifetime))
    && forall id :: id in s.keys && id !in ids ==> s'.keys[id] == s.keys[id]
  }

  lemma BeginIs(p: Profile, site: Site, n: int, ids: seq<KeyID>, now: Time, draw: nat -> KeyID, f: Fault)
    requires Injective(draw)
    ensures var (site1, r) := Begin(p, site, n, ids, now, draw, f);
      match Unbegun(p, site.s, n, f)
      case Some(e) => r == Err(e)
      case None =>
        && r.Ok? && site1.broken == site.broken && site1.disk == site1.s
        && Begun(p, site.s, site1.s, n, ids, now, r.value)
  {
  }

  // Replies.

  /** The provider answered with n distinct keys, well formed and of full length. */
  predicate Full(reply: Result<seq<Delivery>>, n: int) {
    && reply.Ok? && |reply.value| == n
    && (forall i, j :: 0 <= i < j < n ==> reply.value[i].id != reply.value[j].id)
    && forall i :: 0 <= i < n ==> ValidID(reply.value[i].id) && |reply.value[i].material| == 32
  }

  /** None of the keys was known at the site. */
  predicate Unknown(reply: Result<seq<Delivery>>, s: State) {
    reply.Ok? ==> forall i :: 0 <= i < |reply.value| ==> reply.value[i].id !in s.keys
  }

  predicate GoodReply(s: State, reply: Result<seq<Delivery>>, q: Request, now: Time) {
    Full(reply, q.count) && Unknown(reply, s) && now < q.expires
  }

  /** The reply in the journal: the request lists its keys, in the order given, and each is there with its bytes, for as
      long as the request lives. */
  predicate Granted(s: State, s': State, token: KeyID, ds: seq<Delivery>)
    requires token in s.requests
  {
    var q := s.requests[token];
    && s'.attempts == s.attempts
    && s'.requests == s.requests[token := q.(ids := q.ids + IDs(ds), phase := Phase.Stored)]
    && s'.keys.Keys == s.keys.Keys + (set i | 0 <= i < |ds| :: ds[i].id)
    && (forall i :: 0 <= i < |ds| ==>
          s'.keys[ds[i].id] == LocalKey(ds[i].material, KeyState.Reserved, q.started, q.expires))
    && forall id :: id in s.keys && (forall i :: 0 <= i < |ds| ==> ds[i].id != id) ==> s'.keys[id] == s.keys[id]
  }

  lemma KeptIs(s: State, token: KeyID, ds: seq<Delivery>)
    requires token in s.requests && Distincts(ds)
    ensures Granted(s, IngestState.Kept(s, token, ds), token, ds)
  {
    var s' := IngestState.Kept(s, token, ds);
    forall i | 0 <= i < |ds| ensures s'.keys[ds[i].id]
      == LocalKey(ds[i].material, KeyState.Reserved, s.requests[token].started, s.requests[token].expires) {
      IDsOf(ds, ds[i].id);
      BytesFound(ds, i);
    }
    forall id | id in s.keys && (forall i :: 0 <= i < |ds| ==> ds[i].id != id) ensures s'.keys[id] == s.keys[id] {
      IDsOf(ds, id);
    }
  }

  /** The request is marked uncertain, its keys end without their bytes, and everything else stays. */
  predicate Suspect(s: State, s': State, token: KeyID)
    requires token in s.requests
  {
    var q := s.requests[token];
    && s'.attempts == s.attempts && s'.requests == s.requests[token := q.(phase := Phase.Uncertain)]
    && s'.keys.Keys == s.keys.Keys
    && forall id :: id in s.keys ==>
         s'.keys[id] == if id in q.ids then s.keys[id].(material := [], state := KeyState.Invalid) else s.keys[id]
  }

  /** A complete reply in time is kept, and any other leaves the request uncertain. */
  lemma EndReserveIs(site: Site, token: KeyID, reply: Result<seq<Delivery>>, now: Time, f: Fault)
    requires token in site.s.requests && !site.broken
    ensures var (site1, r) := EndReserve(site, token, reply, now, f);
      if GoodReply(site.s, reply, site.s.requests[token], now) then
        && Granted(site.s, site1.s, token, reply.value) && SavedAs(site, site1.s, site1, f)
        && r == if f == Saves then Ok(Reservation(token, site.s.requests[token].ids + IDs(reply.value)))
           else Err(Error.Journal)
      else
        && Suspect(site.s, site1.s, token) && SavedAs(site, site1.s, site1, f)
        && r == Err(if f == Saves then Unavailable else Error.Journal)
  {
    var q := site.s.requests[token];
    assert (reply.Ok? && Acceptable(site.s, q, reply.value, false, now)) <==> GoodReply(site.s, reply, q, now) by {
      hide ValidID;
    }
    if GoodReply(site.s, reply, q, now) { KeptIs(site.s, token, reply.value); }
    hide Acceptable, GoodReply, IngestState.Kept, Granted;
  }

  // Reservations.

  /** A reservation of these keys is in the journal, to live for the profile's lifetime from its beginning. */
  predicate Reserved(p: Profile, site: Site, site': Site, res: Reservation, ds: seq<Delivery>, at: Course) {
    && !site'.broken && site'.disk == site'.s && site'.s.attempts == site.s.attempts + |ds|
    && res.ids == IDs(ds) && res.token !in site.s.requests
    && site'.s.requests == site.s.requests[res.token :=
         Request(res.ids, |ds|, Phase.Stored, at.begun, at.begun + p.lifetime)]
    && forall i :: 0 <= i < |ds| ==>
         && ds[i].id in site'.s.keys
         && site'.s.keys[ds[i].id] == LocalKey(ds[i].material, KeyState.Reserved, at.begun, at.begun + p.lifetime)
  }

  /** What asking for n keys comes to: turned away or not begun, as said above; granted exactly when the provider
      answers in full, with keys not known here, before the request's life is over, and the journal takes it; then
      with exactly the provider's keys, in its order. Otherwise the keys are unavailable, or the journal failed. */
  lemma ReserveIs(p: Profile, site: Site, a: Association, n: int, reply: Result<seq<Delivery>>, draw: nat -> KeyID,
        at: Course)
    requires Injective(draw)
    ensures var (site', r) := ReserveKeys(p, site, a, n, reply, draw, at);
      match Turned(p, site, a, MasterSite, at.checked, at.expiry)
      case Some(e) => r == Err(e)
      case None => match Unbegun(p, site.s, n, at.intent)
        case Some(e) => r == Err(e)
        case None =>
          if Full(reply, n) && Unknown(reply, site.s) && at.replied < at.begun + p.lifetime then
            if at.outcome == Saves then r.Ok? && Reserved(p, site, site', r.value, reply.value, at)
            else r == Err(Error.Journal)
          else r == Err(if at.outcome == Saves then Unavailable else Error.Journal)
  {
    var (site1, ok) := Check(p, site, a, MasterSite, at.checked, at.expiry);
    CheckIs(p, site, a, MasterSite, at.checked, at.expiry);
    if ok.Ok? {
      BeginIs(p, site1, n, [], at.begun, draw, at.intent);
      var (site2, token) := Begin(p, site1, n, [], at.begun, draw, at.intent);
      if token.Ok? {
        EndReserveIs(site2, token.value, reply, at.replied, at.outcome);
        UnknownSame(reply, site.s, site2.s);
        if Full(reply, n) { GrantedIsReserved(p, site, site1, site2, token.value, reply, n, at); }
      }
    }
    hide Check, Begin, EndReserve, Granted, Begun, Full, Unknown, Reserved, AgedTo;
  }

  lemma UnknownSame(reply: Result<seq<Delivery>>, s: State, s': State)
    requires s'.keys.Keys == s.keys.Keys
    ensures Unknown(reply, s') <==> Unknown(reply, s)
  {
  }

  lemma GrantedIsReserved(p: Profile, site: Site, site1: Site, site2: Site, token: KeyID,
        reply: Result<seq<Delivery>>, n: nat, at: Course)
    requires site1.s == site.s.(keys := site1.s.keys) && !site2.broken
    requires Begun(p, site1.s, site2.s, n, [], at.begun, token)
    requires Full(reply, n)
    ensures var (site', r) := EndReserve(site2, token, reply, at.replied, at.outcome);
      Granted(site2.s, site'.s, token, reply.value) && SavedAs(site2, site'.s, site', at.outcome) && r.Ok?
      && r == Ok(Reservation(token, site2.s.requests[token].ids + IDs(reply.value))) && at.outcome == Saves ==>
        Reserved(p, site, site', r.value, reply.value, at)
  {
    hide EndReserve, ValidID;
    assert [] + IDs(reply.value) == IDs(reply.value);
    var (site', r) := EndReserve(site2, token, reply, at.replied, at.outcome);
    if Granted(site2.s, site'.s, token, reply.value) {
      assert site2.s.requests[token := site'.s.requests[token]] == site1.s.requests[token := site'.s.requests[token]];
    }
  }

  /** The keys of a stored request are there at both moments of the call. */
  predicate AllThere(s: State, token: KeyID, t0: Time, t1: Time) {
    && token in s.requests && s.requests[token].phase == Phase.Stored && t1 < s.requests[token].expires
    && forall i :: 0 <= i < |s.requests[token].ids| ==>
         var id := s.requests[token].ids[i];
         id in s.keys && s.keys[id].state == KeyState.Reserved && |s.keys[id].material| == 32 && t0 < s.keys[id].expires
  }

  /** What consuming a reservation comes to: turned away as said above; handed out exactly while the request is stored,
      not over, and all its keys are there, once the journal took it; all of them then, with their bytes, in order. */
  lemma ConsumeIs(p: Profile, site: Site, a: Association, token: KeyID, t0: Time, fe: Fault, t1: Time, f: Fault)
    ensures var (site', r) := Consume(p, site, a, token, t0, fe, t1, f);
      match Turned(p, site, a, MasterSite, t0, fe)
      case Some(e) => r == Err(e)
      case None =>
        if !AllThere(site.s, token, t0, t1) then r == Err(Unavailable)
        else if f != Saves then r == Err(Error.Journal)
        else
          && r.Ok? && HeldBytes(site.s, site.s.requests[token].ids, r.value)
          && !site'.broken && site'.disk == site'.s && AllGone(site.s, site'.s, token)
  {
    var (site1, ok) := Check(p, site, a, MasterSite, t0, fe);
    CheckIs(p, site, a, MasterSite, t0, fe);
    if ok.Ok? {
      ThereAged(site.s, site1.s, token, t0, t1);
      if AllThere(site.s, token, t0, t1) { AgedBytes(site.s, site1.s, token, t0, t1); }
    }
    hide Check, AgedTo, AllThere, HeldBytes, AllGone, AllConsumed, Ready;
  }

  predicate HeldBytes(s: State, ids: seq<KeyID>, ds: seq<Delivery>) {
    && |ds| == |ids|
    && forall i :: 0 <= i < |ids| ==> ids[i] in s.keys && ds[i] == Delivery(ids[i], s.keys[ids[i]].material)
  }

  /** The request is consumed, and its keys have gone without their bytes. */
  predicate AllGone(s: State, s': State, token: KeyID)
    requires token in s.requests
  {
    && s'.attempts == s.attempts && s'.requests == s.requests[token := s.requests[token].(phase := Phase.Consumed)]
    && s'.keys.Keys == s.keys.Keys
    && forall id :: id in s.keys && id in s.requests[token].ids ==>
         s'.keys[id].state == KeyState.Consumed && s'.keys[id].material == []
  }

  lemma ThereAged(s: State, s1: State, token: KeyID, t0: Time, t1: Time)
    requires AgedTo(s.keys, s1.keys, t0) && s1 == s.(keys := s1.keys)
    ensures AllThere(s, token, t0, t1) <==>
      && token in s1.requests && s1.requests[token].phase == Phase.Stored && t1 < s1.requests[token].expires
      && forall i :: 0 <= i < |s1.requests[token].ids| ==> Ready(s1, s1.requests[token].ids[i])
  {
    if token in s.requests {
      var ids := s.requests[token].ids;
      forall i | 0 <= i < |ids| ensures Ready(s1, ids[i]) <==>
        && ids[i] in s.keys && s.keys[ids[i]].state == KeyState.Reserved && |s.keys[ids[i]].material| == 32
        && t0 < s.keys[ids[i]].expires {
      }
    }
  }

  lemma AgedBytes(s: State, s1: State, token: KeyID, t0: Time, t1: Time)
    requires AgedTo(s.keys, s1.keys, t0) && s1 == s.(keys := s1.keys) && AllThere(s, token, t0, t1)
    ensures forall i :: 0 <= i < |s1.requests[token].ids| ==> s1.requests[token].ids[i] in s1.keys
    ensures HeldBytes(s, s.requests[token].ids, Held(s1, s1.requests[token].ids))
    ensures AllGone(s, AllConsumed(s1, token), token)
  {
  }

  // Retrieval by name.

  /** The first name that will not do decides: malformed or repeated, or asked for before. */
  predicate NamesOk(s: State, ids: seq<KeyID>) {
    && Distinct(ids) && forall i :: 0 <= i < |ids| ==> ValidID(ids[i]) && ids[i] !in s.keys
  }

  predicate Well(ids: seq<KeyID>, i: nat)
    requires i < |ids|
  {
    ValidID(ids[i]) && ids[i] !in ids[..i]
  }

  /** The first unusable name from position i on decides the error: it is ill formed or repeated, or was asked for. */
  predicate Refuses(s: State, ids: seq<KeyID>, i: nat, e: Error) {
    exists k :: i <= k < |ids| && FirstBad(s, ids, i, k) && e == if Well(ids, k) then Unavailable else Error.Invalid
  }

  predicate FirstBad(s: State, ids: seq<KeyID>, i: nat, k: nat)
    requires k < |ids|
  {
    !(Well(ids, k) && ids[k] !in s.keys) && forall m :: i <= m < k ==> Well(ids, m) && ids[m] !in s.keys
  }

  lemma {:induction false} AskedIs(s: State, ids: seq<KeyID>, i: nat)
    requires i <= |ids|
    ensures Asked(s, ids, i).Ok? <==> forall k :: i <= k < |ids| ==> Well(ids, k) && ids[k] !in s.keys
    ensures Asked(s, ids, i).Err? ==> Refuses(s, ids, i, Asked(s, ids, i).error)
    decreases |ids| - i
  {
    hide ValidID;
    if i < |ids| {
      AskedIs(s, ids, i + 1);
      assert Well(ids, i) <==> ValidID(ids[i]) && ids[i] !in ids[..i];
      if !(Well(ids, i) && ids[i] !in s.keys) {
        assert FirstBad(s, ids, i, i);
      } else if Asked(s, ids, i + 1).Err? {
        var k :| i + 1 <= k < |ids| && FirstBad(s, ids, i + 1, k)
          && Asked(s, ids, i + 1).error == if Well(ids, k) then Unavailable else Error.Invalid;
        assert FirstBad(s, ids, i, k);
      }
    }
  }

  lemma NamesAsked(s: State, ids: seq<KeyID>)
    ensures Asked(s, ids, 0).Ok? <==> NamesOk(s, ids)
    ensures Asked(s, ids, 0).Err? ==> Refuses(s, ids, 0, Asked(s, ids, 0).error)
  {
    hide ValidID;
    AskedIs(s, ids, 0);
    if NamesOk(s, ids) {
      forall k | 0 <= k < |ids| ensures Well(ids, k) {}
    }
    if forall k :: 0 <= k < |ids| ==> Well(ids, k) {
      forall i, j | 0 <= i < j < |ids| ensures ids[i] != ids[j] {
        assert Well(ids, j) && ids[..j][i] == ids[i];
      }
      forall k | 0 <= k < |ids| ensures ValidID(ids[k]) { assert Well(ids, k); }
    }
  }

  /** Every key of the reply was asked for. */
  predicate Named(reply: Result<seq<Delivery>>, ids: seq<KeyID>) {
    reply.Ok? ==> forall i :: 0 <= i < |reply.value| ==> reply.value[i].id in ids
  }

  /** The keys asked for, in that order, each with the bytes the reply binds to it. */
  predicate Answers(ids: seq<KeyID>, reply: seq<Delivery>, ds: seq<Delivery>) {
    |ds| == |ids| && forall i :: 0 <= i < |ids| ==> ds[i].id == ids[i] && ds[i] in reply
  }

  /** The request and its keys are consumed, and everything else stays. */
  predicate Fetched(s: State, s': State, token: KeyID)
    requires token in s.requests
  {
    var q := s.requests[token];
    && s'.attempts == s.attempts && s'.requests == s.requests[token := q.(phase := Phase.Consumed)]
    && s'.keys.Keys == s.keys.Keys
    && forall id :: id in s.keys ==>
         s'.keys[id] == if id in q.ids then s.keys[id].(state := KeyState.Consumed) else s.keys[id]
  }

  /** A complete reply in time is handed out key by key as asked, and any other leaves the request uncertain. */
  lemma EndRetrieveIs(site: Site, token: KeyID, reply: Result<seq<Delivery>>, now: Time, f: Fault)
    requires token in site.s.requests && !site.broken
    requires var q := site.s.requests[token]; Distinct(q.ids) && |q.ids| == q.count
    ensures var (site1, r) := EndRetrieve(site, token, reply, now, f); var q := site.s.requests[token];
      if Full(reply, q.count) && Named(reply, q.ids) && now < q.expires then
        && Fetched(site.s, site1.s, token) && SavedAs(site, site1.s, site1, f)
        && if f == Saves then r.Ok? && Answers(q.ids, reply.value, r.value) else r == Err(Error.Journal)
      else
        && Suspect(site.s, site1.s, token) && SavedAs(site, site1.s, site1, f)
        && r == Err(if f == Saves then Unavailable else Error.Journal)
  {
    var q := site.s.requests[token];
    assert (reply.Ok? && Acceptable(site.s, q, reply.value, true, now)) <==>
      (Full(reply, q.count) && Named(reply, q.ids) && now < q.expires) by { hide ValidID; }
    if reply.Ok? && Acceptable(site.s, q, reply.value, true, now) { RetrievalMatches(site.s, q, reply.value, now); }
    hide Acceptable, Full, Named;
  }

  /** What asking for keys by name comes to: turned away as said above; no intent for a batch not of 1 to 128 names, for
      a malformed or repeated name, for one asked for before, beyond capacity, or for a failing save; handed out exactly
      when the provider answers all of them in full before the request's life is over and the journal takes it; then
      in the order asked, with the provider's bytes. */
  lemma RetrieveIs(p: Profile, site: Site, a: Association, ids: seq<KeyID>, reply: Result<seq<Delivery>>,
        draw: nat -> KeyID, at: Course)
    requires Injective(draw)
    ensures var (site', r) := ConsumePeerKeys(p, site, a, ids, reply, draw, at);
      match Turned(p, site, a, SlaveSite, at.checked, at.expiry)
      case Some(e) => r == Err(e)
      case None =>
        if !(1 <= |ids| <= 128) then r == Err(Error.Invalid)
        else if !NamesOk(site.s, ids) then r.Err? && Refuses(site.s, ids, 0, r.error)
        else match Unbegun(p, site.s, |ids|, at.intent)
          case Some(e) => r == Err(e)
          case None =>
            if Full(reply, |ids|) && Named(reply, ids) && at.replied < at.begun + p.lifetime then
              if at.outcome == Saves then r.Ok? && Answers(ids, reply.value, r.value) else r == Err(Error.Journal)
            else r == Err(if at.outcome == Saves then Unavailable else Error.Journal)
  {
    var (site1, ok) := Check(p, site, a, SlaveSite, at.checked, at.expiry);
    CheckIs(p, site, a, SlaveSite, at.checked, at.expiry);
    if ok.Ok? {
      NamesAsked(site1.s, ids);
      NamesSame(site.s, site1.s, ids);
      if 1 <= |ids| <= MAX_BATCH && Asked(site1.s, ids, 0).Ok? {
        BeginIs(p, site1, |ids|, ids, at.begun, draw, at.intent);
        var (site2, token) := Begin(p, site1, |ids|, ids, at.begun, draw, at.intent);
        if token.Ok? {
          hide Check, Begin, ValidID, Asked;
          EndRetrieveIs(site2, token.value, reply, at.replied, at.outcome);
        }
      }
    }
    hide Check, Begin, EndRetrieve, Full, AgedTo, Asked, NamesOk, Answers, Named, Suspect, Fetched, Refuses;
  }

  lemma NamesSame(s: State, s1: State, ids: seq<KeyID>)
    requires s1.keys.Keys == s.keys.Keys
    ensures NamesOk(s1, ids) <==> NamesOk(s, ids)
    ensures forall e :: Refuses(s1, ids, 0, e) <==> Refuses(s, ids, 0, e)
  {
  }

  // Opening, and the rest.

  /** Opening takes what the journal holds: a request that was under way is uncertain and its keys end, whatever was due
      ends too, and all of it is saved once more. Only a journal beyond capacity or a failing save keeps it shut. */
  lemma OpenIs(p: Profile, d: State, now: Time, fe: Fault, f: Fault)
    ensures var site := IngestState.Open(p, d, now, fe, f);
      if d.attempts > p.capacity then site == Site(d, d, true)
      else exists s ::
        && Recovers(d, s)
        && (site.broken <==> (SomeOverdue(s, now) && fe != Saves) || f != Saves)
        && site.s.attempts == d.attempts && site.s.requests == s.requests && AgedTo(s.keys, site.s.keys, now)
        && (!site.broken ==> site.disk == site.s)
  {
    var s := Recovered(d);
    RecoveredIs(d);
    ExpireIs(Site(s, d, false), now, fe);
    hide Expire, Recovered, AgedTo, Recovers, SomeOverdue;
    assert Recovers(d, s);
  }

  /** Requests under way become uncertain and their keys end without bytes; nothing else changes. */
  ghost predicate Recovers(d: State, s: State) {
    && s.attempts == d.attempts && s.requests.Keys == d.requests.Keys && s.keys.Keys == d.keys.Keys
    && (forall t :: t in d.requests ==> s.requests[t] == if d.requests[t].phase == Phase.Pending
          then d.requests[t].(phase := Phase.Uncertain) else d.requests[t])
    && forall id :: id in d.keys ==>
         s.keys[id] == if exists t :: Names(d, t, id) && d.requests[t].phase == Phase.Pending
           then LocalKey([], KeyState.Invalid, d.keys[id].created, d.keys[id].expires) else d.keys[id]
  }

  lemma RecoveredIs(d: State)
    ensures Recovers(d, Recovered(d))
  {
    forall id ensures id in PendingIDs(d) <==> exists t :: Names(d, t, id) && d.requests[t].phase == Phase.Pending {
      if t :| Names(d, t, id) && d.requests[t].phase == Phase.Pending {
        var i :| 0 <= i < |d.requests[t].ids| && d.requests[t].ids[i] == id;
      }
      if id in PendingIDs(d) {
        var t, i :| t in d.requests && d.requests[t].phase == Phase.Pending && 0 <= i < |d.requests[t].ids|
          && d.requests[t].ids[i] == id;
        assert Names(d, t, id);
      }
    }
  }

  /** A known key can be invalidated while the site serves; one that has ended stays as it is. */
  lemma InvalidateIs(site: Site, id: KeyID, f: Fault)
    ensures var (site', r) := Invalidate(site, id, f);
      if site.broken then site' == site && r == Err(Error.Journal)
      else if id !in site.s.keys then site' == site && r == Err(Unavailable)
      else if !Unspent(site.s.keys[id].state) then site' == site && r == Ok(())
      else
        var k := site.s.keys[id];
        && SavedAs(site, site'.s, site', f) && r == (if f == Saves then Ok(()) else Err(Error.Journal))
        && site'.s == site.s.(keys := site.s.keys[id := LocalKey([], KeyState.Invalid, k.created, k.expires)])
  {
  }

  /** The inventory is what the provider offers, as far as the site may still ask for it. */
  lemma InventoryIs(p: Profile, site: Site, a: Association, offer: Option<int>, now: Time, f: Fault)
    ensures var n := Inventory(p, site, a, offer, now, f).1;
      var left := p.capacity - site.s.attempts;
      if Turned(p, site, a, MasterSite, now, f).Some? || offer == None || offer.value < 0 then n == 0
      else n <= offer.value && n <= left && (n == offer.value || n == left)
  {
    CheckIs(p, site, a, MasterSite, now, f);
    hide Check, AgedTo;
  }

  // A reservation over a run.

  /** The request under way, whose reply grants the reservation. */
  function Calling(n: Node): Request
    requires n.calling.Some? && n.calling.value in n.site.s.requests
  {
    n.site.s.requests[n.calling.value]
  }

  /** After the grant the journal has the request, and each key with the bytes of the reply. */
  lemma GrantedBytes(p: Profile, labels: seq<Label>, reply: Result<seq<Delivery>>, now: Time, res: Reservation)
    requires (forall i :: 0 <= i < |labels| ==> labels[i].Fresh()) && Grants(p, Run(p, labels), reply, now, res)
    ensures reply.Ok? && res.ids == IDs(reply.value)
    ensures var q, d := Calling(Run(p, labels)), Run(p, labels + [FinishReserve(reply, now, Saves)]).site.disk;
      && res.token in d.requests && d.requests[res.token] == q.(ids := res.ids, phase := Phase.Stored)
      && forall i :: 0 <= i < |reply.value| ==>
           && res.ids[i] in d.keys
           && d.keys[res.ids[i]] == LocalKey(reply.value[i].material, KeyState.Reserved, q.started, q.expires)
  {
    hide Run, Apply, EndReserve, Inv, ValidID;
    var n, l := Run(p, labels), FinishReserve(reply, now, Saves);
    RunKeeps(p, labels);
    CallServes(p, n);
    LastStep(p, labels, l);
    assert Apply(p, n, l).site == EndReserve(n.site, n.calling.value, reply, now, Saves).0 by {
      GrantApplies(p, n, reply, now, res);
    }
    EndReserveIs(n.site, n.calling.value, reply, now, Saves);
    assert [] + IDs(reply.value) == IDs(reply.value);
  }

  lemma GrantApplies(p: Profile, n: Node, reply: Result<seq<Delivery>>, now: Time, res: Reservation)
    requires Grants(p, n, reply, now, res)
    ensures Apply(p, n, FinishReserve(reply, now, Saves)).site
         == EndReserve(n.site, n.calling.value, reply, now, Saves).0
  {
    hide EndReserve;
  }

  lemma CallServes(p: Profile, n: Node)
    requires NodeGood(p, n) && n.calling.Some? && p.role == MasterSite
    ensures !n.site.broken && n.calling.value in n.site.s.requests && Calling(n).ids == []
  {
    assert RequestGood(p, n.site.s.requests[n.calling.value]);
  }

  /** Whatever happened since, consuming a reservation succeeds exactly while the site serves its pair and saves, the
      reservation was not consumed before, neither moment of the call is past the request's life, which is the
      profile's lifetime from when it began, and none of its keys has ended otherwise. It then hands out what the
      provider granted, key by key, bytes and order included. */
  lemma ReservationHonoured(p: Profile, labels: seq<Label>, reply: Result<seq<Delivery>>, now: Time,
        res: Reservation, more: seq<Label>, a: Association, t0: Time, fe: Fault, t1: Time, f: Fault)
    requires (forall i :: 0 <= i < |labels| ==> labels[i].Fresh()) && forall i :: 0 <= i < |more| ==> more[i].Fresh()
    requires Grants(p, Run(p, labels), reply, now, res)
    requires Run(p, labels + [FinishReserve(reply, now, Saves)] + more).calling == None
    ensures var site := Run(p, labels + [FinishReserve(reply, now, Saves)] + more).site;
      var r, over := Consume(p, site, a, res.token, t0, fe, t1, f).1, Calling(Run(p, labels)).started + p.lifetime;
      && (r.Ok? <==>
           && Turned(p, site, a, MasterSite, t0, fe) == None && f == Saves && t0 < over && t1 < over
           && res.token in site.s.requests && site.s.requests[res.token].phase == Phase.Stored
           && forall i :: 0 <= i < |res.ids| ==>
                res.ids[i] in site.s.keys && site.s.keys[res.ids[i]].state == KeyState.Reserved)
      && (r.Ok? ==> r == reply)
  {
    hide Run, Apply, Consume, Forward, EndReserve, SiteGood, Turned, AllThere, HeldBytes, AllGone;
    var before := labels + [FinishReserve(reply, now, Saves)];
    var n := Run(p, before + more);
    GrantedBytes(p, labels, reply, now, res);
    RunKeeps(p, labels);
    CallLives(p, Run(p, labels));
    RunKeeps(p, before + more);
    JournalMovesForward(p, before, more);
    ConsumeIs(p, n.site, a, res.token, t0, fe, t1, f);
    if !n.site.broken {
      var d := Run(p, before).site.disk;
      StoredStays(p, d, n.site, res, reply.value, Calling(Run(p, labels)), t0, t1);
    } else {
      assert Turned(p, n.site, a, MasterSite, t0, fe) == Some(Error.Journal) by { BrokenTurns(p, n.site, a, t0, fe); }
    }
  }

  lemma CallLives(p: Profile, n: Node)
    requires NodeGood(p, n) && n.calling.Some? && n.calling.value in n.site.s.requests
    ensures Calling(n).expires == Calling(n).started + p.lifetime
  {
    assert RequestGood(p, n.site.s.requests[n.calling.value]);
  }

  lemma BrokenTurns(p: Profile, site: Site, a: Association, now: Time, f: Fault)
    requires site.broken
    ensures Turned(p, site, a, MasterSite, now, f) == Some(Error.Journal)
  {
  }

  lemma StoredStays(p: Profile, d: State, site: Site, res: Reservation, ds: seq<Delivery>, q: Request, t0: Time,
        t1: Time)
    requires SiteGood(p, site, None) && !site.broken && Forward(d, site.disk) && res.ids == IDs(ds)
    requires res.token in d.requests && d.requests[res.token] == q.(ids := res.ids, phase := Phase.Stored)
    requires forall i :: 0 <= i < |ds| ==>
      && res.ids[i] in d.keys
      && d.keys[res.ids[i]] == LocalKey(ds[i].material, KeyState.Reserved, q.started, q.expires)
    ensures AllThere(site.s, res.token, t0, t1) <==>
      && t0 < q.expires && t1 < q.expires
      && res.token in site.s.requests && site.s.requests[res.token].phase == Phase.Stored
      && forall i :: 0 <= i < |res.ids| ==>
           res.ids[i] in site.s.keys && site.s.keys[res.ids[i]].state == KeyState.Reserved
    ensures AllThere(site.s, res.token, t0, t1) ==>
      && site.s.requests[res.token].ids == res.ids
      && forall held :: HeldBytes(site.s, res.ids, held) ==> held == ds
  {
    var s := site.s;
    ListKept(d, site.disk, res.token);
    assert RequestOnward(d.requests[res.token], s.requests[res.token]);
    assert RequestGood(p, s.requests[res.token]);
    if s.requests[res.token].phase == Phase.Stored {
      forall i | 0 <= i < |res.ids| ensures res.ids[i] in s.keys && s.keys[res.ids[i]].expires == q.expires
        && (s.keys[res.ids[i]].state == KeyState.Reserved ==>
              s.keys[res.ids[i]].material == ds[i].material && |ds[i].material| == 32) {
        KeyStays(p, d, s, res.token, res.ids[i]);
      }
      assert res.ids[0] in s.keys;
    }
    hide SiteGood, Forward, RequestGood, RequestOnward;
    forall held | HeldBytes(s, res.ids, held) && AllThere(s, res.token, t0, t1) ensures held == ds {}
  }

  lemma KeyStays(p: Profile, d: State, s: State, token: KeyID, id: KeyID)
    requires Inv(p, s) && Forward(d, s) && id in d.keys && Names(s, token, id)
    requires s.requests[token].phase == Phase.Stored
    ensures id in s.keys && s.keys[id].expires == d.keys[id].expires
    ensures s.keys[id].state == KeyState.Reserved ==>
      s.keys[id].material == d.keys[id].material && |s.keys[id].material| == 32
  {
    assert KeyGood(s.requests[token], s.keys[id]) && KeyOnward(d.keys[id], s.keys[id]);
  }
}
