/** A site of the segmented service: a journal of intents around a provider that must not be asked twice.
    An operation writes its intent, calls the provider, checks the reply and writes the outcome. */
module IngestState {
  import opened Core
  import opened Uuid
  import opened Lifecycle
  import opened Tokens

  datatype Phase = Pending | Stored | Consumed | Uncertain

  datatype Request = Request(ids: seq<KeyID>, count: nat, phase: Phase, started: Time, expires: Time)

  datatype LocalKey = LocalKey(material: Bytes, state: KeyState, created: Time, expires: Time)

  datatype State = State(attempts: nat, requests: map<KeyID, Request>, keys: map<KeyID, LocalKey>)

  datatype SiteRole = MasterSite | SlaveSite

  datatype Profile = Profile(role: SiteRole, pair: Association, lifetime: nat, capacity: nat) {
    predicate Valid() { pair.Valid() && 1 <= capacity <= 100000 }
  }

  /** A process and its journal. Edits are made in place, so a failed save leaves them in `s` as well; the
      process is then broken and serves nothing further. */
  datatype Site = Site(s: State, disk: State, broken: bool)

  const FRESH: State := State(0, map[], map[])

  function Save(site: Site, f: Fault): Site {
    match f
    case Saves => site.(disk := site.s)
    case FailsOld => site.(broken := true)
    case FailsNew => site.(disk := site.s, broken := true)
  }

  function Saved(f: Fault): Result<()> { if f == Saves then Ok(()) else Err(Error.Journal) }

  // Expiry.

  predicate Due(k: LocalKey, now: Time) { !k.state.Terminal() && k.expires <= now }

  function Ended(k: LocalKey, st: KeyState): LocalKey { k.(material := [], state := st) }

  function Expiring(s: State, now: Time): State {
    s.(keys := map id | id in s.keys :: if Due(s.keys[id], now) then Ended(s.keys[id], KeyState.Expired)
      else s.keys[id])
  }

  predicate AnyDue(s: State, now: Time) { exists id :: id in s.keys && Due(s.keys[id], now) }

  /** Expires what is due, saving only when something was. */
  function Expire(site: Site, now: Time, f: Fault): Site {
    if AnyDue(site.s, now) then Save(site.(s := Expiring(site.s, now)), f) else site
  }

  // Recovery.

  function Wiped(keys: map<KeyID, LocalKey>, ids: set<KeyID>): map<KeyID, LocalKey> {
    map id | id in keys :: if id in ids then Ended(keys[id], KeyState.Invalid) else keys[id]
  }

  function PendingIDs(s: State): set<KeyID> {
    set t, i | t in s.requests && s.requests[t].phase == Phase.Pending && 0 <= i < |s.requests[t].ids| ::
      s.requests[t].ids[i]
  }

  /** A request found pending may have reached the provider: it becomes uncertain and its keys invalid. */
  function Recovered(s: State): State {
    s.(requests := map t | t in s.requests :: if s.requests[t].phase == Phase.Pending
      then s.requests[t].(phase := Phase.Uncertain) else s.requests[t],
       keys := Wiped(s.keys, PendingIDs(s)))
  }

  /** Opens the journal `d`: recovers, expires and saves once more. */
  function Open(p: Profile, d: State, now: Time, fe: Fault, f: Fault): Site {
    if d.attempts > p.capacity then Site(d, d, true)
    else
      var site := Expire(Site(Recovered(d), d, false), now, fe);
      if site.broken then site else Save(site, f)
  }

  // Requests.

  function Check(p: Profile, site: Site, a: Association, role: SiteRole, now: Time, f: Fault): (Site, Result<()>) {
    if site.broken then (site, Err(Error.Journal))
    else if a != p.pair || p.role != role then (site, Err(Unauthorized))
    else
      var site1 := Expire(site, now, f);
      (site1, if site1.broken then Err(Error.Journal) else Ok(()))
  }

  /** The intent: n keys are asked for, by name when `ids` is not empty. */
  function Intended(p: Profile, s: State, n: nat, ids: seq<KeyID>, now: Time, token: KeyID): State {
    var q := Request(ids, n, Phase.Pending, now, now + p.lifetime);
    State(s.attempts + n, s.requests[token := q],
            Named(s.keys, ids, LocalKey([], KeyState.Reserved, now, q.expires)))
  }

  /** A new record, the same for every named key. */
  function Named(keys: map<KeyID, LocalKey>, ids: seq<KeyID>, k: LocalKey): map<KeyID, LocalKey> {
    map id | id in keys.Keys + set i | 0 <= i < |ids| :: ids[i] :: if id in ids then k else keys[id]
  }

  function Begin(p: Profile, site: Site, n: int, ids: seq<KeyID>, now: Time, draw: nat -> KeyID,
        f: Fault): (r: (Site, Result<KeyID>))
    requires Injective(draw)
    ensures r.1.Ok? ==> r.1.value in r.0.s.requests
  {
    if !(1 <= n <= MAX_BATCH) then (site, Err(Error.Invalid))
    else if site.s.attempts + n > p.capacity then (site, Err(Capacity))
    else
      var token := FirstFree(site.s.requests.Keys, draw, 0);
      (Save(site.(s := Intended(p, site.s, n, ids, now, token)), f), if f == Saves then Ok(token)
        else Err(Error.Journal))
  }

  function Doubted(s: State, token: KeyID): State
    requires token in s.requests
  {
    var q := s.requests[token];
    s.(requests := s.requests[token := q.(phase := Phase.Uncertain)],
      keys := Wiped(s.keys, set i | 0 <= i < |q.ids| :: q.ids[i]))
  }

  /** The reply is unusable or never came: the keys involved may be spent at the provider. */
  function Doubt(site: Site, token: KeyID, f: Fault): (Site, Error)
    requires token in site.s.requests
  {
    (Save(site.(s := Doubted(site.s, token)), f), if f == Saves then Unavailable else Error.Journal)
  }

  predicate Distincts(keys: seq<Delivery>) { forall i, j :: 0 <= i < j < |keys| ==> keys[i].id != keys[j].id }

  /** The reply is complete and in time, each key well formed, none twice; a slave's are among those asked
      for, a master's are new. */
  predicate Acceptable(s: State, q: Request, keys: seq<Delivery>, slave: bool, now: Time) {
    && |keys| == q.count && now < q.expires && Distincts(keys)
    && forall i :: 0 <= i < |keys| ==>
         ValidID(keys[i].id) && |keys[i].material| == KEY_BYTES
           && (if slave then keys[i].id in q.ids else keys[i].id !in s.keys)
  }

  // The master site.

  function StartReserve(p: Profile, site: Site, a: Association, n: int, t0: Time, fe: Fault, t1: Time,
        draw: nat -> KeyID, f: Fault): (r: (Site, Result<KeyID>))
    requires Injective(draw)
    ensures r.1.Ok? ==> r.1.value in r.0.s.requests
  {
    var (site1, ok) := Check(p, site, a, MasterSite, t0, fe);
    if ok.Err? then (site1, Err(ok.error)) else Begin(p, site1, n, [], t1, draw, f)
  }

  function IDs(keys: seq<Delivery>): (r: seq<KeyID>)
    ensures |r| == |keys| && forall i :: 0 <= i < |keys| ==> r[i] == keys[i].id
  {
    seq(|keys|, i requires 0 <= i < |keys| => keys[i].id)
  }

  /** The bytes a reply binds to an identifier; the last entry counts. */
  function BytesFor(keys: seq<Delivery>, id: KeyID): Bytes {
    if keys == [] then [] else if keys[|keys| - 1].id == id then keys[|keys| - 1].material
      else BytesFor(keys[..|keys| - 1], id)
  }

  function Kept(s: State, token: KeyID, keys: seq<Delivery>): State
    requires token in s.requests
  {
    var q := s.requests[token];
    s.(requests := s.requests[token := q.(ids := q.ids + IDs(keys), phase := Phase.Stored)],
       keys := Added(s.keys, q, keys))
  }

  /** A record with its bytes for every key of a reply. */
  function Added(keys: map<KeyID, LocalKey>, q: Request, ds: seq<Delivery>): map<KeyID, LocalKey> {
    map id | id in keys.Keys + set i | 0 <= i < |ds| :: ds[i].id ::
      if id in IDs(ds) then LocalKey(BytesFor(ds, id), KeyState.Reserved, q.started, q.expires) else keys[id]
  }

  function EndReserve(site: Site, token: KeyID, reply: Result<seq<Delivery>>, now: Time, f: Fault): (Site,
        Result<Reservation>)
    requires token in site.s.requests
  {
    var q := site.s.requests[token];
    if reply.Err? || !Acceptable(site.s, q, reply.value, false, now) then
      var (site1, e) := Doubt(site, token, f);
      (site1, Err(e))
    else
      var s1 := Kept(site.s, token, reply.value);
      (Save(site.(s := s1), f), if f == Saves then Ok(Reservation(token, s1.requests[token].ids))
        else Err(Error.Journal))
  }

  /** The moments of one call on the provider and how each save on the way ends. */
  datatype Course = Course(checked: Time, expiry: Fault, begun: Time, intent: Fault, replied: Time, outcome: Fault)

  function ReserveKeys(p: Profile, site: Site, a: Association, n: int, reply: Result<seq<Delivery>>,
        draw: nat -> KeyID, at: Course): (Site, Result<Reservation>)
    requires Injective(draw)
  {
    var (site1, token) := StartReserve(p, site, a, n, at.checked, at.expiry, at.begun, draw, at.intent);
    if token.Err? then (site1, Err(token.error)) else EndReserve(site1, token.value, reply, at.replied, at.outcome)
  }

  predicate Ready(s: State, id: KeyID) {
    id in s.keys && s.keys[id].state == KeyState.Reserved && |s.keys[id].material| == KEY_BYTES
  }

  function AllConsumed(s: State, token: KeyID): State
    requires token in s.requests
  {
    var q := s.requests[token];
    s.(requests := s.requests[token := q.(phase := Phase.Consumed)],
       keys := map id | id in s.keys :: if id in q.ids then Ended(s.keys[id], KeyState.Consumed) else s.keys[id])
  }

  function Held(s: State, ids: seq<KeyID>): (r: seq<Delivery>)
    requires forall i :: 0 <= i < |ids| ==> ids[i] in s.keys
    ensures |r| == |ids| && forall i :: 0 <= i < |ids| ==> r[i] == Delivery(ids[i], s.keys[ids[i]].material)
  {
    seq(|ids|, i requires 0 <= i < |ids| => Delivery(ids[i], s.keys[ids[i]].material))
  }

  function Consume(p: Profile, site: Site, a: Association, token: KeyID, t0: Time, fe: Fault, t1: Time,
        f: Fault): (Site, Result<seq<Delivery>>) {
    var (site1, ok) := Check(p, site, a, MasterSite, t0, fe);
    if ok.Err? then (site1, Err(ok.error)) else ConsumeBatch(site1, token, t1, f)
  }

  function ConsumeBatch(site: Site, token: KeyID, now: Time, f: Fault): (Site, Result<seq<Delivery>>) {
    if token !in site.s.requests || site.s.requests[token].phase != Phase.Stored
      || site.s.requests[token].expires <= now then (site, Err(Unavailable))
    else
      var ids := site.s.requests[token].ids;
      if exists i :: 0 <= i < |ids| && !Ready(site.s, ids[i]) then (site, Err(Unavailable))
      else (Save(site.(s := AllConsumed(site.s, token)), f), if f == Saves then Ok(Held(site.s, ids))
        else Err(Error.Journal))
  }

  // The slave site.

  /** The first unusable identifier decides: malformed or repeated, or already asked for. */
  function Asked(s: State, ids: seq<KeyID>, i: nat): Result<()>
    requires i <= |ids|
    decreases |ids| - i
  {
    if i == |ids| then Ok(())
    else if !ValidID(ids[i]) || ids[i] in ids[..i] then Err(Error.Invalid)
    else if ids[i] in s.keys then Err(Unavailable)
    else Asked(s, ids, i + 1)
  }

  function StartRetrieve(p: Profile, site: Site, a: Association, ids: seq<KeyID>, t0: Time, fe: Fault, t1: Time,
        draw: nat -> KeyID, f: Fault): (r: (Site, Result<KeyID>))
    requires Injective(draw)
    ensures r.1.Ok? ==> r.1.value in r.0.s.requests
  {
    var (site1, ok) := Check(p, site, a, SlaveSite, t0, fe);
    if ok.Err? then (site1, Err(ok.error))
    else if !(1 <= |ids| <= MAX_BATCH) then (site1, Err(Error.Invalid))
    else
      var asked := Asked(site1.s, ids, 0);
      if asked.Err? then (site1, Err(asked.error)) else Begin(p, site1, |ids|, ids, t1, draw, f)
  }

  function Matched(ids: seq<KeyID>, keys: seq<Delivery>): (r: seq<Delivery>)
    ensures |r| == |ids| && forall i :: 0 <= i < |ids| ==> r[i] == Delivery(ids[i], BytesFor(keys, ids[i]))
  {
    seq(|ids|, i requires 0 <= i < |ids| => Delivery(ids[i], BytesFor(keys, ids[i])))
  }

  function Retrieved(s: State, token: KeyID): State
    requires token in s.requests
  {
    var q := s.requests[token];
    s.(requests := s.requests[token := q.(phase := Phase.Consumed)],
       keys := map id | id in s.keys :: if id in q.ids then s.keys[id].(state := KeyState.Consumed) else s.keys[id])
  }

  function EndRetrieve(site: Site, token: KeyID, reply: Result<seq<Delivery>>, now: Time, f: Fault): (Site,
        Result<seq<Delivery>>)
    requires token in site.s.requests
  {
    var q := site.s.requests[token];
    if reply.Err? || !Acceptable(site.s, q, reply.value, true, now) then
      var (site1, e) := Doubt(site, token, f);
      (site1, Err(e))
    else (Save(site.(s := Retrieved(site.s, token)), f), if f == Saves then Ok(Matched(q.ids, reply.value))
      else Err(Error.Journal))
  }

  function ConsumePeerKeys(p: Profile, site: Site, a: Association, ids: seq<KeyID>, reply: Result<seq<Delivery>>,
        draw: nat -> KeyID, at: Course): (Site, Result<seq<Delivery>>)
    requires Injective(draw)
  {
    var (site1, token) := StartRetrieve(p, site, a, ids, at.checked, at.expiry, at.begun, draw, at.intent);
    if token.Err? then (site1, Err(token.error)) else EndRetrieve(site1, token.value, reply, at.replied, at.outcome)
  }

  // Either site.

  function Invalidate(site: Site, id: KeyID, f: Fault): (Site, Result<()>) {
    if site.broken then (site, Err(Error.Journal))
    else if id !in site.s.keys then (site, Err(Unavailable))
    else if site.s.keys[id].state.Terminal() then (site, Ok(()))
    else (Save(site.(s := site.s.(keys := site.s.keys[id := Ended(site.s.keys[id], KeyState.Invalid)])), f), Saved(f))
  }

  /** What the site may still ask for, at most what the provider offers. */
  function Inventory(p: Profile, site: Site, a: Association, offer: Option<int>, now: Time, f: Fault): (Site, int) {
    var (site1, ok) := Check(p, site, a, MasterSite, now, f);
    (site1, if ok.Err? || offer == None || offer.value < 0 then 0
            else if offer.value < p.capacity - site1.s.attempts then offer.value else p.capacity - site1.s.attempts)
  }
}
