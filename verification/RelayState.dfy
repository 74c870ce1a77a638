/** The journaled state of one relay node and what each handler makes of it. A handler works on a copy
    of the state; `Err` discards the copy, `Ok` is the state to commit. */
module RelayState {
  import opened Core
  import opened Uuid
  import opened Peering
  import opened Etsi020

  datatype Role = Source | Relay | Target

  /** What the SHA-256 digest of a transferred key binds; the digest is modelled as injective. */
  datatype Digest = Digest(key: WireKey, pair: Association, optional: Extension)

  datatype Record = Record(
    pair: Association, role: Role,
    material: Bytes,                       // [] once cleared
    digest: Option<Digest>,                // None for the tombstone of an unknown key
    keyExt: Extension, optional: Extension,
    sender: Peer, next: Peer,              // "" when there is none
    candidates: seq<Peer>,
    sent: bool, ready: bool, delivered: bool,
    token: Option<nat>,
    created: Time, expires: Time,
    voiding: bool, voidFailed: bool,
    voidPending: set<Peer>, voidRequests: set<Peer>,
    unknown: bool,
    retry: Time)

  datatype Job = Job(peer: Peer, ack: Ack, retry: Time)

  /** Identifiers drawn while transaction `serial` runs are fresh: they carry its number. */
  datatype JobID = JobID(serial: nat, kid: KeyID, peer: Peer)

  datatype State = State(
    keys: map<KeyID, Record>,
    order: seq<KeyID>,
    cursor: map<string, nat>,
    acks: map<JobID, Job>,
    serial: nat)

  /** A node's routing configuration, allowed pairs and lifetime capacity. */
  datatype Policy = Policy(cfg: Config, allowed: set<Association>, capacity: nat) {
    predicate Valid() {
      && WellFormed(cfg) && 1 <= capacity <= 100000
      && forall a :: a in allowed ==> a.Valid()
    }

    predicate Local(sae: string) { sae in cfg.localSAEs }

    function Route(target: string): seq<Peer> { if target in cfg.routes then cfg.routes[target] else [] }

    /** The acknowledgement address a peer must name: its own. */
    function CallbackOf(peer: Peer): string
      requires peer in cfg.peers
    {
      cfg.peers[peer].url + Base(cfg.peers[peer].mode) + "/ack"
    }

    /** The acknowledgement address this node names when writing to a peer. */
    function OwnCallback(peer: Peer): string {
      cfg.publicURL + (if peer in cfg.peers then Base(cfg.peers[peer].mode) else Base(Standard)) + "/ack"
    }
  }

  const EMPTY: State := State(map[], [], map[], map[], 0)
  const RETRY: nat := 1
  const HOUR: nat := 3600

  function Working(s: State): State { s.(serial := s.serial + 1) }

  // The acknowledgement outbox.

  function KeyOf(j: Job): KeyID { if j.ack.ids == [] then "" else j.ack.ids[0] }

  predicate Matches(j: Job, peer: Peer, id: KeyID) { j.peer == peer && KeyOf(j) == id }

  predicate Owed(acks: map<JobID, Job>, peer: Peer, id: KeyID, status: Status) {
    exists j :: j in acks && Matches(acks[j], peer, id) && acks[j].ack.status == status
  }

  function ResultAbout(id: KeyID, pair: Association, status: Status): Ack {
    Ack([id], status, pair.master, [pair.slave])
  }

  /** Leaves, for each of `peers`, the one result `status` about `id`: an equal one stays as it is,
      a different one is replaced. */
  function Owe(s: State, id: KeyID, pair: Association, peers: set<Peer>, status: Status): State {
    var kept := map j | j in s.acks && !(s.acks[j].peer in peers && KeyOf(s.acks[j]) == id
      && s.acks[j].ack.status != status) :: s.acks[j];
    var due := set p | p in peers && p != "" && !Owed(s.acks, p, id, status);
    var added := map p | p in due :: JobID(s.serial, id, p) := Job(p, ResultAbout(id, pair, status), 0);
    s.(acks := kept + added)
  }

  /** One result for one peer; the empty name is nobody. */
  function Enqueue(s: State, id: KeyID, pair: Association, peer: Peer, status: Status): State {
    if peer == "" then s else Owe(s, id, pair, {peer}, status)
  }

  function WithoutKey(acks: map<JobID, Job>, id: KeyID): map<JobID, Job> {
    map j | j in acks && KeyOf(acks[j]) != id :: acks[j]
  }

  // Voiding.

  /** First call: discard the material, forget readiness and reservation, and note which neighbours
      must confirm. Every call: record who asked; asking counts as confirming. */
  function Voiding(r: Record, requester: Peer): Record {
    var started := if r.voiding then r else r.(
      voiding := true, ready := false, token := None, voidFailed := r.delivered, retry := 0, material := [],
      voidPending := (if r.sent then {r.next} else {}) + (if r.sender != "" then {r.sender} else {}),
      voidRequests := {});
    if requester == "" then started else started.(
      voidRequests := started.voidRequests + {requester},
      voidPending := started.voidPending - {requester})
  }

  function StartVoid(s: State, id: KeyID, requester: Peer): State
    requires id in s.keys
  {
    s.(keys := s.keys[id := Voiding(s.keys[id], requester)],
       acks := if s.keys[id].voiding then s.acks else WithoutKey(s.acks, id))
  }

  function VoidStatus(r: Record): Status {
    if r.voidFailed then FailedToVoid else if r.unknown then NotPresent else Voided
  }

  function FinishVoid(s: State, id: KeyID): State
    requires id in s.keys
  {
    var r := s.keys[id];
    if r.voidPending != {} then s else Owe(s, id, r.pair, r.voidRequests, VoidStatus(r))
  }

  // Storing and routing.

  function Without(route: seq<Peer>, sender: Peer): seq<Peer> {
    if route == [] then [] else (if route[0] != sender then [route[0]] else []) + Without(route[1..], sender)
  }

  function Rotation(route: seq<Peer>, start: nat): seq<Peer>
    requires start < |route|
  {
    route[start..] + route[..start]
  }

  function Cursor(s: State, target: string): nat { if target in s.cursor then s.cursor[target] else 0 }

  /** The route from the cursor on, without the sender, and the state with the cursor advanced. */
  function Candidates(c: Policy, s: State, target: string, sender: Peer): (seq<Peer>, State) {
    var route := c.Route(target);
    if route == [] then ([], s)
    else
      var start := Cursor(s, target) % |route|;
      (Without(Rotation(route, start), sender), s.(cursor := s.cursor[target := (start + 1) % |route|]))
  }

  function Insert(s: State, id: KeyID, r: Record): State {
    s.(keys := s.keys[id := r], order := s.order + [id])
  }

  function FreshRecord(pair: Association, role: Role, sender: Peer, created: Time, expires: Time): Record {
    Record(pair, role, [], None, map[], map[], sender, "", [], false, false, false, None, created, expires,
           false, false, {}, {}, false, 0)
  }

  function StoreGuard(c: Policy, k: Key, now: Time): Result<()> {
    if !k.Valid(now) then Err(Invalid)
    else if k.pair !in c.allowed || !c.Local(k.pair.master) || c.Local(k.pair.slave) then Err(Unauthorized)
    else Ok(())
  }

  function SourceRecord(k: Key, candidates: seq<Peer>): Record {
    FreshRecord(k.pair, Source, "", k.created, k.expires).(
      material := k.material, digest := Some(Digest(WireKey(k.id, k.material, map[]), k.pair, map[])),
        candidates := candidates)
  }

  function StoreBody(c: Policy, s: State, k: Key): Result<State> {
    if k.id in s.keys then Err(Duplicate)
    else if |s.keys| >= c.capacity then Err(Capacity)
    else
      var (candidates, s1) := Candidates(c, s, k.pair.slave, "");
      if candidates == [] then Err(Unavailable)
      else Ok(Insert(s1, k.id, SourceRecord(k, candidates)))
  }

  // Transfers from a peer.

  function AcceptGuard(c: Policy, peer: Peer, t: Transfer): Result<Association> {
    var a :- TransferPair(t);
    if peer !in c.cfg.peers || !c.cfg.peers[peer].incoming || t.callback != c.CallbackOf(peer) then Err(Unauthorized)
    else if a !in c.allowed || c.Local(a.master) then Err(Unauthorized)
    else Ok(a)
  }

  /** Counts the unknown keys from position i on, or refuses at the first conflicting one. */
  function AcceptCheck(s: State, peer: Peer, a: Association, t: Transfer, i: nat, news: nat): Result<nat>
    requires i <= |t.keys|
    decreases |t.keys| - i
  {
    if i == |t.keys| then Ok(news)
    else
      var k := t.keys[i];
      if k.id !in s.keys then AcceptCheck(s, peer, a, t, i + 1, news + 1)
      else
        var r := s.keys[k.id];
        if r.sender != peer || r.pair != a then Err(Unauthorized)
        else if !r.unknown && r.digest != Some(Digest(k, a, t.optional)) then Err(Duplicate)
        else AcceptCheck(s, peer, a, t, i + 1, news)
  }

  function Due(r: Record, now: Time): bool { !r.voiding && r.expires <= now }

  function ReceivedRecord(role: Role, peer: Peer, a: Association, t: Transfer, k: WireKey, now: Time): Record {
    FreshRecord(a, role, peer, now, now + HOUR).(
      material := k.value, digest := Some(Digest(k, a, t.optional)), keyExt := k.ext, optional := t.optional)
  }

  function AcceptKnown(s: State, peer: Peer, id: KeyID, now: Time): State
    requires id in s.keys
  {
    var s1 := if Due(s.keys[id], now) then StartVoid(s, id, peer) else s;
    var r := s1.keys[id];
    if r.voiding then FinishVoid(s1, id)
    else if r.ready then Owe(s1, id, r.pair, {peer}, Relayed)
    else s1
  }

  function AcceptNew(c: Policy, s: State, peer: Peer, a: Association, t: Transfer, k: WireKey,
        now: Time): Result<State> {
    if c.Local(a.slave) then
      Ok(Insert(Owe(s, k.id, a, {peer}, Relayed), k.id, ReceivedRecord(Target, peer, a, t, k, now).(ready := true)))
    else
      var (candidates, s1) := Candidates(c, s, a.slave, peer);
      if candidates == [] then Err(Unavailable)
      else Ok(Insert(s1, k.id, ReceivedRecord(Relay, peer, a, t, k, now).(candidates := candidates)))
  }

  function AcceptKey(c: Policy, s: State, peer: Peer, a: Association, t: Transfer, k: WireKey,
        now: Time): Result<State> {
    if k.id in s.keys then Ok(AcceptKnown(s, peer, k.id, now)) else AcceptNew(c, s, peer, a, t, k, now)
  }

  function AcceptKeys(c: Policy, s: State, peer: Peer, a: Association, t: Transfer, i: nat, now: Time): Result<State>
    requires i <= |t.keys|
    decreases |t.keys| - i
  {
    if i == |t.keys| then Ok(s)
    else
      var s1 :- AcceptKey(c, s, peer, a, t, t.keys[i], now);
      AcceptKeys(c, s1, peer, a, t, i + 1, now)
  }

  function AcceptBody(c: Policy, s: State, peer: Peer, a: Association, t: Transfer, now: Time): Result<State> {
    var news :- AcceptCheck(s, peer, a, t, 0, 0);
    if |s.keys| + news > c.capacity then Err(Capacity) else AcceptKeys(c, s, peer, a, t, 0, now)
  }

  function Accept(c: Policy, s: State, peer: Peer, t: Transfer, now: Time): Result<State> {
    var a :- AcceptGuard(c, peer, t);
    AcceptBody(c, Working(s), peer, a, t, now)
  }

  // Acknowledgements from a peer.

  function AckGuard(c: Policy, peer: Peer, acks: seq<Ack>): Result<()> {
    if peer !in c.cfg.peers then Err(Unauthorized) else AcksVerdict(acks)
  }

  /** The peer may report on this key: it is the next hop, or the sender of a key being voided. */
  predicate MayAck(s: State, peer: Peer, a: Ack, id: KeyID)
    requires |a.targets| == 1
  {
    && id in s.keys
    && var r := s.keys[id];
       && r.pair.master == a.initiator && r.pair.slave == a.targets[0]
       && (r.next == peer || (r.voiding && r.sender == peer))
       && (a.status == Relayed ==> r.sent && peer == r.next)
  }

  function AckCheck(s: State, peer: Peer, acks: seq<Ack>, i: nat, j: nat): Result<()>
    requires i <= |acks| && (i < |acks| ==> j <= |acks[i].ids|)
    requires forall n :: 0 <= n < |acks| ==> |acks[n].targets| == 1
    decreases |acks| - i, if i < |acks| then |acks[i].ids| - j else 0
  {
    if i == |acks| then Ok(())
    else if j == |acks[i].ids| then AckCheck(s, peer, acks, i + 1, 0)
    else if !MayAck(s, peer, acks[i], acks[i].ids[j]) then Err(Unauthorized)
    else AckCheck(s, peer, acks, i, j + 1)
  }

  predicate Confirms(st: Status) { st == Voided || st == NotPresent || st == FailedToVoid }

  /** The next hop reported on a key that is being voided. */
  function AckVoiding(s: State, peer: Peer, st: Status, id: KeyID): State
    requires id in s.keys
  {
    var r := s.keys[id];
    if !Confirms(st) then s
    else FinishVoid(s.(keys := s.keys[id := r.(voidPending := r.voidPending - {peer}, voidFailed := r.voidFailed
      || st == FailedToVoid)]), id)
  }

  function Relaid(r: Record): Record { r.(ready := true, material := if r.role == Relay then [] else r.material) }

  function AckRelayed(s: State, id: KeyID): State
    requires id in s.keys
  {
    var r := s.keys[id];
    Enqueue(s.(keys := s.keys[id := Relaid(r)]), id, r.pair, r.sender, Relayed)
  }

  function AckKey(s: State, peer: Peer, st: Status, id: KeyID, now: Time): State
    requires id in s.keys
  {
    var s1 := if Due(s.keys[id], now) then StartVoid(s, id, "") else s;
    if s1.keys[id].voiding then AckVoiding(s1, peer, st, id)
    else if st == Relayed then AckRelayed(s1, id)
    else FinishVoid(StartVoid(s1, id, ""), id)
  }

  /** Applies the results from position (i, j) on; keys that vanished are skipped (there are none). */
  function AckKeys(s: State, peer: Peer, acks: seq<Ack>, i: nat, j: nat, now: Time): State
    requires i <= |acks| && (i < |acks| ==> j <= |acks[i].ids|)
    decreases |acks| - i, if i < |acks| then |acks[i].ids| - j else 0
  {
    if i == |acks| then s
    else if j == |acks[i].ids| then AckKeys(s, peer, acks, i + 1, 0, now)
    else
      var id := acks[i].ids[j];
      AckKeys(if id in s.keys then AckKey(s, peer, acks[i].status, id, now) else s, peer, acks, i, j + 1, now)
  }

  lemma AcksHaveOneTarget(acks: seq<Ack>)
    requires ValidAcks(acks)
    ensures forall n :: 0 <= n < |acks| ==> |acks[n].targets| == 1
  {
    forall n | 0 <= n < |acks| ensures |acks[n].targets| == 1 {
      assert ValidAck(acks[n]);
    }
  }

  function AckBody(s: State, peer: Peer, acks: seq<Ack>, now: Time): Result<State>
    requires ValidAcks(acks)
  {
    AcksHaveOneTarget(acks);
    var _ :- AckCheck(s, peer, acks, 0, 0);
    Ok(AckKeys(s, peer, acks, 0, 0, now))
  }

  function Acknowledge(c: Policy, s: State, peer: Peer, acks: seq<Ack>, now: Time): Result<State> {
    var _ :- AckGuard(c, peer, acks);
    AckBody(Working(s), peer, acks, now)
  }

  // Voids from a peer.

  function VoidGuard(c: Policy, peer: Peer, v: Void): Result<Association> {
    var a :- VoidPair(v);
    if peer !in c.cfg.peers || v.callback != c.CallbackOf(peer) then Err(Unauthorized)
    else if a !in c.allowed then Err(Unauthorized)
    else Ok(a)
  }

  predicate Involves(s: State, peer: Peer, a: Association, id: KeyID) {
    id in s.keys && s.keys[id].pair == a && (s.keys[id].sender == peer || s.keys[id].next == peer)
  }

  /** The keys of a pair exchanged with a peer, in insertion order. */
  function Involved(s: State, peer: Peer, a: Association, ids: seq<KeyID>): seq<KeyID> {
    if ids == [] then [] else (if Involves(s, peer, a, ids[0]) then [ids[0]] else []) + Involved(s, peer, a, ids[1..])
  }

  predicate NothingMatched(acks: map<JobID, Job>, peer: Peer, a: Association) {
    exists j ::
      j in acks && acks[j].peer == peer && acks[j].ack.ids == [] && acks[j].ack.initiator == a.master
      && acks[j].ack.targets == [a.slave]
  }

  function VoidNothing(s: State, peer: Peer, a: Association): State {
    if NothingMatched(s.acks, peer, a) then s
    else s.(acks := s.acks[JobID(s.serial, "", peer) := Job(peer, Ack([], NotPresent, a.master, [a.slave]), 0)])
  }

  function VoidCheck(s: State, incoming: bool, peer: Peer, a: Association, ids: seq<KeyID>, i: nat,
        news: nat): Result<nat>
    requires i <= |ids|
    decreases |ids| - i
  {
    if i == |ids| then Ok(news)
    else if ids[i] !in s.keys then
      if !incoming then Err(Unauthorized) else VoidCheck(s, incoming, peer, a, ids, i + 1, news + 1)
    else if !Involves(s, peer, a, ids[i]) then Err(Unauthorized)
    else VoidCheck(s, incoming, peer, a, ids, i + 1, news)
  }

  function Tombstone(c: Policy, peer: Peer, a: Association, now: Time): Record {
    FreshRecord(a, if c.Local(a.slave) then Target else Relay, peer, now, now).(unknown := true)
  }

  function VoidKey(c: Policy, s: State, peer: Peer, a: Association, id: KeyID, now: Time): State {
    var s1 := if id in s.keys then s else Insert(s, id, Tombstone(c, peer, a, now));
    FinishVoid(StartVoid(s1, id, peer), id)
  }

  function VoidKeys(c: Policy, s: State, peer: Peer, a: Association, ids: seq<KeyID>, i: nat, now: Time): State
    requires i <= |ids|
    decreases |ids| - i
  {
    if i == |ids| then s else VoidKeys(c, VoidKey(c, s, peer, a, ids[i], now), peer, a, ids, i + 1, now)
  }

  function VoidBody(c: Policy, s: State, peer: Peer, a: Association, v: Void, now: Time): Result<State>
    requires peer in c.cfg.peers
  {
    var ids := if v.ids == [] then Involved(s, peer, a, s.order) else v.ids;
    if ids == [] then Ok(VoidNothing(s, peer, a))
    else
      var news :- VoidCheck(s, c.cfg.peers[peer].incoming, peer, a, ids, 0, 0);
      if |s.keys| + news > c.capacity then Err(Capacity) else Ok(VoidKeys(c, s, peer, a, ids, 0, now))
  }

  function VoidRequest(c: Policy, s: State, peer: Peer, v: Void, now: Time): Result<State> {
    var a :- VoidGuard(c, peer, v);
    VoidBody(c, Working(s), peer, a, v, now)
  }

  // Local recipients.

  predicate Usable(r: Record, now: Time) {
    r.ready && !r.voiding && !r.delivered && now < r.expires && |r.material| == KEY_BYTES
  }

  predicate Available(s: State, a: Association, id: KeyID, now: Time) {
    id in s.keys && s.keys[id].pair == a && s.keys[id].role == Source && s.keys[id].token == None
      && Usable(s.keys[id], now)
  }

  function AvailableIDs(s: State, a: Association, ids: seq<KeyID>, now: Time): seq<KeyID> {
    if ids == [] then []
    else (if Available(s, a, ids[0], now) then [ids[0]] else []) + AvailableIDs(s, a, ids[1..], now)
  }

  datatype Reservation = Reservation(token: nat, ids: seq<KeyID>)

  function Tokened(s: State, ids: seq<KeyID>, token: nat): State {
    s.(keys := map id | id in s.keys :: if id in ids then s.keys[id].(token := Some(token)) else s.keys[id])
  }

  function ReserveBody(c: Policy, s: State, a: Association, n: nat, now: Time): Result<(State, Reservation)> {
    if a !in c.allowed || !c.Local(a.master) then Err(Unauthorized)
    else
      var ids := AvailableIDs(s, a, s.order, now);
      if |ids| < n then Err(Unavailable)
      else Ok((Tokened(s, ids[..n], s.serial), Reservation(s.serial, ids[..n])))
  }

  function Reserve(c: Policy, s: State, a: Association, n: int, now: Time): Result<(State, Reservation)> {
    if !(1 <= n <= MAX_BATCH) then Err(Invalid) else ReserveBody(c, Working(s), a, n, now)
  }

  /** The keys carrying a token, from position i of the insertion order on. */
  function Collect(s: State, a: Association, token: nat, i: nat, now: Time): Result<seq<KeyID>>
    requires i <= |s.order|
    decreases |s.order| - i
  {
    if i == |s.order| then Ok([])
    else
      var id := s.order[i];
      if id !in s.keys || s.keys[id].token != Some(token) then Collect(s, a, token, i + 1, now)
      else if s.keys[id].pair != a || s.keys[id].role != Source then Err(Unauthorized)
      else if !Usable(s.keys[id], now) then Err(Unavailable)
      else
        var rest :- Collect(s, a, token, i + 1, now);
        Ok([id] + rest)
  }

  function Spent(r: Record): Record { r.(delivered := true, token := None, material := []) }

  function DeliverAll(s: State, ids: seq<KeyID>): State {
    s.(keys := map id | id in s.keys :: if id in ids then Spent(s.keys[id]) else s.keys[id])
  }

  function Deliveries(s: State, ids: seq<KeyID>): (r: seq<Delivery>)
    requires forall i :: 0 <= i < |ids| ==> ids[i] in s.keys
    ensures |r| == |ids| && forall i :: 0 <= i < |ids| ==> r[i] == Delivery(ids[i], s.keys[ids[i]].material)
  {
    seq(|ids|, i requires 0 <= i < |ids| => Delivery(ids[i], s.keys[ids[i]].material))
  }

  /** A usable source key of the pair, reserved under the token. */
  predicate Held(s: State, a: Association, token: nat, id: KeyID, now: Time) {
    id in s.keys && s.keys[id].token == Some(token) && s.keys[id].pair == a && s.keys[id].role == Source
      && Usable(s.keys[id], now)
  }

  lemma {:induction false} CollectedExist(s: State, a: Association, token: nat, i: nat, now: Time)
    requires i <= |s.order|
    ensures var r := Collect(s, a, token, i, now);
      r.Ok? ==> forall n :: 0 <= n < |r.value| ==> Held(s, a, token, r.value[n], now) && r.value[n] in s.order[i..]
    decreases |s.order| - i
  {
    if i < |s.order| {
      CollectedExist(s, a, token, i + 1, now);
      var r, rest := Collect(s, a, token, i, now), Collect(s, a, token, i + 1, now);
      assert s.order[i..] == [s.order[i]] + s.order[i + 1..];
      if r.Ok? {
        assert r == rest || (r.value == [s.order[i]] + rest.value && Held(s, a, token, s.order[i], now));
        hide Held;
        forall n | 0 <= n < |r.value| ensures Held(s, a, token, r.value[n], now) && r.value[n] in s.order[i..] {
          if r == rest { assert r.value[n] in s.order[i + 1..]; }
          else if n > 0 { assert r.value[n] == rest.value[n - 1] && rest.value[n - 1] in s.order[i + 1..]; }
        }
      }
    }
  }

  function ConsumeReservation(s: State, a: Association, token: Option<nat>, now: Time): Result<(State, seq<Delivery>)> {
    if token == None then Err(Invalid)
    else
      var w := Working(s);
      CollectedExist(w, a, token.value, 0, now);
      var ids :- Collect(w, a, token.value, 0, now);
      if ids == [] then Err(Unavailable) else Ok((DeliverAll(w, ids), Deliveries(w, ids)))
  }

  function PeerGuard(ids: seq<KeyID>): Result<()> {
    if !(1 <= |ids| <= MAX_BATCH) || !Distinct(ids) || exists i :: 0 <= i < |ids| && !ValidID(ids[i]) then Err(Invalid)
      else Ok(())
  }

  function PeerCheck(s: State, a: Association, ids: seq<KeyID>, i: nat, now: Time): Result<()>
    requires i <= |ids|
    decreases |ids| - i
  {
    if i == |ids| then Ok(())
    else if ids[i] !in s.keys then Err(Unavailable)
    else if s.keys[ids[i]].pair != a || s.keys[ids[i]].role != Target then Err(Unauthorized)
    else if !Usable(s.keys[ids[i]], now) then Err(Unavailable)
    else PeerCheck(s, a, ids, i + 1, now)
  }

  lemma {:induction false} PeerChecked(s: State, a: Association, ids: seq<KeyID>, i: nat, now: Time)
    requires i <= |ids|
    ensures PeerCheck(s, a, ids, i, now).Ok? ==> forall n :: i <= n < |ids| ==>
      ids[n] in s.keys && s.keys[ids[n]].pair == a && s.keys[ids[n]].role == Target && Usable(s.keys[ids[n]], now)
    decreases |ids| - i
  {
    if i < |ids| { PeerChecked(s, a, ids, i + 1, now); }
  }

  function ConsumePeerBody(c: Policy, s: State, a: Association, ids: seq<KeyID>, now: Time): Result<(State,
        seq<Delivery>)> {
    if a !in c.allowed || !c.Local(a.slave) then Err(Unauthorized)
    else
      PeerChecked(s, a, ids, 0, now);
      var _ :- PeerCheck(s, a, ids, 0, now);
      Ok((DeliverAll(s, ids), Deliveries(s, ids)))
  }

  function ConsumePeer(c: Policy, s: State, a: Association, ids: seq<KeyID>, now: Time): Result<(State,
        seq<Delivery>)> {
    var _ :- PeerGuard(ids);
    ConsumePeerBody(c, Working(s), a, ids, now)
  }

  function Invalidate(s: State, id: KeyID): Result<State> {
    var w := Working(s);
    if id !in w.keys then Err(Unavailable) else Ok(FinishVoid(StartVoid(w, id, ""), id))
  }

  function Inventory(s: State, a: Association, now: Time): nat {
    |set id | id in s.keys && Available(s, a, id, now)|
  }

  // The worker's own transactions.

  /** Voids every due record at once. */
  function Expire(s: State, now: Time): State {
    s.(keys := map id | id in s.keys :: if Due(s.keys[id], now) then Voiding(s.keys[id], "") else s.keys[id],
       acks := map j | j in s.acks && !(KeyOf(s.acks[j]) in s.keys && Due(s.keys[KeyOf(s.acks[j])], now)) :: s.acks[j])
  }

  /** Persists the intent to send before the POST; refused when the key was voided, acknowledged or
      expired since the worker looked at it. */
  function CommitSend(s: State, id: KeyID, peer: Peer, now: Time): Result<State>
    requires id in s.keys
  {
    var r := s.keys[id];
    if r.voiding || r.ready || r.expires <= now then Err(Unavailable)
    else Ok(s.(keys := s.keys[id := r.(next := peer, sent := true, retry := now + RETRY)]))
  }

  function Defer(s: State, id: KeyID, now: Time): State
    requires id in s.keys
  {
    s.(keys := s.keys[id := s.keys[id].(retry := now + RETRY)])
  }

  function AckSent(s: State, j: JobID): State { s.(acks := s.acks - {j}) }

  function AckFailed(s: State, j: JobID, now: Time): State {
    if j in s.acks then s.(acks := s.acks[j := s.acks[j].(retry := now + RETRY)]) else s
  }

  // The journal.

  datatype Durable = Durable(live: State, disk: State, broken: bool)

  /** Commits a handler's outcome; a failed save poisons the process. */
  function Transact(d: Durable, outcome: Result<State>, f: Fault): Durable {
    if d.broken || outcome.Err? then d
    else match f
      case Saves => Durable(outcome.value, outcome.value, false)
      case FailsOld => d.(broken := true)
      case FailsNew => d.(disk := outcome.value, broken := true)
  }

  /** The error a transaction reports, if any. */
  function Verdict(d: Durable, outcome: Result<State>, f: Fault): Result<()> {
    if d.broken then Err(Error.Journal)
    else if outcome.Err? then Err(outcome.error)
    else if f != Saves then Err(Error.Journal)
    else Ok(())
  }
}
