/** What every handler keeps true of one node, and how each may change a record. */
module RelayInvariant {
  import opened Core
  import opened Peering
  import opened Etsi020
  import opened RelayState

  /** The adjacent nodes a record involves. */
  function Neighbours(r: Record): set<Peer> {
    (if r.sent then {r.next} else {}) + (if r.sender != "" then {r.sender} else {})
  }

  /** The node still needs the bytes: for its own recipient, or to forward them. */
  predicate Holds(r: Record) { !r.voiding && (if r.role == Relay then !r.ready else !r.delivered) }

  predicate RoleInv(c: Policy, r: Record) {
    && r.pair in c.allowed
    && match r.role
       case Source => r.sender == "" && !r.unknown && c.Local(r.pair.master) && !c.Local(r.pair.slave)
       case Relay => r.sender in c.cfg.peers && !c.Local(r.pair.slave)
       case Target => r.sender in c.cfg.peers && c.Local(r.pair.slave)
  }

  /** A key goes to one candidate at most, never back to its sender; targets forward nothing. */
  predicate RouteInv(c: Policy, r: Record) {
    && (forall p :: p in r.candidates ==> p in c.Route(r.pair.slave) && p != r.sender && p != "")
    && (if r.role == Target || r.unknown then r.candidates == [] && !r.sent else r.candidates != [])
    && (if r.sent then r.next in r.candidates else r.next == "")
  }

  /** Original bytes while they are needed, nothing afterwards; the digest pins what they were. */
  predicate MaterialInv(id: KeyID, r: Record) {
    if r.unknown then r.digest == None && r.voiding && !r.delivered && r.material == []
    else
      && r.digest.Some?
      && var d := r.digest.value;
         && d.key.id == id && d.pair == r.pair && d.key.ext == r.keyExt && d.optional == r.optional
         && |d.key.value| == KEY_BYTES
         && r.material == (if Holds(r) then d.key.value else [])
  }

  predicate FlagInv(r: Record) {
    && (r.role == Relay ==> !r.delivered)
    && (r.delivered ==> r.voiding || r.ready)
    && (r.role == Target && !r.voiding ==> r.ready)
    && (r.ready ==> !r.voiding && (r.role != Target ==> r.sent))
    && (r.token.Some? ==> r.role == Source && r.ready && !r.delivered)
  }

  predicate VoidInv(r: Record) {
    && r.voidPending <= Neighbours(r) && r.voidRequests <= Neighbours(r) && r.voidPending !! r.voidRequests
    && (!r.voiding ==> r.voidPending == {} && r.voidRequests == {} && !r.voidFailed)
    && (r.voiding && r.delivered ==> r.voidFailed)
  }

  predicate RecInv(c: Policy, id: KeyID, r: Record) {
    RoleInv(c, r) && RouteInv(c, r) && MaterialInv(id, r) && FlagInv(r) && VoidInv(r)
  }

  // Results owed to peers.

  /** Whom a record owes its current result: the sender of a ready key, and everybody who asked to
      void one once no confirmation is outstanding. */
  function OwedPeers(r: Record): set<Peer> {
    if r.voiding then if r.voidPending == {} then r.voidRequests else {}
    else if r.ready && r.sender != "" then {r.sender} else {}
  }

  function CurrentStatus(r: Record): Status { if r.voiding then VoidStatus(r) else Relayed }

  predicate JobInv(c: Policy, s: State, j: JobID)
    requires j in s.acks
  {
    var job := s.acks[j];
    && j.kid == KeyOf(job) && j.peer == job.peer && j.serial <= s.serial
    && |job.ack.targets| == 1
    && var a := Association(job.ack.initiator, job.ack.targets[0]);
       if job.ack.ids == [] then job.ack.status == NotPresent && job.peer in c.cfg.peers && a in c.allowed
       else
         && |job.ack.ids| == 1 && job.ack.ids[0] in s.keys
         && var r := s.keys[job.ack.ids[0]];
            a == r.pair && job.peer in OwedPeers(r) && job.ack.status == CurrentStatus(r)
  }

  predicate JobsInv(c: Policy, s: State) { forall j :: j in s.acks ==> JobInv(c, s, j) }

  /** Two jobs report on the same key and pair to the same peer. */
  predicate SameSubject(a: Job, b: Job) {
    a.peer == b.peer && a.ack.ids == b.ack.ids && a.ack.initiator == b.ack.initiator && a.ack.targets == b.ack.targets
  }

  predicate UniqueJobs(acks: map<JobID, Job>) {
    forall i, j :: i in acks && j in acks && SameSubject(acks[i], acks[j]) ==> i == j
  }

  predicate OrderInv(s: State) {
    && Distinct(s.order)
    && (forall i :: 0 <= i < |s.order| ==> s.order[i] in s.keys)
    && (forall id :: id in s.keys ==> id in s.order)
    && "" !in s.keys
  }

  predicate RecsInv(c: Policy, s: State) { forall id :: id in s.keys ==> RecInv(c, id, s.keys[id]) }

  predicate TokenInv(s: State) {
    forall id :: id in s.keys && s.keys[id].token.Some? ==> s.keys[id].token.value <= s.serial
  }

  predicate Inv(c: Policy, s: State) {
    OrderInv(s) && RecsInv(c, s) && TokenInv(s) && JobsInv(c, s) && UniqueJobs(s.acks)
  }

  // How one transaction may change a record.

  /** The cause of a transaction. */
  datatype Input =
    | Internal
    | Storing(key: Key)
    | Reserving(token: nat)
    | Consuming
    | Sending(to: Peer)
    | FromTransfer(peer: Peer, transfer: Transfer)
    | FromAcks(peer: Peer, acks: seq<Ack>)
    | FromVoid(peer: Peer, request: Void)

  predicate Reports(acks: seq<Ack>, id: KeyID, st: Status) {
    exists i :: 0 <= i < |acks| && acks[i].status == st && id in acks[i].ids
  }

  predicate SameIdentity(r: Record, r': Record) {
    && r'.pair == r.pair && r'.role == r.role && r'.digest == r.digest && r'.unknown == r.unknown
    && r'.keyExt == r.keyExt && r'.optional == r.optional && r'.sender == r.sender
    && r'.candidates == r.candidates && r'.created == r.created && r'.expires == r.expires
  }

  /** The next hop's confirmation is in: it said the key is gone, said it failed, or asked itself. */
  predicate NextConfirmed(inp: Input, id: KeyID, r: Record) {
    || r.next in r.voidRequests
    || r.voidFailed
    || (inp.FromAcks? && inp.peer == r.next && (Reports(inp.acks, id, Voided) || Reports(inp.acks, id, NotPresent)))
  }

  /** A void never ends: confirmations come in, requesters join, a failure stays a failure. */
  predicate StillVoiding(r: Record, r': Record) {
    && r'.voiding && r'.delivered == r.delivered
    && r'.voidPending <= r.voidPending && r.voidRequests <= r'.voidRequests
    && (r.voidFailed ==> r'.voidFailed)
  }

  /** A reservation is made once, on a free key, and ends when the key is delivered or voided. */
  predicate TokenStep(inp: Input, r: Record, r': Record) {
    || r'.token == r.token
    || (r'.token == None && (r'.voiding || r'.delivered))
    || (r.token == None && !r.voiding && !r.delivered && inp.Reserving? && r'.token == Some(inp.token))
  }

  /** Flags only move forward, and only for a cause that allows it. */
  predicate RecStep(inp: Input, id: KeyID, r: Record, r': Record) {
    && SameIdentity(r, r')
    && (r.delivered ==> r'.delivered)
    && (r'.delivered && !r.delivered ==> inp.Consuming? && r.ready)
    && (r.ready ==> r'.ready || r'.voiding)
    && TokenStep(inp, r, r')
    && (r.voiding ==> StillVoiding(r, r'))
    && (r.sent ==> r'.sent && r'.next == r.next)
    && (r'.sent && !r.sent ==> inp.Sending? && r'.next == inp.to && !r.voiding)
    && (r'.next != r.next ==> inp.Sending? && !r.sent && !r.voiding)
    && (r'.ready && !r.ready ==> !r.voiding && inp.FromAcks? && inp.peer == r.next && Reports(inp.acks, id, Relayed))
    && (r'.voiding && r'.sent && r'.next !in r'.voidPending ==>
          (r.voiding && r.next !in r.voidPending) || NextConfirmed(inp, id, r'))
  }

  /** Where a record unknown before came from. */
  predicate NewRec(inp: Input, id: KeyID, r: Record) {
    && !r.sent && !r.delivered && r.token == None
    && (r.ready ==> r.role == Target)
    && match inp
       case Storing(k) => r.role == Source && id == k.id && r.pair == k.pair && r.digest == Some(Digest(WireKey(k.id,
         k.material, map[]), k.pair, map[]))
       case FromTransfer(p, t) =>
         && r.role != Source && !r.unknown && r.sender == p && t.targets != []
           && r.pair == Association(t.initiator, t.targets[0])
         && exists i ::
           0 <= i < |t.keys| && t.keys[i].id == id && r.digest == Some(Digest(t.keys[i], r.pair, t.optional))
       case FromVoid(p, v) =>
         && r.role != Source && r.unknown && !r.ready && r.sender == p && id in v.ids
         && v.targets != [] && r.pair == Association(v.initiator, v.targets[0])
       case _ => false
  }

  /** Jobs are old ones with their report unchanged, or numbered after b. */
  predicate JobsFrom(b: nat, s: State, s': State) {
    forall j :: j in s'.acks ==>
      j.serial > b || (j in s.acks && s'.acks[j].peer == s.acks[j].peer && s'.acks[j].ack == s.acks[j].ack)
  }

  /** The result owed to p about id is pending, or it was owed before and had already left the outbox. */
  predicate StillOwed(s: State, s': State, id: KeyID, p: Peer)
    requires id in s'.keys
  {
    var r' := s'.keys[id];
    || Owed(s'.acks, p, id, CurrentStatus(r'))
    || (id in s.keys && p in OwedPeers(s.keys[id]) && CurrentStatus(s.keys[id]) == CurrentStatus(r')
        && !Owed(s.acks, p, id, CurrentStatus(r')))
  }

  predicate OweStep(s: State, s': State) {
    forall id, p :: id in s'.keys && p in OwedPeers(s'.keys[id]) ==> StillOwed(s, s', id, p)
  }

  predicate KeysStep(inp: Input, s: State, s': State) {
    && (forall id :: id in s.keys ==> id in s'.keys && RecStep(inp, id, s.keys[id], s'.keys[id]))
    && (forall id :: id in s'.keys && id !in s.keys ==> NewRec(inp, id, s'.keys[id]))
  }

  /** One node's move from s to s' for a given cause; b is the serial of the committed state it began from. */
  predicate Delta(inp: Input, b: nat, s: State, s': State) {
    KeysStep(inp, s, s') && JobsFrom(b, s, s') && OweStep(s, s') && s.serial <= s'.serial
  }

  lemma RecStepRefl(inp: Input, id: KeyID, r: Record)
    ensures RecStep(inp, id, r, r)
  {
  }

  lemma TokenStepTrans(inp: Input, r: Record, r1: Record, r2: Record)
    requires TokenStep(inp, r, r1) && TokenStep(inp, r1, r2)
    requires (r.voiding ==> r1.voiding) && (r1.voiding ==> r2.voiding)
    requires (r.delivered ==> r1.delivered) && (r1.delivered ==> r2.delivered)
    ensures TokenStep(inp, r, r2)
  {
  }

  lemma RecStepTrans(inp: Input, id: KeyID, r: Record, r1: Record, r2: Record)
    requires RecStep(inp, id, r, r1) && RecStep(inp, id, r1, r2)
    ensures RecStep(inp, id, r, r2)
  {
    TokenStepTrans(inp, r, r1, r2);
    hide TokenStep;
  }

  lemma DeltaTrans(inp: Input, b: nat, s: State, s1: State, s2: State)
    requires Delta(inp, b, s, s1) && Delta(inp, b, s1, s2)
    ensures Delta(inp, b, s, s2)
  {
    forall id | id in s.keys ensures id in s2.keys && RecStep(inp, id, s.keys[id], s2.keys[id]) {
      RecStepTrans(inp, id, s.keys[id], s1.keys[id], s2.keys[id]);
    }
    forall id | id in s2.keys && id !in s.keys ensures NewRec(inp, id, s2.keys[id]) {
      if id in s1.keys { assert NewRec(inp, id, s1.keys[id]); }
    }
    forall id, p | id in s2.keys && p in OwedPeers(s2.keys[id]) ensures StillOwed(s, s2, id, p) {
      assert StillOwed(s1, s2, id, p);
      if !Owed(s2.acks, p, id, CurrentStatus(s2.keys[id])) {
        assert StillOwed(s, s1, id, p);
      }
    }
  }

  lemma WorkingDelta(c: Policy, inp: Input, s: State)
    requires Inv(c, s)
    ensures Inv(c, Working(s)) && Delta(inp, s.serial, s, Working(s))
  {
    WorkingInv(c, s);
    hide Inv;
    forall id | id in s.keys ensures RecStep(inp, id, s.keys[id], s.keys[id]) { RecStepRefl(inp, id, s.keys[id]); }
    hide RecStep;
  }

  lemma WorkingInv(c: Policy, s: State)
    requires Inv(c, s)
    ensures Inv(c, Working(s))
  {
    var w := Working(s);
    hide RecInv;
    forall j | j in w.acks ensures JobInv(c, w, j) { assert JobInv(c, s, j); }
  }

  // Every handler replaces the record of a key and then settles what that record owes.

  /** Replaces or inserts a record; `wipe` drops the pending results about it. */
  function Put(s: State, id: KeyID, r: Record, wipe: bool): State {
    s.(keys := s.keys[id := r],
       order := if id in s.keys then s.order else s.order + [id],
       acks := if wipe then WithoutKey(s.acks, id) else s.acks)
  }

  function Settle(s: State, id: KeyID): State
    requires id in s.keys
  {
    Owe(s, id, s.keys[id].pair, OwedPeers(s.keys[id]), CurrentStatus(s.keys[id]))
  }

  lemma OweNobody(s: State, id: KeyID, pair: Association, st: Status)
    ensures Owe(s, id, pair, {}, st) == s
  {
    assert Owe(s, id, pair, {}, st).acks == s.acks;
  }

  /** The replacement keeps owing whoever already has a result pending. */
  predicate KeepsOwing(s: State, id: KeyID, r': Record, wipe: bool) {
    wipe || id !in s.keys || OwedPeers(s.keys[id]) <= OwedPeers(r')
  }

  predicate AckShape(acks: map<JobID, Job>) {
    forall j :: j in acks ==> j.kid == KeyOf(acks[j]) && j.peer == acks[j].peer
  }

  /** A job `Owe` leaves alone. */
  predicate Stays(s: State, id: KeyID, peers: set<Peer>, st: Status, j: JobID) {
    j in s.acks && !(s.acks[j].peer in peers && KeyOf(s.acks[j]) == id && s.acks[j].ack.status != st)
  }

  /** A job `Owe` adds. */
  predicate Joins(s: State, id: KeyID, peers: set<Peer>, st: Status, j: JobID) {
    j == JobID(s.serial, id, j.peer) && j.peer in peers && j.peer != "" && !Owed(s.acks, j.peer, id, st)
  }

  lemma OweEffect(s: State, id: KeyID, pair: Association, peers: set<Peer>, st: Status)
    requires AckShape(s.acks)
    ensures var acks' := Owe(s, id, pair, peers, st).acks;
      && (forall j :: j in acks' <==> Stays(s, id, peers, st, j) || Joins(s, id, peers, st, j))
      && (forall j :: Stays(s, id, peers, st, j) ==> acks'[j] == s.acks[j])
      && (forall j :: Joins(s, id, peers, st, j) ==> acks'[j] == Job(j.peer, ResultAbout(id, pair, st), 0))
    ensures var s' := Owe(s, id, pair, peers, st); s' == s.(acks := s'.acks)
  {
    forall j | Stays(s, id, peers, st, j) ensures !Joins(s, id, peers, st, j) {
      if Joins(s, id, peers, st, j) { assert Matches(s.acks[j], j.peer, id); }
    }
  }

  lemma OwePays(s: State, id: KeyID, pair: Association, peers: set<Peer>, st: Status, p: Peer)
    requires AckShape(s.acks) && p in peers && p != ""
    ensures Owed(Owe(s, id, pair, peers, st).acks, p, id, st)
  {
    OweEffect(s, id, pair, peers, st);
    var acks' := Owe(s, id, pair, peers, st).acks;
    if Owed(s.acks, p, id, st) {
      var j :| j in s.acks && Matches(s.acks[j], p, id) && s.acks[j].ack.status == st;
      assert Stays(s, id, peers, st, j);
      assert acks'[j] == s.acks[j];
    } else {
      var j := JobID(s.serial, id, p);
      assert Joins(s, id, peers, st, j);
      assert Matches(acks'[j], p, id);
    }
  }

  lemma Shapely(c: Policy, s: State)
    requires JobsInv(c, s)
    ensures AckShape(s.acks)
  {
    forall j | j in s.acks ensures j.kid == KeyOf(s.acks[j]) && j.peer == s.acks[j].peer { assert JobInv(c, s, j); }
  }

  lemma SettledJob(c: Policy, s: State, id: KeyID, r': Record, wipe: bool, j: JobID)
    requires Inv(c, s) && id != "" && KeepsOwing(s, id, r', wipe)
    requires id in s.keys ==> s.keys[id].pair == r'.pair
    requires j in Settle(Put(s, id, r', wipe), id).acks
    ensures JobInv(c, Settle(Put(s, id, r', wipe), id), j)
  {
    var m := Put(s, id, r', wipe);
    Shapely(c, s);
    OweEffect(m, id, r'.pair, OwedPeers(r'), CurrentStatus(r'));
    if Stays(m, id, OwedPeers(r'), CurrentStatus(r'), j) {
      assert JobInv(c, s, j);
    }
  }

  /** A stale job about id goes or is current, so it clashes with no added one. */
  lemma NoClash(m: State, id: KeyID, peers: set<Peer>, st: Status, pair: Association, i: JobID, j: JobID)
    requires AckShape(m.acks) && id != ""
    requires Stays(m, id, peers, st, i) && Joins(m, id, peers, st, j)
    ensures !SameSubject(m.acks[i], Job(j.peer, ResultAbout(id, pair, st), 0))
  {
    if SameSubject(m.acks[i], Job(j.peer, ResultAbout(id, pair, st), 0)) {
      assert Matches(m.acks[i], j.peer, id);
    }
  }

  lemma OweUnique(s: State, id: KeyID, pair: Association, peers: set<Peer>, st: Status)
    requires AckShape(s.acks) && UniqueJobs(s.acks) && id != ""
    ensures UniqueJobs(Owe(s, id, pair, peers, st).acks)
  {
    OweEffect(s, id, pair, peers, st);
    var acks' := Owe(s, id, pair, peers, st).acks;
    forall i, j | i in acks' && j in acks' && SameSubject(acks'[i], acks'[j]) ensures i == j {
      if Stays(s, id, peers, st, i) && Joins(s, id, peers, st, j) { NoClash(s, id, peers, st, pair, i, j); }
      if Stays(s, id, peers, st, j) && Joins(s, id, peers, st, i) { NoClash(s, id, peers, st, pair, j, i); }
    }
  }

  lemma SettledJobs(c: Policy, s: State, id: KeyID, r': Record, wipe: bool)
    requires Inv(c, s) && id != "" && KeepsOwing(s, id, r', wipe)
    requires id in s.keys ==> s.keys[id].pair == r'.pair
    ensures var s' := Settle(Put(s, id, r', wipe), id); JobsInv(c, s') && UniqueJobs(s'.acks)
  {
    var m := Put(s, id, r', wipe);
    forall j | j in Settle(m, id).acks ensures JobInv(c, Settle(m, id), j) {
      SettledJob(c, s, id, r', wipe, j);
    }
    Shapely(c, s);
    OweUnique(m, id, r'.pair, OwedPeers(r'), CurrentStatus(r'));
  }

  lemma PutOrder(s: State, id: KeyID, r': Record, wipe: bool)
    requires OrderInv(s) && id != ""
    ensures OrderInv(Put(s, id, r', wipe))
  {
    var o := Put(s, id, r', wipe).order;
    forall x | x in s.keys ensures x in o { var i :| 0 <= i < |s.order| && s.order[i] == x; assert o[i] == x; }
    if id !in s.keys { assert o[|s.order|] == id; }
  }

  /** A cause admits replacing (or creating) the record of id by r'. */
  predicate Allowed(c: Policy, inp: Input, s: State, id: KeyID, r': Record, wipe: bool) {
    && id != "" && RecInv(c, id, r')
    && (r'.token.Some? ==> r'.token.value <= s.serial)
    && KeepsOwing(s, id, r', wipe)
    && (if id in s.keys then RecStep(inp, id, s.keys[id], r') else NewRec(inp, id, r'))
  }

  lemma SettledKeys(c: Policy, inp: Input, s: State, id: KeyID, r': Record, wipe: bool)
    requires Inv(c, s) && Allowed(c, inp, s, id, r', wipe)
    ensures var s' := Put(s, id, r', wipe); KeysStep(inp, s, s') && RecsInv(c, s') && TokenInv(s')
  {
    var s' := Put(s, id, r', wipe);
    forall x | x in s.keys ensures x in s'.keys && RecStep(inp, x, s.keys[x], s'.keys[x]) {
      if x != id { RecStepRefl(inp, x, s.keys[x]); }
    }
    forall x | x in s'.keys ensures RecInv(c, x, s'.keys[x])
      && (s'.keys[x].token.Some? ==> s'.keys[x].token.value <= s'.serial) {
      if x != id { assert x in s.keys; }
    }
  }

  lemma SettledOwes(c: Policy, inp: Input, s: State, id: KeyID, r': Record, wipe: bool, x: KeyID, p: Peer)
    requires Inv(c, s) && Allowed(c, inp, s, id, r', wipe)
    requires var s' := Settle(Put(s, id, r', wipe), id); x in s'.keys && p in OwedPeers(s'.keys[x])
    ensures StillOwed(s, Settle(Put(s, id, r', wipe), id), x, p)
  {
    Shapely(c, s);
    if x == id {
      assert p != "";
      OwePays(Put(s, id, r', wipe), id, r'.pair, OwedPeers(r'), CurrentStatus(r'), p);
    } else if Owed(s.acks, p, x, CurrentStatus(s.keys[x])) {
      hide Inv, Allowed;
      OthersOwed(s, id, r', wipe, x, p);
    }
  }

  /** Settling one key leaves the results about the others. */
  lemma OthersOwed(s: State, id: KeyID, r': Record, wipe: bool, x: KeyID, p: Peer)
    requires AckShape(s.acks) && x != id && x in s.keys && Owed(s.acks, p, x, CurrentStatus(s.keys[x]))
    ensures var s' := Settle(Put(s, id, r', wipe), id);
      x in s'.keys && s'.keys[x] == s.keys[x] && Owed(s'.acks, p, x, CurrentStatus(s.keys[x]))
  {
    hide OwedPeers;
    var m, st := Put(s, id, r', wipe), CurrentStatus(r');
    OweEffect(m, id, r'.pair, OwedPeers(r'), st);
    var j :| j in s.acks && Matches(s.acks[j], p, x) && s.acks[j].ack.status == CurrentStatus(s.keys[x]);
    assert Stays(m, id, OwedPeers(r'), st, j);
    assert Matches(Settle(m, id).acks[j], p, x);
  }

  lemma SettledFrom(c: Policy, b: nat, s: State, id: KeyID, r': Record, wipe: bool)
    requires Inv(c, s) && b < s.serial
    ensures JobsFrom(b, s, Settle(Put(s, id, r', wipe), id))
  {
    var m := Put(s, id, r', wipe);
    Shapely(c, s);
    OweEffect(m, id, r'.pair, OwedPeers(r'), CurrentStatus(r'));
  }

  /** The step behind every per-key handler: invariant kept, move allowed. */
  lemma Settles(c: Policy, inp: Input, b: nat, s: State, id: KeyID, r': Record, wipe: bool)
    requires Inv(c, s) && b < s.serial && Allowed(c, inp, s, id, r', wipe)
    ensures var s' := Settle(Put(s, id, r', wipe), id); Inv(c, s') && Delta(inp, b, s, s')
  {
    var s' := Settle(Put(s, id, r', wipe), id);
    SettledJobs(c, s, id, r', wipe);
    SettledKeys(c, inp, s, id, r', wipe);
    SettledFrom(c, b, s, id, r', wipe);
    forall x, p | x in s'.keys && p in OwedPeers(s'.keys[x]) ensures StillOwed(s, s', x, p) {
      SettledOwes(c, inp, s, id, r', wipe, x, p);
    }
    PutOrder(s, id, r', wipe);
  }
}
