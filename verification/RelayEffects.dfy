/** What the requests of peers, operators and the worker make of each key: of its record and of the results pending
    about it. Each effect is written out field by field, key by key, without the handlers' own functions. */
module RelayEffects {
  import opened Core
  import opened Peering
  import opened Etsi020
  import opened RelayState
  import opened RelayInvariant
  import opened RelayHandlers

  /** A pending result as its receiver gets it. */
  datatype Notice = Notice(to: Peer, ack: Ack)

  /** The results pending about a key. */
  function About(s: State, id: KeyID): set<Notice> {
    set j | j in s.acks && id in s.acks[j].ack.ids :: Notice(s.acks[j].peer, s.acks[j].ack)
  }

  /** The results that name no key. */
  function Blank(s: State): set<Notice> {
    set j | j in s.acks && s.acks[j].ack.ids == [] :: Notice(s.acks[j].peer, s.acks[j].ack)
  }

  function Told(id: KeyID, r: Record, to: Peer, st: Status): Notice {
    Notice(to, Ack([id], st, r.pair.master, [r.pair.slave]))
  }

  /** Nothing about this key changed: neither its record, if it has one, nor the pending results. */
  predicate SameAt(s: State, s': State, x: KeyID) {
    (x in s'.keys <==> x in s.keys) && (x in s.keys ==> s'.keys[x] == s.keys[x]) && About(s', x) == About(s, x)
  }

  /** Nothing changed outside these keys. */
  ghost predicate Untouched(s: State, s': State, ids: seq<KeyID>) {
    Blank(s') == Blank(s) && forall x :: x !in ids ==> SameAt(s, s', x)
  }

  // Records.

  /** A void begins: material, readiness and reservation are gone. The peer the key came from and the one it went
      to have to confirm, but for those who have; whoever asked is to be told. */
  ghost predicate Begun(r: Record, r': Record, askers: set<Peer>, confirmed: set<Peer>, failed: bool) {
    && !r.voiding
    && r' == r.(voiding := true, ready := false, token := None, material := [], retry := 0, voidFailed := failed,
         voidPending := r'.voidPending, voidRequests := askers)
    && forall p :: p in r'.voidPending <==>
         p !in confirmed && ((r.sent && p == r.next) || (r.sender != "" && p == r.sender))
  }

  /** A void begins at a peer's request, which also confirms it, or locally, for the empty name. A delivery makes
      it a failure. */
  ghost predicate Begins(r: Record, r': Record, asker: Peer) {
    var askers := if asker == "" then {} else {asker};
    Begun(r, r', askers, askers, r.delivered)
  }

  /** Somebody else asks: the requester joins those to be told, and need not confirm itself. */
  ghost predicate Joined(r: Record, r': Record, asker: Peer) {
    && r.voiding
    && r' == r.(voidPending := r'.voidPending, voidRequests := r'.voidRequests)
    && (forall p :: p in r'.voidPending <==> p in r.voidPending && p != asker)
    && forall p :: p in r'.voidRequests <==> p in r.voidRequests || (p == asker && asker != "")
  }

  /** What the results pending about a key being voided are: none while somebody has to confirm, then one for
      everybody who asked, that it failed, that the key was not there, or that it is gone. */
  predicate Answered(id: KeyID, r: Record, about: set<Notice>) {
    && (r.voidPending != {} ==> about == {})
    && (r.voidPending == {} && r.voidFailed ==> about == set p | p in r.voidRequests :: Told(id, r, p, FailedToVoid))
    && (r.voidPending == {} && !r.voidFailed && r.unknown ==>
          about == set p | p in r.voidRequests :: Told(id, r, p, NotPresent))
    && (r.voidPending == {} && !r.voidFailed && !r.unknown ==>
          about == set p | p in r.voidRequests :: Told(id, r, p, Voided))
  }

  // Settling, seen from outside.

  /** What a record owes, as results. */
  function Owing(id: KeyID, r: Record): set<Notice> {
    set p | p in OwedPeers(r) :: Told(id, r, p, CurrentStatus(r))
  }

  lemma JobIs(c: Policy, s: State, j: JobID, id: KeyID)
    requires JobsInv(c, s) && j in s.acks && id in s.acks[j].ack.ids
    ensures id in s.keys && s.acks[j].peer in OwedPeers(s.keys[id]) && KeyOf(s.acks[j]) == id
    ensures Notice(s.acks[j].peer, s.acks[j].ack) == Told(id, s.keys[id], s.acks[j].peer, CurrentStatus(s.keys[id]))
  {
    assert JobInv(c, s, j);
    assert s.acks[j].ack.ids == [id];
  }

  /** Only what a record owes is pending. */
  lemma AboutOwing(c: Policy, s: State, id: KeyID)
    requires JobsInv(c, s)
    ensures id !in s.keys ==> About(s, id) == {}
    ensures id in s.keys ==> About(s, id) <= Owing(id, s.keys[id])
  {
    forall j | j in s.acks && id in s.acks[j].ack.ids
      ensures id in s.keys && Notice(s.acks[j].peer, s.acks[j].ack) in Owing(id, s.keys[id]) {
      JobIs(c, s, j, id);
    }
  }

  lemma OwedNotice(c: Policy, s: State, id: KeyID, p: Peer, st: Status)
    requires JobsInv(c, s) && id in s.keys && id != "" && Owed(s.acks, p, id, st)
    ensures st == CurrentStatus(s.keys[id]) && Told(id, s.keys[id], p, st) in About(s, id)
  {
    var j :| j in s.acks && Matches(s.acks[j], p, id) && s.acks[j].ack.status == st;
    assert id in s.acks[j].ack.ids;
    JobIs(c, s, j, id);
  }

  /** Replacing a record and settling it leaves exactly what it owes pending, and nothing else changed. */
  lemma SettledAbout(c: Policy, s: State, id: KeyID, r': Record, wipe: bool)
    requires Inv(c, s) && id != "" && RecInv(c, id, r') && KeepsOwing(s, id, r', wipe)
    requires id in s.keys ==> s.keys[id].pair == r'.pair
    ensures var s' := Settle(Put(s, id, r', wipe), id);
      && About(s', id) == Owing(id, r') && Untouched(s, s', [id])
      && s'.keys == s.keys[id := r'] && s'.order == (if id in s.keys then s.order else s.order + [id])
      && s'.cursor == s.cursor && s'.serial == s.serial
  {
    var m := Put(s, id, r', wipe);
    var s' := Settle(m, id);
    Shapely(c, s);
    SettledJobs(c, s, id, r', wipe);
    AboutOwing(c, s', id);
    forall p | p in OwedPeers(r') ensures Told(id, r', p, CurrentStatus(r')) in About(s', id) {
      OwedNamed(c, id, r', p);
      OwePays(m, id, r'.pair, OwedPeers(r'), CurrentStatus(r'), p);
      OwedNotice(c, s', id, p, CurrentStatus(r'));
    }
    SettledSameBut(c, s, id, r', wipe);
    SameElsewhere(s, s', id);
  }

  lemma OwedNamed(c: Policy, id: KeyID, r: Record, p: Peer)
    requires RecInv(c, id, r) && p in OwedPeers(r)
    ensures p != ""
  {
  }

  /** The jobs of a and b are the same but for those about one key. */
  predicate SameBut(a: map<JobID, Job>, b: map<JobID, Job>, id: KeyID) {
    && (forall j :: j in a && id !in a[j].ack.ids ==> j in b && b[j] == a[j])
    && (forall j :: j in b && id !in b[j].ack.ids ==> j in a && b[j] == a[j])
    && (forall j :: j in a && id in a[j].ack.ids ==> a[j].ack.ids == [id])
    && (forall j :: j in b && id in b[j].ack.ids ==> b[j].ack.ids == [id])
  }

  lemma SameButTrans(a: map<JobID, Job>, b: map<JobID, Job>, d: map<JobID, Job>, id: KeyID)
    requires SameBut(a, b, id) && SameBut(b, d, id)
    ensures SameBut(a, d, id)
  {
  }

  lemma SettledSameBut(c: Policy, s: State, id: KeyID, r': Record, wipe: bool)
    requires Inv(c, s) && id != ""
    ensures SameBut(s.acks, Settle(Put(s, id, r', wipe), id).acks, id)
  {
    var m := Put(s, id, r', wipe);
    Shapely(c, s);
    JobsNamed(c, s, id);
    hide Inv, JobsInv, Owe, CurrentStatus, OwedPeers;
    PutSameBut(s, id, r', wipe);
    OweSameBut(m, id, OwedPeers(r'), r'.pair, CurrentStatus(r'));
    hide SameBut;
    SameButTrans(s.acks, m.acks, Settle(m, id).acks, id);
  }

  /** Jobs name one key or none, and the key is where the outbox looks for it. */
  predicate Named(acks: map<JobID, Job>, id: KeyID) {
    forall j :: j in acks ==>
      && (id in acks[j].ack.ids <==> KeyOf(acks[j]) == id) && (id in acks[j].ack.ids ==> acks[j].ack.ids == [id])
  }

  lemma JobsNamed(c: Policy, s: State, id: KeyID)
    requires JobsInv(c, s) && id != ""
    ensures Named(s.acks, id)
  {
    forall j | j in s.acks ensures id in s.acks[j].ack.ids <==> KeyOf(s.acks[j]) == id
      ensures id in s.acks[j].ack.ids ==> s.acks[j].ack.ids == [id] {
      assert JobInv(c, s, j);
    }
  }

  lemma PutSameBut(s: State, id: KeyID, r': Record, wipe: bool)
    requires Named(s.acks, id) && AckShape(s.acks)
    ensures var acks' := Put(s, id, r', wipe).acks; SameBut(s.acks, acks', id) && Named(acks', id) && AckShape(acks')
  {
  }

  lemma OweSameBut(m: State, id: KeyID, peers: set<Peer>, pair: Association, st: Status)
    requires AckShape(m.acks) && Named(m.acks, id)
    ensures SameBut(m.acks, Owe(m, id, pair, peers, st).acks, id)
  {
    OweEffect(m, id, pair, peers, st);
    hide Owe, SameBut;
    var acks' := Owe(m, id, pair, peers, st).acks;
    forall j | j in m.acks && id !in m.acks[j].ack.ids ensures j in acks' && acks'[j] == m.acks[j] {
      assert Stays(m, id, peers, st, j);
    }
    forall j | j in acks' && (id !in acks'[j].ack.ids || acks'[j].ack.ids != [id])
      ensures j in m.acks && acks'[j] == m.acks[j] {
      assert acks'[j].ack.ids != [id];
      assert Stays(m, id, peers, st, j) || Joins(m, id, peers, st, j);
    }
    SameButFrom(m.acks, acks', id);
  }

  lemma SameButFrom(a: map<JobID, Job>, b: map<JobID, Job>, id: KeyID)
    requires forall j :: j in a && id !in a[j].ack.ids ==> j in b && b[j] == a[j]
    requires forall j :: j in b && (id !in b[j].ack.ids || b[j].ack.ids != [id]) ==> j in a && b[j] == a[j]
    requires Named(a, id)
    ensures SameBut(a, b, id)
  {
  }

  lemma SameElsewhere(s: State, s': State, id: KeyID)
    requires SameBut(s.acks, s'.acks, id)
    ensures Blank(s') == Blank(s) && forall x :: x != id ==> About(s', x) == About(s, x)
  {
    forall x | x != id ensures About(s', x) == About(s, x) {}
  }

  // Voids.

  lemma OwingAnswered(id: KeyID, r: Record)
    requires r.voiding
    ensures Answered(id, r, Owing(id, r))
  {
    if r.voidPending == {} {
      var st := CurrentStatus(r);
      assert Owing(id, r) == set p | p in r.voidRequests :: Told(id, r, p, st);
    }
  }

  ghost predicate VoidedBy(r: Record, r': Record, asker: Peer) { Begins(r, r', asker) || Joined(r, r', asker) }

  lemma VoidingBy(c: Policy, id: KeyID, r: Record, asker: Peer)
    requires RecInv(c, id, r)
    ensures VoidedBy(r, Voiding(r, asker), asker) && Voiding(r, asker).voiding
  {
    assert r.sent ==> r.next != "";
    assert r.voiding ==> "" !in r.voidPending;
    hide RecInv;
    if r.voiding { VoidingJoins(r, asker); } else { VoidingBegins(r, asker); }
    hide Begins, Joined;
  }

  lemma VoidingJoins(r: Record, asker: Peer)
    requires r.voiding && "" !in r.voidPending
    ensures Joined(r, Voiding(r, asker), asker)
  {
  }

  lemma VoidingBegins(r: Record, asker: Peer)
    requires !r.voiding && (r.sent ==> r.next != "")
    ensures Begins(r, Voiding(r, asker), asker)
  {
  }

  /** One known key voided. */
  lemma VoidEffect(c: Policy, s: State, id: KeyID, asker: Peer)
    requires Inv(c, s) && id in s.keys && (asker == "" || asker in Neighbours(s.keys[id]))
    ensures var s' := FinishVoid(StartVoid(s, id, asker), id);
      && s'.keys.Keys == s.keys.Keys && s'.order == s.order && s'.cursor == s.cursor && s'.serial == s.serial
      && VoidedBy(s.keys[id], s'.keys[id], asker) && Answered(id, s'.keys[id], About(s', id)) && Untouched(s, s', [id])
  {
    var r := s.keys[id];
    assert RecInv(c, id, r);
    VoidSettles(s, id, asker);
    VoidingRec(c, Internal, id, r, asker);
    VoidingBy(c, id, r, asker);
    OwingAnswered(id, Voiding(r, asker));
    hide Inv, RecInv, FinishVoid, StartVoid, Voiding, Untouched, Answered, Settle;
    SettledAbout(c, s, id, Voiding(r, asker), !r.voiding);
  }

  /** Same keys in the same order, same turns. */
  predicate SameFrame(s: State, s': State) {
    s'.keys.Keys == s.keys.Keys && s'.order == s.order && s'.cursor == s.cursor
  }

  lemma UntouchedTrans(s: State, s1: State, s2: State, a: seq<KeyID>, b: seq<KeyID>, ids: seq<KeyID>)
    requires Untouched(s, s1, a) && Untouched(s1, s2, b)
    requires (forall x :: x in a ==> x in ids) && (forall x :: x in b ==> x in ids)
    ensures Untouched(s, s2, ids)
  {
  }

  lemma UntouchedRefl(s: State)
    ensures forall ids :: Untouched(s, s, ids)
  {
  }

  lemma FirstDistinct(id: KeyID, rest: seq<KeyID>)
    requires Distinct([id] + rest)
    ensures Distinct(rest) && id !in rest
  {
    forall i, j | 0 <= i < j < |rest| ensures rest[i] != rest[j] {
      assert ([id] + rest)[i + 1] == rest[i] && ([id] + rest)[j + 1] == rest[j];
    }
    forall i | 0 <= i < |rest| ensures rest[i] != id {
      assert ([id] + rest)[0] == id && ([id] + rest)[i + 1] == rest[i];
    }
  }

  lemma SerialMoves(inp: Input, s: State, s1: State)
    requires s.serial > 0 && Delta(inp, s.serial - 1, s, s1)
    ensures s1.serial > 0
  {
  }
}
