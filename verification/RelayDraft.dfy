/** The working copy a transaction edits in place: `change` hands it to a handler and commits it afterwards. */
module RelayDraft {
  import opened Core
  import opened Counting
  import opened Peering
  import opened Etsi020
  import opened RelayState
  import opened RelayInvariant

  /** At most one job about a key for a peer, under the number that names both. */
  ghost predicate OneEach(acks: map<JobID, Job>) {
    && AckShape(acks)
    && forall i, j ::
         (i in acks && j in acks && acks[i].peer == acks[j].peer
          && KeyOf(acks[i]) == KeyOf(acks[j]) && KeyOf(acks[i]) != "") ==> i == j
  }

  lemma InvOneEach(c: Policy, s: State)
    requires JobsInv(c, s) && UniqueJobs(s.acks)
    ensures OneEach(s.acks)
  {
    forall i, j | i in s.acks && j in s.acks && s.acks[i].peer == s.acks[j].peer
      && KeyOf(s.acks[i]) == KeyOf(s.acks[j]) && KeyOf(s.acks[i]) != "" ensures i == j {
      assert JobInv(c, s, i) && JobInv(c, s, j);
      assert SameSubject(s.acks[i], s.acks[j]);
    }
    forall j | j in s.acks ensures j.kid == KeyOf(s.acks[j]) && j.peer == s.acks[j].peer { assert JobInv(c, s, j); }
  }

  lemma OweOneEach(s: State, id: KeyID, pair: Association, peers: set<Peer>, st: Status)
    requires OneEach(s.acks) && id != ""
    ensures OneEach(Owe(s, id, pair, peers, st).acks)
  {
    OweEffect(s, id, pair, peers, st);
    hide Owe, Stays, Joins;
    var acks' := Owe(s, id, pair, peers, st).acks;
    forall i, j | i in acks' && j in acks' && acks'[i].peer == acks'[j].peer && KeyOf(acks'[i]) == KeyOf(acks'[j])
      && KeyOf(acks'[i]) != "" ensures i == j {
      OweSame(s, id, pair, peers, st, i, j);
    }
  }

  lemma OweSame(s: State, id: KeyID, pair: Association, peers: set<Peer>, st: Status, i: JobID, j: JobID)
    requires OneEach(s.acks) && id != ""
    requires var acks' := Owe(s, id, pair, peers, st).acks;
      i in acks' && j in acks' && acks'[i].peer == acks'[j].peer && KeyOf(acks'[i]) == KeyOf(acks'[j])
      && KeyOf(acks'[i]) != ""
    ensures i == j
  {
    OweEffect(s, id, pair, peers, st);
    hide Owe;
    StaysOrJoins(s, id, peers, st, i, j);
    StaysOrJoins(s, id, peers, st, j, i);
  }

  /** A job that stays and one that joins are about different keys or for different peers. */
  lemma StaysOrJoins(s: State, id: KeyID, peers: set<Peer>, st: Status, i: JobID, j: JobID)
    ensures Stays(s, id, peers, st, i) && Joins(s, id, peers, st, j) ==>
      s.acks[i].peer != j.peer || KeyOf(s.acks[i]) != id
  {
    if Stays(s, id, peers, st, i) && s.acks[i].ack.status == st && KeyOf(s.acks[i]) == id {
      assert Owed(s.acks, s.acks[i].peer, id, st) by { assert Matches(s.acks[i], s.acks[i].peer, id); }
    }
  }

  lemma WithoutOneEach(acks: map<JobID, Job>, id: KeyID)
    requires OneEach(acks)
    ensures OneEach(WithoutKey(acks, id))
  {
  }

  /** Owing other peers does not change what one peer is owed. */
  lemma OwedAfter(s: State, id: KeyID, pair: Association, peers: set<Peer>, p: Peer, st: Status)
    requires OneEach(s.acks) && id != "" && p !in peers
    ensures Owed(Owe(s, id, pair, peers, st).acks, p, id, st) == Owed(s.acks, p, id, st)
  {
    OweEffect(s, id, pair, peers, st);
    hide Owe;
    var acks' := Owe(s, id, pair, peers, st).acks;
    if Owed(s.acks, p, id, st) {
      var j :| j in s.acks && Matches(s.acks[j], p, id) && s.acks[j].ack.status == st;
      assert Stays(s, id, peers, st, j);
      assert Matches(acks'[j], p, id);
    }
    if Owed(acks', p, id, st) {
      var j :| j in acks' && Matches(acks'[j], p, id) && acks'[j].ack.status == st;
      assert Stays(s, id, peers, st, j);
    }
  }

  lemma OweAnotherKey(s: State, id: KeyID, pair: Association, peers: set<Peer>, p: Peer, st: Status, j: JobID)
    requires OneEach(s.acks) && id != "" && p !in peers
    ensures var a := Owe(s, id, pair, peers, st);
      && (Stays(a, id, {p}, st, j) || Joins(a, id, {p}, st, j) <==>
        Stays(s, id, peers + {p}, st, j) || Joins(s, id, peers + {p}, st, j))
      && (Stays(a, id, {p}, st, j) && Stays(s, id, peers + {p}, st, j) ==> a.acks[j] == s.acks[j])
      && (Stays(a, id, {p}, st, j) && !Stays(s, id, peers + {p}, st, j) ==>
        a.acks[j] == Job(j.peer, ResultAbout(id, pair, st), 0))
      && (Joins(a, id, {p}, st, j) ==> Joins(s, id, peers + {p}, st, j))
  {
    OweEffect(s, id, pair, peers, st);
    OwedAfter(s, id, pair, peers, p, st);
    hide Owe, Owed;
    if j.peer == p { assert Joins(s, id, peers, st, j) ==> p in peers; }
    assert Stays(s, id, peers, st, j) ==> Owe(s, id, pair, peers, st).acks[j] == s.acks[j];
  }

  /** Owing one more peer after a set of peers is owing them all. */
  lemma OweAnother(s: State, id: KeyID, pair: Association, peers: set<Peer>, p: Peer, st: Status)
    requires OneEach(s.acks) && id != "" && p !in peers
    ensures Owe(Owe(s, id, pair, peers, st), id, pair, {p}, st) == Owe(s, id, pair, peers + {p}, st)
  {
    var a, b := Owe(s, id, pair, peers, st), Owe(s, id, pair, peers + {p}, st);
    var d := Owe(a, id, pair, {p}, st);
    hide OneEach;
    forall j ensures (j in d.acks <==> j in b.acks) && (j in d.acks ==> d.acks[j] == b.acks[j]) {
      hide Owe;
      OweAnotherAt(s, id, pair, peers, p, st, j);
    }
    assert d.acks == b.acks;
  }

  lemma OweAnotherAt(s: State, id: KeyID, pair: Association, peers: set<Peer>, p: Peer, st: Status, j: JobID)
    requires OneEach(s.acks) && id != "" && p !in peers
    ensures var b := Owe(s, id, pair, peers + {p}, st);
      var d := Owe(Owe(s, id, pair, peers, st), id, pair, {p}, st);
      (j in d.acks <==> j in b.acks) && (j in d.acks ==> d.acks[j] == b.acks[j])
  {
    OweEffect(s, id, pair, peers, st);
    OweEffect(s, id, pair, peers + {p}, st);
    OweOneEach(s, id, pair, peers, st);
    OweEffect(Owe(s, id, pair, peers, st), id, pair, {p}, st);
    hide Owe, Owed, Stays, Joins, OneEach;
    OweAnotherKey(s, id, pair, peers, p, st, j);
  }

  lemma {:induction false} WithoutAppend(route: seq<Peer>, p: Peer, sender: Peer)
    ensures Without(route + [p], sender) == Without(route, sender) + (if p != sender then [p] else [])
  {
    if route == [] {
      assert route + [p] == [p] && [p][1..] == [];
    } else {
      assert (route + [p])[1..] == route[1..] + [p];
      WithoutAppend(route[1..], p, sender);
    }
  }

  /** The outbox while a scan for one peer's results about a key still has `left` to visit. */
  function Unvisited(acks: map<JobID, Job>, left: set<JobID>, peer: Peer, id: KeyID): map<JobID, Job> {
    map j | j in acks && (j in left || !Matches(acks[j], peer, id)) :: acks[j]
  }

  lemma UnvisitedAll(acks: map<JobID, Job>, peer: Peer, id: KeyID)
    ensures Unvisited(acks, acks.Keys, peer, id) == acks
    ensures Unvisited(acks, {}, peer, id) == map j | j in acks && !Matches(acks[j], peer, id) :: acks[j]
  {
  }

  lemma UnvisitedStep(acks: map<JobID, Job>, left: set<JobID>, peer: Peer, id: KeyID, j: JobID)
    requires j in left && j in acks
    ensures Unvisited(acks, left - {j}, peer, id)
         == if Matches(acks[j], peer, id) then Unvisited(acks, left, peer, id) - {j}
           else Unvisited(acks, left, peer, id)
  {
  }

  lemma UnvisitedOne(acks: map<JobID, Job>, left: set<JobID>, peer: Peer, id: KeyID, j: JobID)
    requires j in left && forall i :: i in acks && Matches(acks[i], peer, id) ==> i == j
    ensures Unvisited(acks, left, peer, id) == acks
  {
  }

  /** The same for a scan dropping everything about a key. */
  function UnvisitedKey(acks: map<JobID, Job>, left: set<JobID>, id: KeyID): map<JobID, Job> {
    map j | j in acks && (j in left || KeyOf(acks[j]) != id) :: acks[j]
  }

  lemma UnvisitedKeyAll(acks: map<JobID, Job>, id: KeyID)
    ensures UnvisitedKey(acks, acks.Keys, id) == acks && UnvisitedKey(acks, {}, id) == WithoutKey(acks, id)
  {
  }

  lemma UnvisitedKeyStep(acks: map<JobID, Job>, left: set<JobID>, id: KeyID, j: JobID)
    requires j in left && j in acks
    ensures UnvisitedKey(acks, left - {j}, id) == if KeyOf(acks[j]) == id then UnvisitedKey(acks, left, id) - {j}
      else UnvisitedKey(acks, left, id)
  {
  }

  class Draft {
    var keys: map<KeyID, Record>
    var order: seq<KeyID>
    var cursor: map<string, nat>
    var acks: map<JobID, Job>
    const serial: nat

    function View(): State
      reads this
    {
      State(keys, order, cursor, acks, serial)
    }

    constructor (s: State)
      ensures View() == Working(s)
    {
      keys, order, cursor, acks := s.keys, s.order, s.cursor, s.acks;
      serial := s.serial + 1;
    }

    /** Drops a peer's different results about a key, in whatever order the outbox is visited; stops at an
        equal one. */
    method DropOthers(peer: Peer, id: KeyID, status: Status) returns (present: bool)
      requires OneEach(acks) && id != ""
      modifies this`acks
      ensures present == Owed(old(acks), peer, id, status)
      ensures acks ==
        if present then old(acks)
        else map j | j in old(acks) && !Matches(old(acks)[j], peer, id) :: old(acks)[j]
    {
      ghost var before := acks;
      var left := acks.Keys;
      UnvisitedAll(before, peer, id);
      while left != {}
        invariant left <= before.Keys && left <= acks.Keys
        invariant acks == Unvisited(before, left, peer, id)
        invariant forall j :: j in before && j !in left && Matches(before[j], peer, id) ==>
          before[j].ack.status != status
        decreases left
      {
        var j :| j in left;
        UnvisitedStep(before, left, peer, id, j);
        if Matches(acks[j], peer, id) {
          if acks[j].ack.status == status {
            OnlyOne(before, peer, id, j);
            UnvisitedOne(before, left, peer, id, j);
            return true;
          }
          acks := acks - {j};
        }
        left := left - {j};
      }
      return false;
    }

    /** Leaves the one pending result about a key for a peer. */
    method Enqueue(peer: Peer, id: KeyID, pair: Association, status: Status)
      requires OneEach(acks) && id != ""
      modifies this`acks
      ensures View() == RelayState.Enqueue(old(View()), id, pair, peer, status)
    {
      if peer == "" {
        return;
      }
      ghost var before := View();
      var present := DropOthers(peer, id, status);
      if present {
        AlreadyOwed(before, id, pair, peer, status);
      } else {
        Replaces(before, id, pair, peer, status);
        acks := acks[JobID(serial, id, peer) := Job(peer, ResultAbout(id, pair, status), 0)];
      }
    }

    /** Discards the key's material and notes which neighbours must confirm; every call notes who asked. */
    method StartVoid(id: KeyID, requester: Peer)
      requires id in keys
      modifies this`keys, this`acks
      ensures View() == RelayState.StartVoid(old(View()), id, requester)
    {
      var r := keys[id];
      if !r.voiding {
        r := r.(voiding := true, ready := false, token := None, voidFailed := r.delivered, retry := 0, material := []);
        var pending: set<Peer> := {};
        if r.sent {
          pending := pending + {r.next};
        }
        if r.sender != "" {
          pending := pending + {r.sender};
        }
        assert pending == (if r.sent then {r.next} else {}) + (if r.sender != "" then {r.sender} else {});
        r := r.(voidPending := pending, voidRequests := {});
        ghost var before := acks;
        var left := acks.Keys;
        UnvisitedKeyAll(before, id);
        while left != {}
          invariant left <= before.Keys && left <= acks.Keys
          invariant acks == UnvisitedKey(before, left, id) && keys == old(keys)
          decreases left
        {
          var j :| j in left;
          UnvisitedKeyStep(before, left, id, j);
          if KeyOf(acks[j]) == id {
            acks := acks - {j};
          }
          left := left - {j};
        }
        assert acks == WithoutKey(before, id);
      }
      assert acks == if old(keys)[id].voiding then old(acks) else WithoutKey(old(acks), id);
      if requester != "" {
        r := r.(voidRequests := r.voidRequests + {requester}, voidPending := r.voidPending - {requester});
      }
      assert r == Voiding(old(keys)[id], requester);
      keys := keys[id := r];
    }

    /** Owes every requester the outcome once no confirmation is outstanding. */
    method FinishVoid(id: KeyID)
      requires id in keys && OneEach(acks) && id != "" && "" !in keys[id].voidRequests
      modifies this`acks
      ensures View() == RelayState.FinishVoid(old(View()), id)
      ensures OneEach(acks)
    {
      var r := keys[id];
      if r.voidPending != {} {
        return;
      }
      ghost var before := View();
      var status := VoidStatus(r);
      var left := r.voidRequests;
      ghost var done: set<Peer> := {};
      OweNobody(before, id, r.pair, status);
      while left != {}
        invariant left + done == r.voidRequests && left !! done
        invariant View() == Owe(before, id, r.pair, done, status)
        invariant OneEach(acks)
        decreases left
      {
        var p :| p in left;
        Enqueue(p, id, r.pair, status);
        OweAnother(before, id, r.pair, done, p, status);
        left, done := left - {p}, done + {p};
        OweOneEach(before, id, r.pair, done, status);
      }
      assert done == r.voidRequests;
    }

    /** The next peers for a target, starting where the cursor points, and the cursor moved on. */
    method NextCandidates(c: Policy, target: string, sender: Peer) returns (out: seq<Peer>)
      modifies this`cursor
      ensures (out, View()) == Candidates(c, old(View()), target, sender)
    {
      var route := c.Route(target);
      out := [];
      if |route| == 0 {
        return;
      }
      var start := (if target in cursor then cursor[target] else 0) % |route|;
      cursor := cursor[target := (start + 1) % |route|];
      ghost var turned := Rotation(route, start);
      for i := 0 to |route|
        invariant out == Without(turned[..i], sender)
        invariant cursor == old(cursor)[target := (start + 1) % |route|]
      {
        var p := route[(start + i) % |route|];
        RotationAt(route, start, i);
        assert turned[..i + 1] == turned[..i] + [p];
        WithoutAppend(turned[..i], p, sender);
        if p != sender {
          out := out + [p];
        }
      }
      assert turned[..|route|] == turned;
    }

    /** Adds a record under a new identifier. */
    method Add(id: KeyID, r: Record)
      modifies this`keys, this`order
      ensures View() == Insert(old(View()), id, r)
    {
      keys := keys[id := r];
      order := order + [id];
    }
  }

  lemma RotationAt(route: seq<Peer>, start: nat, i: nat)
    requires start < |route| && i < |route|
    ensures Rotation(route, start)[i] == route[(start + i) % |route|]
  {
    Wraps(start, i, |route|);
  }

  lemma Wraps(start: nat, i: nat, n: nat)
    requires start < n && i < n
    ensures (start + i) % n == if start + i < n then start + i else start + i - n
  {
    ShareIsQuotient(start + i, n, if start + i < n then 0 else 1);
  }

  lemma OnlyOne(acks: map<JobID, Job>, peer: Peer, id: KeyID, j: JobID)
    requires OneEach(acks) && id != "" && j in acks && Matches(acks[j], peer, id)
    ensures forall i :: i in acks && Matches(acks[i], peer, id) ==> i == j
  {
  }

  /** The one matching job already says so: nothing changes. */
  lemma AlreadyOwed(s: State, id: KeyID, pair: Association, peer: Peer, st: Status)
    requires OneEach(s.acks) && id != "" && Owed(s.acks, peer, id, st)
    ensures Owe(s, id, pair, {peer}, st) == s
  {
    var j :| j in s.acks && Matches(s.acks[j], peer, id) && s.acks[j].ack.status == st;
    OnlyOne(s.acks, peer, id, j);
    assert Owe(s, id, pair, {peer}, st).acks == s.acks;
  }

  /** The outbox with a peer's results about a key replaced by one. */
  function Replaced(s: State, id: KeyID, pair: Association, peer: Peer, st: Status): map<JobID, Job> {
    (map j | j in s.acks && !Matches(s.acks[j], peer, id) ::
      s.acks[j])[JobID(s.serial, id, peer) := Job(peer, ResultAbout(id, pair, st), 0)]
  }

  lemma ReplacesAt(s: State, id: KeyID, pair: Association, peer: Peer, st: Status, j: JobID)
    requires OneEach(s.acks) && id != "" && peer != "" && !Owed(s.acks, peer, id, st)
    ensures var acks' := Owe(s, id, pair, {peer}, st).acks; var want := Replaced(s, id, pair, peer, st);
      (j in acks' <==> j in want) && (j in acks' ==> acks'[j] == want[j])
  {
    OweEffect(s, id, pair, {peer}, st);
    NotOwed(s, id, peer, st, j);
    hide Owe, Owed;
    assert Joins(s, id, {peer}, st, j) <==> j == JobID(s.serial, id, peer);
  }

  lemma Replaces(s: State, id: KeyID, pair: Association, peer: Peer, st: Status)
    requires OneEach(s.acks) && id != "" && peer != "" && !Owed(s.acks, peer, id, st)
    ensures Owe(s, id, pair, {peer}, st).acks == Replaced(s, id, pair, peer, st)
  {
    var acks', want := Owe(s, id, pair, {peer}, st).acks, Replaced(s, id, pair, peer, st);
    hide Owe, Owed, Replaced;
    forall j ensures (j in acks' <==> j in want) && (j in acks' ==> acks'[j] == want[j]) {
      ReplacesAt(s, id, pair, peer, st, j);
    }
  }

  lemma NotOwed(s: State, id: KeyID, peer: Peer, st: Status, j: JobID)
    requires !Owed(s.acks, peer, id, st)
    ensures Stays(s, id, {peer}, st, j) <==> j in s.acks && !Matches(s.acks[j], peer, id)
  {
    if j in s.acks && Matches(s.acks[j], peer, id) { assert s.acks[j].ack.status != st; }
  }
}
