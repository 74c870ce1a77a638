/** Every handler keeps the node invariant and moves records only as its cause allows. */
module RelayHandlers {
  import opened Core
  import opened Uuid
  import opened Peering
  import opened Etsi020
  import opened RelayState
  import opened RelayInvariant

  // Routes.

  lemma {:induction false} WithoutMembers(route: seq<Peer>, sender: Peer)
    ensures forall p :: p in Without(route, sender) <==> p in route && p != sender
  {
    if route != [] { WithoutMembers(route[1..], sender); }
  }

  lemma CandidatesAllowed(c: Policy, s: State, target: string, sender: Peer)
    requires c.Valid()
    ensures forall p :: p in Candidates(c, s, target, sender).0 ==>
      p in c.Route(target) && p != sender && p != "" && p in c.cfg.peers
  {
    var route := c.Route(target);
    if route != [] {
      var start := Cursor(s, target) % |route|;
      WithoutMembers(Rotation(route, start), sender);
      assert GoodRoute(c.cfg, target) && DistinctPeers(c.cfg, c.cfg.peers.Keys);
      forall p | p in route ensures p != "" && p in c.cfg.peers {
        assert GoodPeer(c.cfg, p);
      }
    }
  }

  lemma PeerNamed(c: Policy, peer: Peer)
    requires c.Valid() && peer in c.cfg.peers
    ensures peer != ""
  {
    assert DistinctPeers(c.cfg, c.cfg.peers.Keys);
    assert GoodPeer(c.cfg, peer);
  }

  lemma CursorMoves(c: Policy, inp: Input, b: nat, s: State, cursor: map<string, nat>)
    requires Inv(c, s)
    ensures var s' := s.(cursor := cursor); Inv(c, s') && Delta(inp, b, s, s')
  {
    var s' := s.(cursor := cursor);
    assert forall j :: j in s'.acks ==> JobInv(c, s, j);
    forall id | id in s.keys ensures RecStep(inp, id, s.keys[id], s'.keys[id]) { RecStepRefl(inp, id, s.keys[id]); }
  }

  lemma DeltaRefl(inp: Input, b: nat, s: State)
    ensures Delta(inp, b, s, s)
  {
    forall id | id in s.keys ensures RecStep(inp, id, s.keys[id], s.keys[id]) { RecStepRefl(inp, id, s.keys[id]); }
  }

  // Records.

  lemma VoidingRec(c: Policy, inp: Input, id: KeyID, r: Record, requester: Peer)
    requires RecInv(c, id, r) && (requester == "" || requester in Neighbours(r))
    ensures RecInv(c, id, Voiding(r, requester)) && RecStep(inp, id, r, Voiding(r, requester))
    ensures r.voiding ==> OwedPeers(r) <= OwedPeers(Voiding(r, requester))
  {
  }

  /** The record after a neighbour's report on a void. */
  function Confirmed(r: Record, peer: Peer, st: Status): Record {
    r.(voidPending := r.voidPending - {peer}, voidFailed := r.voidFailed || st == FailedToVoid)
  }

  lemma ConfirmedRec(c: Policy, peer: Peer, acks: seq<Ack>, id: KeyID, r: Record, st: Status)
    requires RecInv(c, id, r) && r.voiding && Confirms(st) && Reports(acks, id, st)
    ensures var r' := Confirmed(r, peer, st); RecInv(c, id, r') && RecStep(FromAcks(peer, acks), id, r, r')
    ensures OwedPeers(r) <= OwedPeers(Confirmed(r, peer, st))
  {
  }

  lemma RelaidRec(c: Policy, peer: Peer, acks: seq<Ack>, id: KeyID, r: Record)
    requires RecInv(c, id, r) && !r.voiding && r.sent && peer == r.next && Reports(acks, id, Relayed)
    ensures RecInv(c, id, Relaid(r)) && RecStep(FromAcks(peer, acks), id, r, Relaid(r))
    ensures OwedPeers(r) <= OwedPeers(Relaid(r))
  {
  }

  // Per-key handlers as a replacement that settles.

  lemma FinishSettles(s: State, id: KeyID)
    requires id in s.keys && s.keys[id].voiding
    ensures FinishVoid(s, id) == Settle(s, id)
  {
    OweNobody(s, id, s.keys[id].pair, VoidStatus(s.keys[id]));
  }

  lemma VoidSettles(s: State, id: KeyID, requester: Peer)
    requires id in s.keys
    ensures FinishVoid(StartVoid(s, id, requester), id)
         == Settle(Put(s, id, Voiding(s.keys[id], requester), !s.keys[id].voiding), id)
  {
    assert StartVoid(s, id, requester) == Put(s, id, Voiding(s.keys[id], requester), !s.keys[id].voiding);
    FinishSettles(StartVoid(s, id, requester), id);
  }

  /** Voiding a known key at the request of a neighbour, or locally. */
  lemma VoidMoves(c: Policy, inp: Input, b: nat, s: State, id: KeyID, requester: Peer)
    requires Inv(c, s) && b < s.serial && id in s.keys
    requires requester == "" || requester in Neighbours(s.keys[id])
    ensures var s' := FinishVoid(StartVoid(s, id, requester), id); Inv(c, s') && Delta(inp, b, s, s')
  {
    VoidSettles(s, id, requester);
    VoidingRec(c, inp, id, s.keys[id], requester);
    Settles(c, inp, b, s, id, Voiding(s.keys[id], requester), !s.keys[id].voiding);
  }

  lemma PutSame(s: State, id: KeyID)
    requires id in s.keys
    ensures Put(s, id, s.keys[id], false) == s
  {
    assert s.keys[id := s.keys[id]] == s.keys;
  }

  lemma AcceptKnownMoves(c: Policy, t: Transfer, b: nat, s: State, peer: Peer, id: KeyID, now: Time)
    requires Inv(c, s) && b < s.serial && id in s.keys && s.keys[id].sender == peer && peer != ""
    ensures var s' := AcceptKnown(s, peer, id, now); Inv(c, s') && Delta(FromTransfer(peer, t), b, s, s')
  {
    var r, inp := s.keys[id], FromTransfer(peer, t);
    if Due(r, now) {
      VoidMoves(c, inp, b, s, id, peer);
    } else {
      PutSame(s, id);
      RecStepRefl(inp, id, r);
      Settles(c, inp, b, s, id, r, false);
      if r.voiding { FinishSettles(s, id); } else if !r.ready { OweNobody(s, id, r.pair, Relayed); }
    }
  }

  /** What passing the guard establishes. */
  predicate Admitted(c: Policy, peer: Peer, a: Association, t: Transfer) {
    && peer in c.cfg.peers && peer != "" && a in c.allowed && !c.Local(a.master)
    && |t.targets| == 1 && a == Association(t.initiator, t.targets[0])
    && forall i :: 0 <= i < |t.keys| ==> t.keys[i].id != "" && |t.keys[i].value| == KEY_BYTES
  }

  lemma GuardAdmits(c: Policy, peer: Peer, a: Association, t: Transfer)
    requires c.Valid() && AcceptGuard(c, peer, t) == Ok(a)
    ensures Admitted(c, peer, a, t) && Distinct(KeyIDs(t.keys))
  {
    PeerNamed(c, peer);
    forall i | 0 <= i < |t.keys| ensures t.keys[i].id != "" && |t.keys[i].value| == KEY_BYTES {
      assert ValidKey(t.keys[i]);
      NonEmpty(t.keys[i].id);
    }
  }

  lemma TargetRec(c: Policy, peer: Peer, a: Association, t: Transfer, i: nat, now: Time)
    requires Admitted(c, peer, a, t) && i < |t.keys| && c.Local(a.slave)
    ensures var r := ReceivedRecord(Target, peer, a, t, t.keys[i], now).(ready := true);
      RecInv(c, t.keys[i].id, r) && NewRec(FromTransfer(peer, t), t.keys[i].id, r)
  {
  }

  lemma RelayRec(c: Policy, peer: Peer, a: Association, t: Transfer, i: nat, candidates: seq<Peer>, now: Time)
    requires Admitted(c, peer, a, t) && i < |t.keys| && !c.Local(a.slave)
    requires candidates != [] && forall p :: p in candidates ==> p in c.Route(a.slave) && p != peer && p != ""
    ensures var r := ReceivedRecord(Relay, peer, a, t, t.keys[i], now).(candidates := candidates);
      RecInv(c, t.keys[i].id, r) && NewRec(FromTransfer(peer, t), t.keys[i].id, r)
  {
  }

  lemma AcceptNewMoves(c: Policy, b: nat, s: State, peer: Peer, a: Association, t: Transfer, i: nat, now: Time)
    requires c.Valid() && Inv(c, s) && b < s.serial
    requires Admitted(c, peer, a, t) && i < |t.keys| && t.keys[i].id !in s.keys
    requires AcceptNew(c, s, peer, a, t, t.keys[i], now).Ok?
    ensures var s' := AcceptNew(c, s, peer, a, t, t.keys[i], now).value;
      Inv(c, s') && Delta(FromTransfer(peer, t), b, s, s')
  {
    var k, inp := t.keys[i], FromTransfer(peer, t);
    if c.Local(a.slave) {
      TargetRec(c, peer, a, t, i, now);
      InsertMoves(c, inp, b, s, k.id, ReceivedRecord(Target, peer, a, t, k, now).(ready := true));
    } else {
      CandidatesAllowed(c, s, a.slave, peer);
      var (candidates, s1) := Candidates(c, s, a.slave, peer);
      RelayRec(c, peer, a, t, i, candidates, now);
      InsertRouted(c, inp, b, s, s1.cursor, k.id, ReceivedRecord(Relay, peer, a, t, k, now).(candidates := candidates));
    }
  }

  /** Inserting a record that at once owes its sender a result. */
  lemma InsertMoves(c: Policy, inp: Input, b: nat, s: State, id: KeyID, r: Record)
    requires Inv(c, s) && b < s.serial && id != "" && id !in s.keys
    requires RecInv(c, id, r) && NewRec(inp, id, r) && r.token == None && !r.voiding && r.ready && r.sender != ""
    ensures var s' := Insert(Owe(s, id, r.pair, {r.sender}, Relayed), id, r); Inv(c, s') && Delta(inp, b, s, s')
  {
    Settles(c, inp, b, s, id, r, false);
  }

  /** Inserting a record that owes nothing yet, after advancing the cursor. */
  lemma InsertRouted(c: Policy, inp: Input, b: nat, s: State, cursor: map<string, nat>, id: KeyID, r: Record)
    requires Inv(c, s) && b < s.serial && id != "" && id !in s.keys
    requires RecInv(c, id, r) && NewRec(inp, id, r) && r.token == None && !r.voiding && !r.ready
    ensures var s' := Insert(s.(cursor := cursor), id, r); Inv(c, s') && Delta(inp, b, s, s')
  {
    var s1 := s.(cursor := cursor);
    CursorMoves(c, inp, b, s, cursor);
    Settles(c, inp, b, s1, id, r, false);
    OweNobody(Put(s1, id, r, false), id, r.pair, Relayed);
    DeltaTrans(inp, b, s, s1, Insert(s1, id, r));
  }

  /** Keys of the batch already known came from this peer for this pair. */
  predicate KnownFrom(s: State, peer: Peer, a: Association, t: Transfer) {
    forall i :: 0 <= i < |t.keys| && t.keys[i].id in s.keys ==>
      s.keys[t.keys[i].id].sender == peer && s.keys[t.keys[i].id].pair == a
  }

  lemma {:induction false} AcceptChecked(s: State, peer: Peer, a: Association, t: Transfer, i: nat, news: nat)
    requires i <= |t.keys| && AcceptCheck(s, peer, a, t, i, news).Ok?
    ensures forall n :: i <= n < |t.keys| && t.keys[n].id in s.keys ==>
      var r := s.keys[t.keys[n].id];
        r.sender == peer && r.pair == a && (r.unknown || r.digest == Some(Digest(t.keys[n], a, t.optional)))
    decreases |t.keys| - i
  {
    if i < |t.keys| {
      AcceptChecked(s, peer, a, t, i + 1, if t.keys[i].id in s.keys then news else news + 1);
    }
  }

  lemma KnownKept(c: Policy, b: nat, s: State, s': State, peer: Peer, a: Association, t: Transfer)
    requires KnownFrom(s, peer, a, t) && Delta(FromTransfer(peer, t), b, s, s') && Admitted(c, peer, a, t)
    ensures KnownFrom(s', peer, a, t)
  {
    forall i | 0 <= i < |t.keys| && t.keys[i].id in s'.keys
      ensures s'.keys[t.keys[i].id].sender == peer && s'.keys[t.keys[i].id].pair == a
    {
      var id := t.keys[i].id;
      if id in s.keys { assert RecStep(FromTransfer(peer, t), id, s.keys[id], s'.keys[id]); }
      else { assert NewRec(FromTransfer(peer, t), id, s'.keys[id]); }
    }
  }

  lemma {:induction false} AcceptKeysMove(c: Policy, b: nat, s: State, peer: Peer, a: Association, t: Transfer, i: nat,
        now: Time)
    requires c.Valid() && Inv(c, s) && b < s.serial && i <= |t.keys|
    requires Admitted(c, peer, a, t) && KnownFrom(s, peer, a, t)
    requires AcceptKeys(c, s, peer, a, t, i, now).Ok?
    ensures var s' := AcceptKeys(c, s, peer, a, t, i, now).value; Inv(c, s') && Delta(FromTransfer(peer, t), b, s, s')
    decreases |t.keys| - i
  {
    var inp := FromTransfer(peer, t);
    if i == |t.keys| {
      DeltaRefl(inp, b, s);
    } else {
      var k := t.keys[i];
      if k.id in s.keys {
        AcceptKnownMoves(c, t, b, s, peer, k.id, now);
      } else {
        AcceptNewMoves(c, b, s, peer, a, t, i, now);
      }
      var s1 := AcceptKey(c, s, peer, a, t, k, now).value;
      KnownKept(c, b, s, s1, peer, a, t);
      AcceptKeysMove(c, b, s1, peer, a, t, i + 1, now);
      DeltaTrans(inp, b, s, s1, AcceptKeys(c, s1, peer, a, t, i + 1, now).value);
    }
  }

  lemma AcceptMoves(c: Policy, s: State, peer: Peer, t: Transfer, now: Time)
    requires c.Valid() && Inv(c, s) && Accept(c, s, peer, t, now).Ok?
    ensures var s' := Accept(c, s, peer, t, now).value; Inv(c, s') && Delta(FromTransfer(peer, t), s.serial, s, s')
  {
    var a, w, inp := AcceptGuard(c, peer, t).value, Working(s), FromTransfer(peer, t);
    WorkingDelta(c, inp, s);
    GuardAdmits(c, peer, a, t);
    AcceptChecked(w, peer, a, t, 0, 0);
    AcceptKeysMove(c, s.serial, w, peer, a, t, 0, now);
    DeltaTrans(inp, s.serial, s, w, AcceptKeys(c, w, peer, a, t, 0, now).value);
  }

  // Acknowledgements.

  lemma AckVoidingMoves(c: Policy, b: nat, s: State, peer: Peer, acks: seq<Ack>, st: Status, id: KeyID)
    requires Inv(c, s) && b < s.serial && id in s.keys && s.keys[id].voiding && Reports(acks, id, st)
    ensures var s' := AckVoiding(s, peer, st, id); Inv(c, s') && Delta(FromAcks(peer, acks), b, s, s')
  {
    var r, inp := s.keys[id], FromAcks(peer, acks);
    if Confirms(st) {
      ConfirmedRec(c, peer, acks, id, r, st);
      var r' := Confirmed(r, peer, st);
      Settles(c, inp, b, s, id, r', false);
      FinishSettles(Put(s, id, r', false), id);
    } else {
      DeltaRefl(inp, b, s);
    }
  }

  lemma AckRelayedMoves(c: Policy, b: nat, s: State, peer: Peer, acks: seq<Ack>, id: KeyID)
    requires Inv(c, s) && b < s.serial && id in s.keys && Reports(acks, id, Relayed)
    requires !s.keys[id].voiding && s.keys[id].sent && peer == s.keys[id].next
    ensures var s' := AckRelayed(s, id); Inv(c, s') && Delta(FromAcks(peer, acks), b, s, s')
  {
    var r, inp := s.keys[id], FromAcks(peer, acks);
    RelaidRec(c, peer, acks, id, r);
    Settles(c, inp, b, s, id, Relaid(r), false);
    OweNobody(Put(s, id, Relaid(r), false), id, r.pair, Relayed);
  }

  /** Starting a local void owes nothing to anybody yet. */
  lemma StartMoves(c: Policy, inp: Input, b: nat, s: State, id: KeyID)
    requires Inv(c, s) && b < s.serial && id in s.keys && !s.keys[id].voiding
    ensures var s' := StartVoid(s, id, ""); Inv(c, s') && Delta(inp, b, s, s') && FinishVoid(s', id) == s'
  {
    VoidMoves(c, inp, b, s, id, "");
    var s' := StartVoid(s, id, "");
    OweNobody(s', id, s'.keys[id].pair, VoidStatus(s'.keys[id]));
  }

  lemma AckKeyMoves(c: Policy, b: nat, s: State, peer: Peer, acks: seq<Ack>, i: nat, id: KeyID, now: Time)
    requires Inv(c, s) && b < s.serial && i < |acks| && |acks[i].targets| == 1 && id in acks[i].ids
    requires MayAck(s, peer, acks[i], id)
    ensures var s' := AckKey(s, peer, acks[i].status, id, now); Inv(c, s') && Delta(FromAcks(peer, acks), b, s, s')
  {
    var inp, st := FromAcks(peer, acks), acks[i].status;
    assert Reports(acks, id, st);
    if Due(s.keys[id], now) {
      StartMoves(c, inp, b, s, id);
      var s1 := StartVoid(s, id, "");
      AckVoidingMoves(c, b, s1, peer, acks, st, id);
      DeltaTrans(inp, b, s, s1, AckVoiding(s1, peer, st, id));
    } else if s.keys[id].voiding {
      AckVoidingMoves(c, b, s, peer, acks, st, id);
    } else if st == Relayed {
      AckRelayedMoves(c, b, s, peer, acks, id);
    } else {
      StartMoves(c, inp, b, s, id);
    }
  }

  /** The peer may report on every key of the group. */
  predicate AllMayAck(s: State, peer: Peer, acks: seq<Ack>) {
    && (forall i :: 0 <= i < |acks| && acks[i].ids != [] ==> |acks[i].targets| == 1)
    && (forall i, j :: 0 <= i < |acks| && 0 <= j < |acks[i].ids| ==> MayAck(s, peer, acks[i], acks[i].ids[j]))
  }

  lemma {:induction false} AckChecked(s: State, peer: Peer, acks: seq<Ack>, i: nat, j: nat)
    requires i <= |acks| && (i < |acks| ==> j <= |acks[i].ids|)
    requires forall n :: 0 <= n < |acks| ==> |acks[n].targets| == 1
    requires AckCheck(s, peer, acks, i, j).Ok?
    ensures forall m, n :: i <= m < |acks| && 0 <= n < |acks[m].ids| && (m == i ==> j <= n) ==>
      MayAck(s, peer, acks[m], acks[m].ids[n])
    decreases |acks| - i, if i < |acks| then |acks[i].ids| - j else 0
  {
    if i < |acks| {
      if j == |acks[i].ids| { AckChecked(s, peer, acks, i + 1, 0); } else { AckChecked(s, peer, acks, i, j + 1); }
    }
  }

  lemma AllMayAckKept(b: nat, s: State, s': State, peer: Peer, acks: seq<Ack>)
    requires AllMayAck(s, peer, acks) && Delta(FromAcks(peer, acks), b, s, s')
    ensures AllMayAck(s', peer, acks)
  {
    forall i, j | 0 <= i < |acks| && 0 <= j < |acks[i].ids| ensures MayAck(s', peer, acks[i], acks[i].ids[j]) {
      var id := acks[i].ids[j];
      assert MayAck(s, peer, acks[i], id);
      assert RecStep(FromAcks(peer, acks), id, s.keys[id], s'.keys[id]);
    }
  }

  lemma {:induction false} AckKeysMove(c: Policy, b: nat, s: State, peer: Peer, acks: seq<Ack>, i: nat, j: nat,
        now: Time)
    requires Inv(c, s) && b < s.serial && i <= |acks| && (i < |acks| ==> j <= |acks[i].ids|)
    requires AllMayAck(s, peer, acks)
    ensures var s' := AckKeys(s, peer, acks, i, j, now); Inv(c, s') && Delta(FromAcks(peer, acks), b, s, s')
    decreases |acks| - i, if i < |acks| then |acks[i].ids| - j else 0
  {
    var inp := FromAcks(peer, acks);
    if i == |acks| {
      DeltaRefl(inp, b, s);
    } else if j == |acks[i].ids| {
      AckKeysMove(c, b, s, peer, acks, i + 1, 0, now);
    } else {
      var id := acks[i].ids[j];
      assert MayAck(s, peer, acks[i], id);
      AckKeyMoves(c, b, s, peer, acks, i, id, now);
      var s1 := AckKey(s, peer, acks[i].status, id, now);
      AllMayAckKept(b, s, s1, peer, acks);
      AckKeysMove(c, b, s1, peer, acks, i, j + 1, now);
      DeltaTrans(inp, b, s, s1, AckKeys(s1, peer, acks, i, j + 1, now));
    }
  }

  lemma AcknowledgeMoves(c: Policy, s: State, peer: Peer, acks: seq<Ack>, now: Time)
    requires Inv(c, s) && Acknowledge(c, s, peer, acks, now).Ok?
    ensures var s' := Acknowledge(c, s, peer, acks, now).value;
      Inv(c, s') && Delta(FromAcks(peer, acks), s.serial, s, s')
  {
    var w, inp := Working(s), FromAcks(peer, acks);
    WorkingDelta(c, inp, s);
    AcksHaveOneTarget(acks);
    AckChecked(w, peer, acks, 0, 0);
    AckKeysMove(c, s.serial, w, peer, acks, 0, 0, now);
    DeltaTrans(inp, s.serial, s, w, AckKeys(w, peer, acks, 0, 0, now));
  }

  // Voids.

  lemma TombstoneRec(c: Policy, peer: Peer, a: Association, v: Void, id: KeyID, now: Time)
    requires id in v.ids && peer in c.cfg.peers && peer != "" && a in c.allowed
    requires v.targets != [] && a == Association(v.initiator, v.targets[0])
    ensures var r := Voiding(Tombstone(c, peer, a, now), peer); RecInv(c, id, r) && NewRec(FromVoid(peer, v), id, r)
  {
  }

  lemma TombstoneMoves(c: Policy, b: nat, s: State, peer: Peer, a: Association, v: Void, id: KeyID, now: Time)
    requires Inv(c, s) && b < s.serial && id !in s.keys && id != "" && id in v.ids && peer in c.cfg.peers && peer != ""
      && a in c.allowed
    requires v.targets != [] && a == Association(v.initiator, v.targets[0])
    ensures var s' := VoidKey(c, s, peer, a, id, now); Inv(c, s') && Delta(FromVoid(peer, v), b, s, s')
  {
    var tomb := Tombstone(c, peer, a, now);
    TombstoneRec(c, peer, a, v, id, now);
    InsertVoided(c, FromVoid(peer, v), b, s, id, tomb, peer);
  }

  lemma StartInserted(s: State, id: KeyID, tomb: Record, peer: Peer)
    requires id !in s.keys && !tomb.voiding
    ensures StartVoid(Insert(s, id, tomb), id, peer) == Put(s, id, Voiding(tomb, peer), true)
  {
    assert Insert(s, id, tomb).keys[id := Voiding(tomb, peer)] == s.keys[id := Voiding(tomb, peer)];
  }

  lemma InsertVoided(c: Policy, inp: Input, b: nat, s: State, id: KeyID, tomb: Record, peer: Peer)
    requires Inv(c, s) && b < s.serial && id !in s.keys && id != "" && !tomb.voiding
    requires RecInv(c, id, Voiding(tomb, peer)) && NewRec(inp, id, Voiding(tomb, peer))
    requires tomb.token == None
    ensures var s' := FinishVoid(StartVoid(Insert(s, id, tomb), id, peer), id); Inv(c, s') && Delta(inp, b, s, s')
  {
    Settles(c, inp, b, s, id, Voiding(tomb, peer), true);
    StartInserted(s, id, tomb, peer);
    FinishSettles(Put(s, id, Voiding(tomb, peer), true), id);
  }

  /** Known keys of the list are exchanged with the peer; unknown ones are only in the request itself. */
  predicate Voidable(s: State, peer: Peer, a: Association, v: Void, ids: seq<KeyID>) {
    forall i :: 0 <= i < |ids| ==>
      ids[i] != "" && (if ids[i] in s.keys then Involves(s, peer, a, ids[i]) else ids[i] in v.ids)
  }

  lemma VoidableKept(b: nat, s: State, s': State, peer: Peer, a: Association, v: Void, ids: seq<KeyID>)
    requires Voidable(s, peer, a, v, ids) && Delta(FromVoid(peer, v), b, s, s')
    requires v.targets != [] && a == Association(v.initiator, v.targets[0])
    ensures Voidable(s', peer, a, v, ids)
  {
    forall i | 0 <= i < |ids| ensures ids[i] != ""
      && (if ids[i] in s'.keys then Involves(s', peer, a, ids[i]) else ids[i] in v.ids) {
      var id := ids[i];
      if id in s.keys { assert RecStep(FromVoid(peer, v), id, s.keys[id], s'.keys[id]); }
      else if id in s'.keys { assert NewRec(FromVoid(peer, v), id, s'.keys[id]); }
    }
  }

  lemma VoidKeyMoves(c: Policy, b: nat, s: State, peer: Peer, a: Association, v: Void, ids: seq<KeyID>, i: nat,
        now: Time)
    requires Inv(c, s) && b < s.serial && i < |ids| && peer in c.cfg.peers && peer != "" && a in c.allowed
    requires v.targets != [] && a == Association(v.initiator, v.targets[0]) && Voidable(s, peer, a, v, ids)
    ensures var s' := VoidKey(c, s, peer, a, ids[i], now); Inv(c, s') && Delta(FromVoid(peer, v), b, s, s')
  {
    var id := ids[i];
    if id in s.keys {
      assert RecInv(c, id, s.keys[id]);
      assert peer in Neighbours(s.keys[id]);
      VoidMoves(c, FromVoid(peer, v), b, s, id, peer);
    } else {
      TombstoneMoves(c, b, s, peer, a, v, id, now);
    }
    hide Inv, Delta;
  }

  lemma {:induction false} VoidKeysMove(c: Policy, b: nat, s: State, peer: Peer, a: Association, v: Void,
        ids: seq<KeyID>, i: nat, now: Time)
    requires Inv(c, s) && b < s.serial && i <= |ids| && peer in c.cfg.peers && peer != "" && a in c.allowed
    requires v.targets != [] && a == Association(v.initiator, v.targets[0]) && Voidable(s, peer, a, v, ids)
    ensures var s' := VoidKeys(c, s, peer, a, ids, i, now); Inv(c, s') && Delta(FromVoid(peer, v), b, s, s')
    decreases |ids| - i
  {
    hide Inv, VoidKey, Voidable, Policy.Valid, KeysStep, JobsFrom;
    var inp := FromVoid(peer, v);
    if i == |ids| {
      DeltaRefl(inp, b, s);
    } else {
      var id := ids[i];
      var s1 := VoidKey(c, s, peer, a, id, now);
      VoidKeyMoves(c, b, s, peer, a, v, ids, i, now);
      assert b < s1.serial;
      hide Delta;
      VoidableKept(b, s, s1, peer, a, v, ids);
      VoidKeysMove(c, b, s1, peer, a, v, ids, i + 1, now);
      DeltaTrans(inp, b, s, s1, VoidKeys(c, s1, peer, a, ids, i + 1, now));
    }
  }

  lemma {:induction false} InvolvedMembers(s: State, peer: Peer, a: Association, ids: seq<KeyID>)
    ensures forall id :: id in Involved(s, peer, a, ids) <==> id in ids && Involves(s, peer, a, id)
  {
    if ids != [] { InvolvedMembers(s, peer, a, ids[1..]); }
  }

  lemma InvolvedKnown(s: State, peer: Peer, a: Association, ids: seq<KeyID>)
    ensures forall id :: id in Involved(s, peer, a, ids) ==> id in s.keys
  {
    InvolvedMembers(s, peer, a, ids);
  }

  lemma {:induction false} VoidChecked(s: State, incoming: bool, peer: Peer, a: Association, ids: seq<KeyID>, i: nat,
        news: nat)
    requires i <= |ids| && VoidCheck(s, incoming, peer, a, ids, i, news).Ok?
    ensures forall n :: i <= n < |ids| && ids[n] in s.keys ==> Involves(s, peer, a, ids[n])
    decreases |ids| - i
  {
    if i < |ids| { VoidChecked(s, incoming, peer, a, ids, i + 1, if ids[i] in s.keys then news else news + 1); }
  }

  /** A further job about no key leaves the others as they are. */
  lemma NothingJob(c: Policy, s: State, peer: Peer, a: Association)
    requires Inv(c, s) && peer in c.cfg.peers && a in c.allowed && !NothingMatched(s.acks, peer, a)
    requires JobID(s.serial, "", peer) !in s.acks
    ensures var s' := VoidNothing(s, peer, a); JobsInv(c, s') && UniqueJobs(s'.acks)
  {
    var s' := VoidNothing(s, peer, a);
    var jid := JobID(s.serial, "", peer);
    forall j | j in s'.acks ensures JobInv(c, s', j) { if j != jid { assert JobInv(c, s, j); } }
    forall j | j in s.acks ensures !SameSubject(s.acks[j], s'.acks[jid]) {}
  }

  lemma VoidNothingMoves(c: Policy, inp: Input, b: nat, s: State, peer: Peer, a: Association)
    requires Inv(c, s) && b < s.serial && peer in c.cfg.peers && a in c.allowed
    requires JobID(s.serial, "", peer) !in s.acks
    ensures var s' := VoidNothing(s, peer, a); Inv(c, s') && Delta(inp, b, s, s')
  {
    DeltaRefl(inp, b, s);
    if !NothingMatched(s.acks, peer, a) {
      var s' := VoidNothing(s, peer, a);
      NothingJob(c, s, peer, a);
      forall id, p | id in s'.keys && p in OwedPeers(s'.keys[id]) ensures StillOwed(s, s', id, p) {
        if Owed(s.acks, p, id, CurrentStatus(s.keys[id])) {
          var j :| j in s.acks && Matches(s.acks[j], p, id) && s.acks[j].ack.status == CurrentStatus(s.keys[id]);
          assert j in s'.acks && s'.acks[j] == s.acks[j];
        }
      }
    }
  }

  /** What passing the guard establishes of a void request. */
  lemma VoidGuardFacts(c: Policy, peer: Peer, a: Association, v: Void)
    requires c.Valid() && VoidGuard(c, peer, v) == Ok(a)
    ensures peer in c.cfg.peers && peer != "" && a in c.allowed
    ensures v.targets != [] && a == Association(v.initiator, v.targets[0])
    ensures "" !in v.ids
  {
    PeerNamed(c, peer);
    forall i | 0 <= i < |v.ids| ensures v.ids[i] != "" { NonEmpty(v.ids[i]); }
  }

  lemma VoidableIDs(s: State, peer: Peer, a: Association, v: Void, ids: seq<KeyID>)
    requires "" !in s.keys && "" !in v.ids
    requires ids == v.ids || forall id :: id in ids ==> id in s.keys
    requires forall n :: 0 <= n < |ids| && ids[n] in s.keys ==> Involves(s, peer, a, ids[n])
    ensures Voidable(s, peer, a, v, ids)
  {
  }

  lemma VoidListMoves(c: Policy, b: nat, s: State, peer: Peer, a: Association, v: Void, ids: seq<KeyID>, now: Time)
    requires Inv(c, s) && b < s.serial && peer in c.cfg.peers && peer != "" && a in c.allowed
    requires v.targets != [] && a == Association(v.initiator, v.targets[0]) && "" !in v.ids
    requires ids == v.ids || forall id :: id in ids ==> id in s.keys
    requires VoidCheck(s, c.cfg.peers[peer].incoming, peer, a, ids, 0, 0).Ok?
    ensures var s' := VoidKeys(c, s, peer, a, ids, 0, now); Inv(c, s') && Delta(FromVoid(peer, v), b, s, s')
  {
    VoidChecked(s, c.cfg.peers[peer].incoming, peer, a, ids, 0, 0);
    VoidableIDs(s, peer, a, v, ids);
    VoidKeysMove(c, b, s, peer, a, v, ids, 0, now);
  }

  lemma VoidBodyMoves(c: Policy, b: nat, s: State, peer: Peer, a: Association, v: Void, now: Time)
    requires Inv(c, s) && b < s.serial && peer in c.cfg.peers && peer != "" && a in c.allowed
    requires v.targets != [] && a == Association(v.initiator, v.targets[0]) && "" !in v.ids
    requires JobID(s.serial, "", peer) !in s.acks
    requires VoidBody(c, s, peer, a, v, now).Ok?
    ensures var s' := VoidBody(c, s, peer, a, v, now).value; Inv(c, s') && Delta(FromVoid(peer, v), b, s, s')
  {
    var ids := if v.ids == [] then Involved(s, peer, a, s.order) else v.ids;
    var r := VoidBody(c, s, peer, a, v, now);
    if ids == [] {
      assert r == Ok(VoidNothing(s, peer, a));
      VoidNothingMoves(c, FromVoid(peer, v), b, s, peer, a);
    } else {
      InvolvedKnown(s, peer, a, s.order);
      assert r == Ok(VoidKeys(c, s, peer, a, ids, 0, now));
      VoidListMoves(c, b, s, peer, a, v, ids, now);
    }
  }

  lemma VoidRequestMoves(c: Policy, s: State, peer: Peer, v: Void, now: Time)
    requires c.Valid() && Inv(c, s) && VoidRequest(c, s, peer, v, now).Ok?
    ensures var s' := VoidRequest(c, s, peer, v, now).value; Inv(c, s') && Delta(FromVoid(peer, v), s.serial, s, s')
  {
    var a, w, inp := VoidGuard(c, peer, v).value, Working(s), FromVoid(peer, v);
    VoidGuardFacts(c, peer, a, v);
    WorkingDelta(c, inp, s);
    assert JobID(w.serial, "", peer) in s.acks ==> JobInv(c, s, JobID(w.serial, "", peer));
    VoidBodyMoves(c, s.serial, w, peer, a, v, now);
    DeltaTrans(inp, s.serial, s, w, VoidBody(c, w, peer, a, v, now).value);
  }

  // Local operations.

  lemma SourceRec(c: Policy, k: Key, candidates: seq<Peer>)
    requires k.pair in c.allowed && c.Local(k.pair.master) && !c.Local(k.pair.slave) && |k.material| == KEY_BYTES
    requires candidates != [] && forall p :: p in candidates ==> p in c.Route(k.pair.slave) && p != ""
    ensures RecInv(c, k.id, SourceRecord(k, candidates)) && NewRec(Storing(k), k.id, SourceRecord(k, candidates))
  {
  }

  lemma StoreMoves(c: Policy, s: State, k: Key, now: Time)
    requires c.Valid() && Inv(c, s) && StoreGuard(c, k, now).Ok? && StoreBody(c, Working(s), k).Ok?
    ensures var s' := StoreBody(c, Working(s), k).value; Inv(c, s') && Delta(Storing(k), s.serial, s, s')
  {
    assert |k.material| == KEY_BYTES;
    hide Inv, Delta, Candidates, Key.Valid;
    var w, inp := Working(s), Storing(k);
    WorkingDelta(c, inp, s);
    var (candidates, s1) := Candidates(c, w, k.pair.slave, "");
    CandidatesAllowed(c, w, k.pair.slave, "");
    SourceRec(c, k, candidates);
    NonEmpty(k.id);
    InsertRouted(c, inp, s.serial, w, s1.cursor, k.id, SourceRecord(k, candidates));
    DeltaTrans(inp, s.serial, s, w, Insert(s1, k.id, SourceRecord(k, candidates)));
  }

  lemma InvalidateMoves(c: Policy, s: State, id: KeyID)
    requires Inv(c, s) && Invalidate(s, id).Ok?
    ensures var s' := Invalidate(s, id).value; Inv(c, s') && Delta(Internal, s.serial, s, s')
  {
    WorkingDelta(c, Internal, s);
    VoidMoves(c, Internal, s.serial, Working(s), id, "");
    DeltaTrans(Internal, s.serial, s, Working(s), Invalidate(s, id).value);
  }

  predicate OwesSame(r: Record, r': Record) {
    r'.pair == r.pair && OwedPeers(r') == OwedPeers(r) && CurrentStatus(r') == CurrentStatus(r)
  }

  predicate OwesLess(r: Record, r': Record) {
    && r'.pair == r.pair
    && (OwedPeers(r') == {} || (OwedPeers(r') == OwedPeers(r) && CurrentStatus(r') == CurrentStatus(r)))
  }

  /** A job survives exactly when its key still owes something; its report does not change. */
  predicate JobFollows(s: State, s': State, j: JobID)
    requires j in s.acks && s'.keys.Keys == s.keys.Keys
  {
    var id := KeyOf(s.acks[j]);
    if id in s.keys && OwedPeers(s'.keys[id]) == {} then j !in s'.acks
    else j in s'.acks && s'.acks[j].peer == s.acks[j].peer && s'.acks[j].ack == s.acks[j].ack
  }

  /** Records replaced in place: each keeps what it owes, or owes nothing any more and has its jobs dropped. */
  predicate OwingInPlace(s: State, s': State) {
    && s'.keys.Keys == s.keys.Keys && s'.serial == s.serial
    && (forall id :: id in s.keys ==> OwesLess(s.keys[id], s'.keys[id]))
    && s'.acks.Keys <= s.acks.Keys
    && (forall j :: j in s.acks ==> JobFollows(s, s', j))
  }

  predicate InPlace(c: Policy, inp: Input, s: State, s': State) {
    && OwingInPlace(s, s')
    && s'.order == s.order
    && (forall id :: id in s.keys ==> RecInv(c, id, s'.keys[id]) && RecStep(inp, id, s.keys[id], s'.keys[id]))
    && TokenInv(s')
  }

  lemma InPlaceJob(c: Policy, s: State, s': State, j: JobID)
    requires JobsInv(c, s) && OwingInPlace(s, s') && j in s'.acks
    ensures JobInv(c, s', j) && s'.acks[j].peer == s.acks[j].peer && s'.acks[j].ack == s.acks[j].ack
  {
    assert j in s.acks && JobFollows(s, s', j) && JobInv(c, s, j);
  }

  lemma InPlaceJobs(c: Policy, s: State, s': State)
    requires JobsInv(c, s) && UniqueJobs(s.acks) && OwingInPlace(s, s')
    ensures JobsInv(c, s') && UniqueJobs(s'.acks) && forall b: nat :: JobsFrom(b, s, s')
  {
    forall j | j in s'.acks ensures JobInv(c, s', j) && s'.acks[j].peer == s.acks[j].peer
      && s'.acks[j].ack == s.acks[j].ack {
      InPlaceJob(c, s, s', j);
    }
    forall i, j | i in s'.acks && j in s'.acks && SameSubject(s'.acks[i], s'.acks[j]) ensures i == j {
      assert SameSubject(s.acks[i], s.acks[j]);
    }
  }

  lemma InPlaceOwes(s: State, s': State)
    requires OwingInPlace(s, s')
    ensures OweStep(s, s')
  {
    forall id, p | id in s'.keys && p in OwedPeers(s'.keys[id]) ensures StillOwed(s, s', id, p) {
      var st := CurrentStatus(s.keys[id]);
      assert OwesLess(s.keys[id], s'.keys[id]);
      if Owed(s.acks, p, id, st) {
        var j :| j in s.acks && Matches(s.acks[j], p, id) && s.acks[j].ack.status == st;
        assert JobFollows(s, s', j);
        assert Matches(s'.acks[j], p, id);
      }
    }
  }

  lemma RecordsMove(c: Policy, inp: Input, b: nat, s: State, s': State)
    requires Inv(c, s) && InPlace(c, inp, s, s')
    ensures Inv(c, s') && Delta(inp, b, s, s')
  {
    assert forall id :: id in s'.keys <==> id in s.keys;
    InPlaceJobs(c, s, s');
    InPlaceOwes(s, s');
  }

  /** Jobs are about keys that owe something. */
  lemma JobsOwed(c: Policy, s: State)
    requires JobsInv(c, s) && "" !in s.keys
    ensures forall j :: j in s.acks && KeyOf(s.acks[j]) in s.keys ==> OwedPeers(s.keys[KeyOf(s.acks[j])]) != {}
  {
    forall j | j in s.acks && KeyOf(s.acks[j]) in s.keys ensures OwedPeers(s.keys[KeyOf(s.acks[j])]) != {} {
      assert JobInv(c, s, j);
    }
  }

  /** Unchanged reports about records that owe the same. */
  lemma OwingSame(c: Policy, s: State, s': State)
    requires JobsInv(c, s) && "" !in s.keys && s'.keys.Keys == s.keys.Keys && s'.serial == s.serial
      && s'.acks.Keys == s.acks.Keys
    requires forall id :: id in s.keys ==> OwesSame(s.keys[id], s'.keys[id])
    requires forall j :: j in s.acks ==> s'.acks[j].peer == s.acks[j].peer && s'.acks[j].ack == s.acks[j].ack
    ensures OwingInPlace(s, s')
  {
    JobsOwed(c, s);
  }

  /** One transaction that replaces records in place. */
  lemma InPlaceMoves(c: Policy, inp: Input, s: State, s': State)
    requires Inv(c, s) && InPlace(c, inp, Working(s), s')
    ensures Inv(c, s') && Delta(inp, s.serial, s, s')
  {
    WorkingDelta(c, inp, s);
    RecordsMove(c, inp, s.serial, Working(s), s');
    DeltaTrans(inp, s.serial, s, Working(s), s');
  }

  /** Replacing one record keeps what holds of every record. */
  lemma ReplacedRecords(c: Policy, inp: Input, s: State, id: KeyID, r': Record)
    requires RecsInv(c, s) && id in s.keys && RecInv(c, id, r') && RecStep(inp, id, s.keys[id], r')
    ensures var keys' := s.keys[id := r']; forall x :: x in s.keys ==>
      RecInv(c, x, keys'[x]) && RecStep(inp, x, s.keys[x], keys'[x])
  {
    forall x | x in s.keys && x != id ensures RecStep(inp, x, s.keys[x], s.keys[x]) { RecStepRefl(inp, x, s.keys[x]); }
  }

  lemma ReplacedInPlace(c: Policy, inp: Input, s: State, id: KeyID, r': Record)
    requires Inv(c, s) && id in s.keys && RecInv(c, id, r') && RecStep(inp, id, s.keys[id], r')
    requires OwesSame(s.keys[id], r')
    requires r'.token.Some? ==> r'.token.value <= s.serial
    ensures InPlace(c, inp, s, s.(keys := s.keys[id := r']))
  {
    var s' := s.(keys := s.keys[id := r']);
    OwingSame(c, s, s');
    ReplacedRecords(c, inp, s, id, r');
    assert TokenInv(s');
  }

  lemma TokenRec(c: Policy, inp: Input, id: KeyID, r: Record, token: nat)
    requires RecInv(c, id, r) && r.role == Source && r.ready && !r.delivered && r.token == None
      && inp == Reserving(token)
    ensures var r' := r.(token := Some(token)); RecInv(c, id, r') && RecStep(inp, id, r, r') && OwesSame(r, r')
  {
  }

  lemma TokenedInPlace(c: Policy, s: State, ids: seq<KeyID>)
    requires Inv(c, s)
    requires forall id :: id in ids ==>
      id in s.keys && s.keys[id].role == Source && s.keys[id].ready && !s.keys[id].delivered && s.keys[id].token == None
    ensures InPlace(c, Reserving(s.serial), s, Tokened(s, ids, s.serial))
  {
    var s' := Tokened(s, ids, s.serial);
    forall id | id in s.keys
      ensures RecInv(c, id, s'.keys[id]) && RecStep(Reserving(s.serial), id, s.keys[id], s'.keys[id])
      ensures OwesSame(s.keys[id], s'.keys[id])
    {
      if id in ids {
        TokenRec(c, Reserving(s.serial), id, s.keys[id], s.serial);
      } else {
        RecStepRefl(Reserving(s.serial), id, s.keys[id]);
      }
    }
    OwingSame(c, s, s');
  }

  lemma {:induction false} AvailableMembers(s: State, a: Association, ids: seq<KeyID>, now: Time)
    ensures forall id :: id in AvailableIDs(s, a, ids, now) <==> id in ids && Available(s, a, id, now)
    ensures |AvailableIDs(s, a, ids, now)| <= |ids|
  {
    if ids != [] { AvailableMembers(s, a, ids[1..], now); }
  }

  lemma ReservedAvailable(s: State, a: Association, n: nat, now: Time)
    requires n <= |AvailableIDs(s, a, s.order, now)|
    ensures forall id :: id in AvailableIDs(s, a, s.order, now)[..n] ==> Available(s, a, id, now)
  {
    AvailableMembers(s, a, s.order, now);
    var ids := AvailableIDs(s, a, s.order, now);
    forall id | id in ids[..n] ensures Available(s, a, id, now) { assert id in ids; }
  }

  lemma ReserveMoves(c: Policy, s: State, a: Association, n: int, now: Time)
    requires Inv(c, s) && Reserve(c, s, a, n, now).Ok?
    ensures var s' := Reserve(c, s, a, n, now).value.0; Inv(c, s') && Delta(Reserving(s.serial + 1), s.serial, s, s')
  {
    hide Inv, InPlace, Delta, Tokened, AvailableIDs;
    var w := Working(s);
    WorkingDelta(c, Reserving(s.serial + 1), s);
    ReservedAvailable(w, a, n, now);
    var ids := AvailableIDs(w, a, w.order, now)[..n];
    TokenedInPlace(c, w, ids);
    InPlaceMoves(c, Reserving(s.serial + 1), s, Tokened(w, ids, w.serial));
  }

  lemma SpentRec(c: Policy, id: KeyID, r: Record, now: Time)
    requires RecInv(c, id, r) && r.role != Relay && Usable(r, now)
    ensures var r' := Spent(r); RecInv(c, id, r') && RecStep(Consuming, id, r, r') && OwesSame(r, r')
  {
  }

  lemma DeliverInPlace(c: Policy, s: State, ids: seq<KeyID>, now: Time)
    requires Inv(c, s)
    requires forall id :: id in ids ==> id in s.keys && s.keys[id].role != Relay && Usable(s.keys[id], now)
    ensures InPlace(c, Consuming, s, DeliverAll(s, ids))
  {
    var s' := DeliverAll(s, ids);
    forall id | id in s.keys
      ensures RecInv(c, id, s'.keys[id]) && RecStep(Consuming, id, s.keys[id], s'.keys[id])
      ensures OwesSame(s.keys[id], s'.keys[id])
    {
      if id in ids { SpentRec(c, id, s.keys[id], now); } else { RecStepRefl(Consuming, id, s.keys[id]); }
    }
    OwingSame(c, s, s');
  }

  /** Collected identifiers appear in insertion order, so they are distinct. */
  lemma {:induction false} CollectDistinct(s: State, a: Association, token: nat, i: nat, now: Time)
    requires i <= |s.order| && Distinct(s.order)
    ensures Collect(s, a, token, i, now).Ok? ==> Distinct(Collect(s, a, token, i, now).value)
    decreases |s.order| - i
  {
    if i < |s.order| {
      CollectDistinct(s, a, token, i + 1, now);
      CollectedExist(s, a, token, i + 1, now);
      var r, rest := Collect(s, a, token, i, now), Collect(s, a, token, i + 1, now);
      if r.Ok? {
        assert r == rest || r.value == [s.order[i]] + rest.value;
        hide Held;
        forall n | 0 <= n < |rest.value| ensures rest.value[n] != s.order[i] {
          assert rest.value[n] in s.order[i + 1..];
        }
      }
    }
  }

  lemma ConsumeReservationMoves(c: Policy, s: State, a: Association, token: Option<nat>, now: Time)
    requires Inv(c, s) && ConsumeReservation(s, a, token, now).Ok?
    ensures var s' := ConsumeReservation(s, a, token, now).value.0; Inv(c, s') && Delta(Consuming, s.serial, s, s')
  {
    var w := Working(s);
    WorkingDelta(c, Consuming, s);
    CollectedExist(w, a, token.value, 0, now);
    var ids := Collect(w, a, token.value, 0, now).value;
    DeliverInPlace(c, w, ids, now);
    InPlaceMoves(c, Consuming, s, DeliverAll(w, ids));
  }

  lemma ConsumePeerMoves(c: Policy, s: State, a: Association, ids: seq<KeyID>, now: Time)
    requires Inv(c, s) && ConsumePeer(c, s, a, ids, now).Ok?
    ensures var s' := ConsumePeer(c, s, a, ids, now).value.0; Inv(c, s') && Delta(Consuming, s.serial, s, s')
  {
    var w := Working(s);
    WorkingDelta(c, Consuming, s);
    PeerChecked(w, a, ids, 0, now);
    DeliverInPlace(c, w, ids, now);
    InPlaceMoves(c, Consuming, s, DeliverAll(w, ids));
  }

  lemma ExpireOwing(c: Policy, s: State, now: Time)
    requires JobsInv(c, s) && RecsInv(c, s) && "" !in s.keys
    ensures OwingInPlace(s, Expire(s, now))
  {
    var s' := Expire(s, now);
    JobsOwed(c, s);
    forall id | id in s.keys ensures OwesLess(s.keys[id], s'.keys[id])
      && (Due(s.keys[id], now) ==> OwedPeers(s'.keys[id]) == {}) {}
    forall j | j in s.acks ensures JobFollows(s, s', j) {}
  }

  lemma ExpireInPlace(c: Policy, s: State, now: Time)
    requires Inv(c, s)
    ensures InPlace(c, Internal, s, Expire(s, now))
  {
    var s' := Expire(s, now);
    ExpireOwing(c, s, now);
    forall id | id in s.keys
      ensures RecInv(c, id, s'.keys[id]) && RecStep(Internal, id, s.keys[id], s'.keys[id])
      ensures s'.keys[id].token.Some? ==> s'.keys[id].token == s.keys[id].token
    {
      if Due(s.keys[id], now) {
        VoidingRec(c, Internal, id, s.keys[id], "");
      } else {
        RecStepRefl(Internal, id, s.keys[id]);
      }
    }
  }

  lemma ExpireMoves(c: Policy, s: State, now: Time)
    requires Inv(c, s)
    ensures var s' := Expire(Working(s), now); Inv(c, s') && Delta(Internal, s.serial, s, s')
  {
    WorkingDelta(c, Internal, s);
    ExpireInPlace(c, Working(s), now);
    InPlaceMoves(c, Internal, s, Expire(Working(s), now));
  }

  // The worker's commits.

  lemma CommitRec(c: Policy, id: KeyID, r: Record, peer: Peer, now: Time)
    requires RecInv(c, id, r) && !r.voiding && !r.ready && (if r.sent then peer == r.next else peer in r.candidates)
    ensures var r' := r.(next := peer, sent := true, retry := now + RETRY);
      RecInv(c, id, r') && RecStep(Sending(peer), id, r, r') && OwesSame(r, r')
  {
  }

  lemma CommitSendMoves(c: Policy, s: State, id: KeyID, peer: Peer, now: Time)
    requires Inv(c, s) && id in s.keys && CommitSend(Working(s), id, peer, now).Ok?
    requires if s.keys[id].sent then peer == s.keys[id].next else peer in s.keys[id].candidates
    ensures var s' := CommitSend(Working(s), id, peer, now).value; Inv(c, s') && Delta(Sending(peer), s.serial, s, s')
  {
    WorkingDelta(c, Sending(peer), s);
    CommitRec(c, id, s.keys[id], peer, now);
    ReplacedInPlace(c, Sending(peer), Working(s), id, s.keys[id].(next := peer, sent := true, retry := now + RETRY));
    InPlaceMoves(c, Sending(peer), s, CommitSend(Working(s), id, peer, now).value);
  }

  lemma DeferRec(c: Policy, id: KeyID, r: Record, at: Time)
    requires RecInv(c, id, r)
    ensures var r' := r.(retry := at); RecInv(c, id, r') && RecStep(Internal, id, r, r') && OwesSame(r, r')
  {
  }

  lemma DeferMoves(c: Policy, s: State, id: KeyID, now: Time)
    requires Inv(c, s) && id in s.keys
    ensures var s' := Defer(Working(s), id, now); Inv(c, s') && Delta(Internal, s.serial, s, s')
  {
    WorkingDelta(c, Internal, s);
    DeferRec(c, id, s.keys[id], now + RETRY);
    ReplacedInPlace(c, Internal, Working(s), id, s.keys[id].(retry := now + RETRY));
    InPlaceMoves(c, Internal, s, Defer(Working(s), id, now));
  }

  lemma AckFailedInPlace(c: Policy, s: State, j: JobID, now: Time)
    requires Inv(c, s)
    ensures InPlace(c, Internal, s, AckFailed(s, j, now))
  {
    hide RecStep, RecInv, OwingInPlace, JobsInv, UniqueJobs, OwedPeers, CurrentStatus;
    var s' := AckFailed(s, j, now);
    assert s'.keys == s.keys && s'.order == s.order && s'.serial == s.serial;
    OwingSame(c, s, s');
    forall id | id in s.keys ensures RecStep(Internal, id, s.keys[id], s.keys[id]) {
      RecStepRefl(Internal, id, s.keys[id]);
    }
  }

  lemma AckFailedMoves(c: Policy, s: State, j: JobID, now: Time)
    requires Inv(c, s)
    ensures var s' := AckFailed(Working(s), j, now); Inv(c, s') && Delta(Internal, s.serial, s, s')
  {
    WorkingDelta(c, Internal, s);
    AckFailedInPlace(c, Working(s), j, now);
    InPlaceMoves(c, Internal, s, AckFailed(Working(s), j, now));
  }

  /** Removing a job keeps everything but the completeness of the outbox for that one result. */
  lemma AckSentMoves(c: Policy, s: State, j: JobID)
    requires Inv(c, s)
    ensures var s' := AckSent(Working(s), j); Inv(c, s') && KeysStep(Internal, s, s') && JobsFrom(s.serial, s, s')
    ensures var s' := AckSent(Working(s), j); forall id, p :: id in s'.keys && p in OwedPeers(s'.keys[id]) ==>
      StillOwed(s, s', id, p) || (j in s.acks && Matches(s.acks[j], p, id)
        && s.acks[j].ack.status == CurrentStatus(s.keys[id]))
  {
    var w := Working(s);
    var s' := AckSent(w, j);
    WorkingDelta(c, Internal, s);
    forall i | i in s'.acks ensures JobInv(c, s', i) { assert JobInv(c, w, i); }
    forall id, p | id in s'.keys && p in OwedPeers(s'.keys[id])
      ensures StillOwed(s, s', id, p) || (j in s.acks && Matches(s.acks[j], p, id)
        && s.acks[j].ack.status == CurrentStatus(s.keys[id]))
    {
      if Owed(s.acks, p, id, CurrentStatus(s.keys[id])) {
        var i :| i in s.acks && Matches(s.acks[i], p, id) && s.acks[i].ack.status == CurrentStatus(s.keys[id]);
        if i != j { assert i in s'.acks && Matches(s'.acks[i], p, id); }
      }
    }
  }

  lemma EmptyInv(c: Policy)
    ensures Inv(c, EMPTY)
  {
  }
}
