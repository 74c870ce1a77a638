/** What a group of results from a neighbour makes of each key. */
module RelayAckEffects {
  import opened Core
  import opened Peering
  import opened Etsi020
  import opened RelayState
  import opened RelayInvariant
  import opened RelayHandlers
  import opened RelayEffects

  // Results from neighbours.

  /** What a peer's result makes of a key. Being voided: a confirmation is taken, and a failure remembered; nothing
      else counts. Due: it begins to be voided, and the result then counts for that. Otherwise "relayed" makes it
      ready and is passed on, a relay letting go of the bytes, and anything else begins to void it. */
  ghost predicate Reported(id: KeyID, r: Record, r': Record, about: set<Notice>, about': set<Notice>, peer: Peer,
      st: Status, now: Time)
  {
    var gone := st == Voided || st == NotPresent || st == FailedToVoid;
    if r.voiding then
      if gone then
        && r' == r.(voidPending := r.voidPending - {peer}, voidFailed := r.voidFailed || st == FailedToVoid)
        && Answered(id, r', about')
      else r' == r && about' == about
    else if r.expires <= now then
      about' == {} && Begun(r, r', {}, if gone then {peer} else {}, r.delivered || st == FailedToVoid)
    else if st == Relayed then
      && r' == r.(ready := true, material := if r.role == Relay then [] else r.material)
      && about' == if r.sender == "" then {} else {Told(id, r, r.sender, Relayed)}
    else about' == {} && Begins(r, r', "")
  }

  /** The peer may report on this key: it was sent there, or it came from there and is being voided; and it is
      "relayed" only where it was sent. */
  predicate Reportable(s: State, peer: Peer, a: Ack, id: KeyID) {
    && id in s.keys && |a.targets| == 1 && a.initiator == s.keys[id].pair.master
      && a.targets[0] == s.keys[id].pair.slave
    && (peer == s.keys[id].next || (s.keys[id].voiding && peer == s.keys[id].sender))
    && (a.status == Relayed ==> s.keys[id].sent && peer == s.keys[id].next)
  }

  lemma ConfirmedEffect(c: Policy, s: State, peer: Peer, acks: seq<Ack>, st: Status, id: KeyID)
    requires Inv(c, s) && id in s.keys && s.keys[id].voiding && Reports(acks, id, st)
    requires st == Voided || st == NotPresent || st == FailedToVoid
    ensures var s' := AckVoiding(s, peer, st, id); var r := s.keys[id];
      && SameFrame(s, s') && Untouched(s, s', [id])
      && s'.keys[id] == r.(voidPending := r.voidPending - {peer}, voidFailed := r.voidFailed || st == FailedToVoid)
      && Answered(id, s'.keys[id], About(s', id))
  {
    var r := s.keys[id];
    var r' := Confirmed(r, peer, st);
    assert RecInv(c, id, r);
    ConfirmedRec(c, peer, acks, id, r, st);
    FinishSettles(Put(s, id, r', false), id);
    OwingAnswered(id, r');
    hide Inv, RecInv, Untouched, Answered, FinishVoid, Settle;
    SettledAbout(c, s, id, r', false);
  }

  lemma RelaidOwing(id: KeyID, r: Record)
    requires !r.voiding
    ensures Owing(id, Relaid(r)) == if r.sender == "" then {} else {Told(id, r, r.sender, Relayed)}
  {
    var r' := Relaid(r);
    assert OwedPeers(r') == if r.sender == "" then {} else {r.sender};
    assert forall p :: Told(id, r', p, CurrentStatus(r')) == Told(id, r, p, Relayed);
  }

  lemma RelayedEffect(c: Policy, s: State, peer: Peer, acks: seq<Ack>, id: KeyID)
    requires Inv(c, s) && id in s.keys && Reports(acks, id, Relayed)
    requires !s.keys[id].voiding && s.keys[id].sent && peer == s.keys[id].next
    ensures var s' := AckRelayed(s, id); var r := s.keys[id];
      && SameFrame(s, s') && Untouched(s, s', [id])
      && s'.keys[id] == r.(ready := true, material := if r.role == Relay then [] else r.material)
      && About(s', id) == if r.sender == "" then {} else {Told(id, r, r.sender, Relayed)}
  {
    var r := s.keys[id];
    assert RecInv(c, id, r);
    RelaidRec(c, peer, acks, id, r);
    hide Inv, RecInv, Untouched, About;
    OweNobody(Put(s, id, Relaid(r), false), id, r.pair, Relayed);
    RelaidOwing(id, r);
    assert KeepsOwing(s, id, Relaid(r), false);
    hide Owing;
    SettledAbout(c, s, id, Relaid(r), false);
  }

  ghost predicate ReportedAt(s: State, s': State, peer: Peer, a: Ack, id: KeyID, now: Time) {
    && id in s.keys && id in s'.keys
    && Reported(id, s.keys[id], s'.keys[id], About(s, id), About(s', id), peer, a.status, now)
  }

  lemma AckKeyEffect(c: Policy, s: State, peer: Peer, acks: seq<Ack>, i: nat, id: KeyID, now: Time)
    requires Inv(c, s) && s.serial > 0 && i < |acks| && |acks[i].targets| == 1 && id in acks[i].ids
    requires MayAck(s, peer, acks[i], id)
    ensures var s' := AckKey(s, peer, acks[i].status, id, now);
      SameFrame(s, s') && Untouched(s, s', [id]) && ReportedAt(s, s', peer, acks[i], id, now)
  {
    var st, r := acks[i].status, s.keys[id];
    assert Reports(acks, id, st);
    hide Inv, Untouched, Answered, Begun, StartVoid, FinishVoid, Owe, Reports;
    if r.voiding {
      if st == Voided || st == NotPresent || st == FailedToVoid { ConfirmedEffect(c, s, peer, acks, st, id); }
    } else if r.expires <= now {
      DueEffect(c, s, peer, acks, st, id);
    } else if st == Relayed {
      RelayedEffect(c, s, peer, acks, id);
    } else {
      BeginEffect(c, s, id);
    }
  }

  /** A void that begins locally owes nothing yet. */
  lemma BeginEffect(c: Policy, s: State, id: KeyID)
    requires Inv(c, s) && s.serial > 0 && id in s.keys && !s.keys[id].voiding
    ensures var s' := StartVoid(s, id, "");
      && FinishVoid(s', id) == s' && Inv(c, s') && SameFrame(s, s') && Untouched(s, s', [id])
      && Begins(s.keys[id], s'.keys[id], "") && About(s', id) == {}
  {
    VoidEffect(c, s, id, "");
    StartMoves(c, Internal, s.serial - 1, s, id);
    var s' := StartVoid(s, id, "");
    assert s'.keys[id].voidPending == {} ==> About(s', id) == {};
    hide Inv, Untouched, FinishVoid;
  }

  lemma DueEffect(c: Policy, s: State, peer: Peer, acks: seq<Ack>, st: Status, id: KeyID)
    requires Inv(c, s) && s.serial > 0 && id in s.keys && !s.keys[id].voiding && Reports(acks, id, st)
    ensures var s' := AckVoiding(StartVoid(s, id, ""), peer, st, id); var r := s.keys[id];
      var gone := st == Voided || st == NotPresent || st == FailedToVoid;
      && SameFrame(s, s') && Untouched(s, s', [id]) && About(s', id) == {}
      && Begun(r, s'.keys[id], {}, if gone then {peer} else {}, r.delivered || st == FailedToVoid)
  {
    var s1 := StartVoid(s, id, "");
    BeginEffect(c, s, id);
    hide Inv, Untouched, Begun;
    if st == Voided || st == NotPresent || st == FailedToVoid {
      ConfirmedEffect(c, s1, peer, acks, st, id);
      UntouchedTrans(s, s1, AckVoiding(s1, peer, st, id), [id], [id], [id]);
      BegunConfirmed(s.keys[id], s1.keys[id], peer, st);
    }
  }

  lemma BegunConfirmed(r: Record, r1: Record, peer: Peer, st: Status)
    requires Begins(r, r1, "")
    ensures var r' := r1.(voidPending := r1.voidPending - {peer}, voidFailed := r1.voidFailed || st == FailedToVoid);
      Begun(r, r', {}, {peer}, r.delivered || st == FailedToVoid)
  {
  }

  /** The identifiers of a group from position (i, j) on. */
  function Rest(acks: seq<Ack>, i: nat, j: nat): seq<KeyID>
    requires i <= |acks| && (i < |acks| ==> j <= |acks[i].ids|)
  {
    if i == |acks| then [] else acks[i].ids[j..] + AckIDs(acks[i + 1..])
  }

  lemma {:induction false} GroupHas(acks: seq<Ack>, m: nat, n: nat)
    requires m < |acks| && n < |acks[m].ids|
    ensures acks[m].ids[n] in AckIDs(acks)
  {
    if m > 0 {
      GroupHas(acks[1..], m - 1, n);
      assert AckIDs(acks) == acks[0].ids + AckIDs(acks[1..]);
    }
  }

  lemma RestHas(acks: seq<Ack>, i: nat, j: nat, m: nat, n: nat)
    requires i <= m < |acks| && j <= |acks[i].ids| && n < |acks[m].ids| && (m == i ==> j <= n)
    ensures acks[m].ids[n] in Rest(acks, i, j)
  {
    if m == i {
      assert acks[i].ids[j..][n - j] == acks[i].ids[n];
    } else {
      GroupHas(acks[i + 1..], m - i - 1, n);
    }
  }

  lemma RestNext(acks: seq<Ack>, i: nat, j: nat)
    requires i < |acks| && j < |acks[i].ids|
    ensures Rest(acks, i, j) == [acks[i].ids[j]] + Rest(acks, i, j + 1)
  {
    var later := AckIDs(acks[i + 1..]);
    assert acks[i].ids[j..] == [acks[i].ids[j]] + acks[i].ids[j + 1..];
    hide AckIDs;
    assert ([acks[i].ids[j]] + acks[i].ids[j + 1..]) + later == [acks[i].ids[j]] + (acks[i].ids[j + 1..] + later);
  }

  lemma RestOver(acks: seq<Ack>, i: nat)
    requires i < |acks|
    ensures Rest(acks, i, |acks[i].ids|) == Rest(acks, i + 1, 0)
  {
    if i + 1 < |acks| {
      assert acks[i + 1..][0] == acks[i + 1] && acks[i + 1..][1..] == acks[i + 2..];
      assert acks[i + 1].ids[0..] == acks[i + 1].ids;
    }
  }

  /** Every result of the group from (i, j) on counted for its key. */
  ghost predicate AllReported(s: State, s': State, peer: Peer, acks: seq<Ack>, i: nat, j: nat, now: Time) {
    forall m, n :: i <= m < |acks| && 0 <= n < |acks[m].ids| && (m == i ==> j <= n) ==>
      ReportedAt(s, s', peer, acks[m], acks[m].ids[n], now)
  }

  lemma ReportedFirst(s: State, s1: State, s2: State, peer: Peer, a: Ack, id: KeyID, now: Time, ids: seq<KeyID>)
    requires ReportedAt(s, s1, peer, a, id, now) && Untouched(s1, s2, ids) && id !in ids
    ensures ReportedAt(s, s2, peer, a, id, now)
  {
    hide Reported;
  }

  lemma ReportedLater(s: State, s1: State, s2: State, peer: Peer, a: Ack, id: KeyID, now: Time, ids: seq<KeyID>)
    requires Untouched(s, s1, ids) && id !in ids && ReportedAt(s1, s2, peer, a, id, now)
    ensures ReportedAt(s, s2, peer, a, id, now)
  {
    hide Reported;
  }

  lemma {:induction false} AckKeysEffect(c: Policy, s: State, peer: Peer, acks: seq<Ack>, i: nat, j: nat, now: Time)
    requires Inv(c, s) && s.serial > 0 && i <= |acks| && (i < |acks| ==> j <= |acks[i].ids|)
    requires AllMayAck(s, peer, acks) && Distinct(Rest(acks, i, j))
    ensures var s' := AckKeys(s, peer, acks, i, j, now);
      SameFrame(s, s') && Untouched(s, s', Rest(acks, i, j)) && AllReported(s, s', peer, acks, i, j, now)
    decreases |acks| - i, if i < |acks| then |acks[i].ids| - j else 0
  {
    hide Inv, AckKey, Untouched, ReportedAt, Rest, MayAck, Delta;
    if i < |acks| {
      if j == |acks[i].ids| {
        RestOver(acks, i);
        AckKeysEffect(c, s, peer, acks, i + 1, 0, now);
      } else {
        var id, rest := acks[i].ids[j], Rest(acks, i, j + 1);
        RestNext(acks, i, j);
        FirstDistinct(id, rest);
        MayAckKnown(s, peer, acks[i], id);
        AckKeyEffect(c, s, peer, acks, i, id, now);
        AckKeyMoves(c, s.serial - 1, s, peer, acks, i, id, now);
        var s1 := AckKey(s, peer, acks[i].status, id, now);
        AllMayAckKept(s.serial - 1, s, s1, peer, acks);
        SerialMoves(FromAcks(peer, acks), s, s1);
        AckKeysEffect(c, s1, peer, acks, i, j + 1, now);
        var s' := AckKeys(s1, peer, acks, i, j + 1, now);
        UntouchedTrans(s, s1, s', [id], rest, Rest(acks, i, j));
        AllFirst(s, s1, s', peer, acks, i, j, now);
      }
    } else {
      UntouchedRefl(s);
    }
  }

  lemma MayAckKnown(s: State, peer: Peer, a: Ack, id: KeyID)
    requires |a.targets| == 1 && MayAck(s, peer, a, id)
    ensures id in s.keys
  {
  }

  lemma AllFirst(s: State, s1: State, s2: State, peer: Peer, acks: seq<Ack>, i: nat, j: nat, now: Time)
    requires i < |acks| && j < |acks[i].ids| && acks[i].ids[j] !in Rest(acks, i, j + 1)
    requires ReportedAt(s, s1, peer, acks[i], acks[i].ids[j], now) && Untouched(s, s1, [acks[i].ids[j]])
    requires Untouched(s1, s2, Rest(acks, i, j + 1)) && AllReported(s1, s2, peer, acks, i, j + 1, now)
    ensures AllReported(s, s2, peer, acks, i, j, now)
  {
    hide ReportedAt, Untouched, Rest;
    forall m, n | i <= m < |acks| && 0 <= n < |acks[m].ids| && (m == i ==> j <= n)
      ensures ReportedAt(s, s2, peer, acks[m], acks[m].ids[n], now) {
      if m == i && n == j {
        ReportedFirst(s, s1, s2, peer, acks[i], acks[i].ids[j], now, Rest(acks, i, j + 1));
      } else {
        RestHas(acks, i, j + 1, m, n);
        ReportedLater(s, s1, s2, peer, acks[m], acks[m].ids[n], now, [acks[i].ids[j]]);
      }
    }
  }

  ghost predicate AllReportable(s: State, peer: Peer, acks: seq<Ack>) {
    forall m, n :: 0 <= m < |acks| && 0 <= n < |acks[m].ids| ==> Reportable(s, peer, acks[m], acks[m].ids[n])
  }

  lemma {:induction false} AckCheckPasses(s: State, peer: Peer, acks: seq<Ack>, i: nat, j: nat)
    requires i <= |acks| && (i < |acks| ==> j <= |acks[i].ids|)
    requires forall n :: 0 <= n < |acks| ==> |acks[n].targets| == 1
    requires AllReportable(s, peer, acks)
    ensures AckCheck(s, peer, acks, i, j).Ok?
    decreases |acks| - i, if i < |acks| then |acks[i].ids| - j else 0
  {
    if i < |acks| {
      if j == |acks[i].ids| {
        AckCheckPasses(s, peer, acks, i + 1, 0);
      } else {
        assert Reportable(s, peer, acks[i], acks[i].ids[j]);
        AckCheckPasses(s, peer, acks, i, j + 1);
      }
    }
  }

  /** Exactly the groups that are well formed and whose every result the peer may report are accepted, as a whole;
      then every result counts for its key, and for no other. */
  lemma AcknowledgeEffect(c: Policy, s: State, peer: Peer, acks: seq<Ack>, now: Time)
    requires Inv(c, s)
    ensures Acknowledge(c, s, peer, acks, now).Ok? <==>
      peer in c.cfg.peers && ValidAcks(acks) && AllReportable(s, peer, acks)
    ensures var r := Acknowledge(c, s, peer, acks, now); r.Ok? ==>
      && SameFrame(s, r.value) && Untouched(s, r.value, AckIDs(acks))
      && AllReported(s, r.value, peer, acks, 0, 0, now)
  {
    var w := Working(s);
    if peer in c.cfg.peers && ValidAcks(acks) {
      AcksHaveOneTarget(acks);
      if AllReportable(s, peer, acks) { AckCheckPasses(w, peer, acks, 0, 0); }
      if AckCheck(w, peer, acks, 0, 0).Ok? {
        AckChecked(w, peer, acks, 0, 0);
        ReportableAll(s, peer, acks);
        WorkingInv(c, s);
        WholeGroup(acks);
        AckKeysEffect(c, w, peer, acks, 0, 0, now);
        FromWorking(s, AckKeys(w, peer, acks, 0, 0, now), peer, acks, now);
      }
    }
    hide Inv, AckKeys, AckCheck, Untouched, AllReported, AllReportable;
  }

  lemma WholeGroup(acks: seq<Ack>)
    ensures Rest(acks, 0, 0) == AckIDs(acks)
  {
    if acks != [] { assert acks[0].ids[0..] == acks[0].ids; }
  }

  lemma ReportableAll(s: State, peer: Peer, acks: seq<Ack>)
    requires forall n :: 0 <= n < |acks| ==> |acks[n].targets| == 1
    requires forall m, n :: 0 <= m < |acks| && 0 <= n < |acks[m].ids| ==>
      MayAck(Working(s), peer, acks[m], acks[m].ids[n])
    ensures AllReportable(s, peer, acks)
  {
    forall m, n | 0 <= m < |acks| && 0 <= n < |acks[m].ids| ensures Reportable(s, peer, acks[m], acks[m].ids[n]) {
      assert MayAck(Working(s), peer, acks[m], acks[m].ids[n]);
    }
  }

  lemma FromWorking(s: State, s': State, peer: Peer, acks: seq<Ack>, now: Time)
    requires AllReported(Working(s), s', peer, acks, 0, 0, now)
    ensures AllReported(s, s', peer, acks, 0, 0, now)
    ensures forall ids :: Untouched(Working(s), s', ids) ==> Untouched(s, s', ids)
  {
    hide Reported;
    forall x ensures About(Working(s), x) == About(s, x) {}
    forall m, n | 0 <= m < |acks| && 0 <= n < |acks[m].ids|
      ensures ReportedAt(s, s', peer, acks[m], acks[m].ids[n], now) {
      assert ReportedAt(Working(s), s', peer, acks[m], acks[m].ids[n], now);
    }
  }
}
