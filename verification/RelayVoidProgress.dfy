/** A void comes to an end: once every neighbour that has to confirm has done so, whoever asked is given the
    verdict. */
module RelayVoidProgress {
  import opened Core
  import opened Uuid
  import opened Peering
  import opened Etsi020
  import opened RelayState
  import opened RelayInvariant
  import opened RelayEffects
  import opened RelayAckEffects
  import opened RelayNetwork
  import opened RelayTrace
  import opened RelayRuns
  import opened RelayTheorems
  import opened RelayWiring
  import opened RelayProgress

  // A confirmation.

  /** The result says of the key that it is gone, was never there, or could not be voided any more. */
  predicate Confirming(a: Ack, id: KeyID) {
    id in a.ids && (a.status == Voided || a.status == NotPresent || a.status == FailedToVoid)
  }

  /** At x a confirmation sent by p reaches node n, which serves and can save. */
  ghost predicate ConfirmedAt(cs: Policies, run: seq<Label>, n: Peer, id: KeyID, p: Peer, x: nat) {
    && x < |run| && run[x].Deliver? && run[x].m.AckMsg? && run[x].m.from == p && run[x].m.to == n
    && Confirming(run[x].m.ack, id) && run[x].m in At(cs, run, x).sent && run[x].f == Saves && Serves(At(cs, run, x), n)
  }

  lemma NeighbourKnown(c: Policy, id: KeyID, r: Record, p: Peer)
    requires c.Valid() && RecInv(c, id, r) && p in r.voidPending
    ensures p in c.cfg.peers && (p == r.next || p == r.sender)
  {
    if r.sent {
      assert GoodRoute(c.cfg, r.pair.slave);
    }
  }

  lemma OneResult(a: Ack, id: KeyID)
    requires a.ids == [id] && ValidID(id) && Pair(a.initiator, a.targets).Ok?
    ensures ValidAcks([a]) && AckIDs([a]) == [id]
  {
    assert [a][1..] == [];
    assert AckIDs([a]) == [id];
  }

  lemma ConfirmationCounts(c: Policy, s: State, peer: Peer, a: Ack, id: KeyID, now: Time)
    requires Inv(c, s) && id in s.keys && s.keys[id].voiding && Confirming(a, id) && a.ids == [id] && ValidID(id)
    requires peer in c.cfg.peers && (peer == s.keys[id].next || peer == s.keys[id].sender)
    requires a.initiator == s.keys[id].pair.master && a.targets == [s.keys[id].pair.slave]
    requires Pair(a.initiator, a.targets).Ok?
    ensures var o := Acknowledge(c, s, peer, [a], now);
      && o.Ok? && id in o.value.keys
      && o.value.keys[id].voidPending == s.keys[id].voidPending - {peer}
      && o.value.keys[id].voidFailed == (s.keys[id].voidFailed || a.status == FailedToVoid)
  {
    hide Inv, Acknowledge, ValidAcks, Pair, ValidID, AckIDs, Untouched, RelayEffects.Answered;
    OneResult(a, id);
    AcknowledgeEffect(c, s, peer, [a], now);
    var o := Acknowledge(c, s, peer, [a], now);
    assert ReportedAt(s, o.value, peer, [a][0], [a][0].ids[0], now);
  }

  /** A neighbour's confirmation that arrives is taken: the neighbour need not confirm any more. */
  lemma ConfirmationTaken(cs: Policies, net: Net, m: Msg, id: KeyID, now: Time)
    requires ValidPolicies(cs) && NetInv(cs, net) && m in net.sent && m.AckMsg? && Confirming(m.ack, id)
    requires Serves(net, m.to) && Has(net, m.to, id) && ValidID(id)
    requires var r := Rec(net, m.to, id);
      r.voiding && m.from in r.voidPending && Pair(r.pair.master, [r.pair.slave]).Ok?
    ensures var net' := Apply(cs, net, Deliver(m, now, Saves));
      && Has(net', m.to, id)
      && Rec(net', m.to, id).voidPending == Rec(net, m.to, id).voidPending - {m.from}
      && Rec(net', m.to, id).voidFailed == (Rec(net, m.to, id).voidFailed || m.ack.status == FailedToVoid)
  {
    hide NetInv, Inv, Acknowledge, Pair, ValidID, Apply, ValidPolicies;
    ConfirmationFits(cs, net, m, id);
    LiveInv(cs, net, m.to);
    ConfirmationCounts(cs[m.to], net.nodes[m.to].store.live, m.from, m.ack, id, now);
    DeliverStep(cs, net, m, now);
  }

  /** It is well addressed and about the same pair. */
  lemma ConfirmationFits(cs: Policies, net: Net, m: Msg, id: KeyID)
    requires ValidPolicies(cs) && NetInv(cs, net) && m in net.sent && m.AckMsg? && Confirming(m.ack, id)
    requires Serves(net, m.to) && Has(net, m.to, id)
    requires Rec(net, m.to, id).voiding && m.from in Rec(net, m.to, id).voidPending
    ensures m.to in cs && m.from in cs[m.to].cfg.peers && m.ack.ids == [id]
    ensures var r := Rec(net, m.to, id);
      && m.ack.initiator == r.pair.master && m.ack.targets == [r.pair.slave]
      && (m.from == r.next || m.from == r.sender)
  {
    hide NetInv, Policy.Valid, RecInv, Claim;
    MsgOf(cs, net, m);
    assert m.ack.ids == [id];
    SamePair(cs, net, m.to, m.from, id);
    RecordFacts(cs, net, m.to, id);
    hide RecGood, AckGood;
    NeighbourKnown(cs[m.to], id, Rec(net, m.to, id), m.from);
  }

  lemma SamePair(cs: Policies, net: Net, n: Peer, p: Peer, id: KeyID)
    requires NetInv(cs, net) && Has(net, n, id) && Has(net, p, id)
    ensures Rec(net, n, id).pair == Rec(net, p, id).pair
  {
    hide NetInv, RecInv;
    RecordFacts(cs, net, n, id);
    RecordFacts(cs, net, p, id);
  }

  // Over a run.

  /** Between i and j the neighbour's confirmation reached the node, or it has asked for the void itself by j. */
  ghost predicate HasConfirmed(cs: Policies, run: seq<Label>, n: Peer, id: KeyID, p: Peer, i: nat, j: nat)
    requires i <= j <= |run|
  {
    || (exists x :: i <= x < j && ConfirmedAt(cs, run, n, id, p, x))
    || (Has(At(cs, run, j), n, id) && p in Rec(At(cs, run, j), n, id).voidRequests)
  }

  /** The peer is owed this result about the key, or has committed it. */
  ghost predicate IsTold(net: Net, n: Peer, id: KeyID, q: Peer, st: Status)
    requires Has(net, n, id)
  {
    var r := Rec(net, n, id);
    Told(id, r, q, st) in About(Disk(net, n), id) || RelayTrace.Acked(net, n, q, id, st)
  }

  lemma VoidingLater(cs: Policies, run: seq<Label>, n: Peer, id: KeyID, i: nat, j: nat)
    requires ValidPolicies(cs) && i <= j <= |run| && Has(At(cs, run, i), n, id) && Rec(At(cs, run, i), n, id).voiding
    ensures NetInv(cs, At(cs, run, j)) && Has(At(cs, run, j), n, id)
    ensures var r, r' := Rec(At(cs, run, i), n, id), Rec(At(cs, run, j), n, id);
      r'.voiding && r'.pair == r.pair && r'.voidPending <= r.voidPending
  {
    hide NetInv, Run, ValidPolicies, At;
    AtGrows(cs, run, i, j);
    assert Later(Rec(At(cs, run, i), n, id), Rec(At(cs, run, j), n, id));
  }

  lemma KeyNamed(cs: Policies, run: seq<Label>, n: Peer, id: KeyID, i: nat)
    requires ValidPolicies(cs) && i <= |run| && Has(At(cs, run, i), n, id)
    ensures ValidID(id)
  {
    hide NetInv, RecInv, ValidID, Run;
    RunKeeps(cs, run[..i]);
    RecordFacts(cs, At(cs, run, i), n, id);
    OriginSized(cs, run[..i], id);
  }

  /** A confirmed neighbour is not waited for any more. */
  lemma ConfirmedOnce(cs: Policies, run: seq<Label>, n: Peer, id: KeyID, p: Peer, i: nat, j: nat, x: nat)
    requires ValidPolicies(cs) && i <= x < j <= |run| && ConfirmedAt(cs, run, n, id, p, x)
    requires Has(At(cs, run, i), n, id) && Rec(At(cs, run, i), n, id).voiding
    requires var a := Rec(At(cs, run, i), n, id).pair; Pair(a.master, [a.slave]).Ok?
    ensures Has(At(cs, run, j), n, id) && p !in Rec(At(cs, run, j), n, id).voidPending
  {
    hide NetInv, Run, At, Apply, ValidPolicies, Pair, ValidID, Confirming;
    VoidingLater(cs, run, n, id, i, x);
    VoidingLater(cs, run, n, id, i, x + 1);
    VoidingLater(cs, run, n, id, x, x + 1);
    VoidingLater(cs, run, n, id, x + 1, j);
    if p in Rec(At(cs, run, x), n, id).voidPending {
      KeyNamed(cs, run, n, id, i);
      ConfirmationTaken(cs, At(cs, run, x), run[x].m, id, run[x].now);
      AtNext(cs, run, x);
      assert run[x] == Deliver(run[x].m, run[x].now, Saves);
    }
  }

  lemma AskedIsNotPending(cs: Policies, net: Net, n: Peer, id: KeyID)
    requires NetInv(cs, net) && Has(net, n, id)
    ensures Rec(net, n, id).voidPending !! Rec(net, n, id).voidRequests
  {
    RecordFacts(cs, net, n, id);
    hide NetInv;
  }

  /** Once every neighbour a void waits for has confirmed, or asked for it itself, nobody is waited for, and everyone
      who asked is owed the verdict or has committed it: that the key could not be voided any more, that it was
      never there, or that it is gone. */
  lemma VoidCompletes(cs: Policies, run: seq<Label>, n: Peer, id: KeyID, i: nat, j: nat)
    requires ValidPolicies(cs) && i <= j <= |run| && Has(At(cs, run, i), n, id) && Rec(At(cs, run, i), n, id).voiding
    requires var a := Rec(At(cs, run, i), n, id).pair; Pair(a.master, [a.slave]).Ok?
    requires forall p :: p in Rec(At(cs, run, i), n, id).voidPending ==> HasConfirmed(cs, run, n, id, p, i, j)
    ensures Has(At(cs, run, j), n, id)
    ensures var net := At(cs, run, j);
      var r := Rec(net, n, id);
      && r.voiding && r.voidPending == {}
      && forall q :: q in r.voidRequests ==>
           IsTold(net, n, id, q, if r.voidFailed then FailedToVoid else if r.unknown then NotPresent else Voided)
  {
    hide NetInv, Run, At, ValidPolicies, Pair, ConfirmedAt, IsTold;
    VoidingLater(cs, run, n, id, i, j);
    var net := At(cs, run, j);
    var r := Rec(net, n, id);
    AskedIsNotPending(cs, net, n, id);
    forall p | p in r.voidPending ensures false {
      var x :| i <= x < j && ConfirmedAt(cs, run, n, id, p, x);
      ConfirmedOnce(cs, run, n, id, p, i, j, x);
    }
    assert r.voidPending == {};
    forall q | q in r.voidRequests
      ensures IsTold(net, n, id, q, if r.voidFailed then FailedToVoid else if r.unknown then NotPresent else Voided) {
      FinishedIsTold(cs, run, n, id, j, q);
    }
  }

  lemma FinishedIsTold(cs: Policies, run: seq<Label>, n: Peer, id: KeyID, j: nat, q: Peer)
    requires ValidPolicies(cs) && j <= |run| && Has(At(cs, run, j), n, id)
    requires var r := Rec(At(cs, run, j), n, id); r.voiding && r.voidPending == {} && q in r.voidRequests
    ensures var net := At(cs, run, j);
      var r := Rec(net, n, id);
      IsTold(net, n, id, q, if r.voidFailed then FailedToVoid else if r.unknown then NotPresent else Voided)
  {
    hide NetInv, Run, ValidPolicies;
    var net := At(cs, run, j);
    OutboxComplete(cs, run[..j], n, id, q);
    RunKeeps(cs, run[..j]);
    KnownNode(cs, net, n);
    NodeOf(cs, net, n);
    var st := CurrentStatus(Rec(net, n, id));
    if Owed(Disk(net, n).acks, q, id, st) { OwedNotice(cs[n], Disk(net, n), id, q, st); }
    hide Inv, Owed;
  }
}
