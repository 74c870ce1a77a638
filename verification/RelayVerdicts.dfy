/** What the nodes of a network tell each other about voided and expired keys, over whole runs: which verdict, to
    whom, and that it is given in the end. */
module RelayVerdicts {
  import opened Core
  import opened Peering
  import opened Etsi020
  import opened RelayState
  import opened RelayInvariant
  import opened RelayEffects
  import opened RelayAckEffects
  import opened RelayTransferEffects
  import opened RelayNetwork
  import opened RelayTrace
  import opened RelayMoves
  import opened RelayRuns
  import opened RelayTheorems

  // Which verdict.

  /** At every moment of every run, what a pending result says follows from the record's flags: "relayed" as long as
      the key is not being voided, then that it failed, that the key was never there, or that it is gone. */
  lemma PendingVerdicts(cs: Policies, labels: seq<Label>, n: Peer, j: JobID)
    requires ValidPolicies(cs) && n in cs && n in Run(cs, labels).nodes && j in Disk(Run(cs, labels), n).acks
    ensures var job := Disk(Run(cs, labels), n).acks[j];
      && (job.ack.ids == [] ==> job.ack.status == NotPresent)
      && (job.ack.ids != [] ==>
           && job.ack.ids[0] in Disk(Run(cs, labels), n).keys
           && var r := Disk(Run(cs, labels), n).keys[job.ack.ids[0]];
              && (job.ack.status == Relayed <==> !r.voiding)
              && (job.ack.status == FailedToVoid <==> r.voiding && r.voidFailed)
              && (job.ack.status == NotPresent <==> r.voiding && r.unknown && !r.voidFailed)
              && (job.ack.status == Voided <==> r.voiding && !r.unknown && !r.voidFailed))
  {
    RunKeeps(cs, labels);
    NodeOf(cs, Run(cs, labels), n);
    JobFacts(cs[n], Disk(Run(cs, labels), n), j);
    hide Inv, RecInv, Run;
  }

  /** Every result ever sent says one of the four things. It is about one key of which its sender has a record, one
      that failed to be voided, was never there, or is gone, as it says; or about none and then says that nothing
      matched. */
  lemma SentVerdicts(cs: Policies, labels: seq<Label>, m: Msg)
    requires ValidPolicies(cs) && m in Run(cs, labels).sent && m.AckMsg?
    ensures m.ack.status in {Relayed, FailedToVoid, NotPresent, Voided}
    ensures m.ack.ids == [] ==> m.ack.status == NotPresent
    ensures m.ack.ids != [] ==>
      && |m.ack.ids| == 1 && Has(Run(cs, labels), m.from, m.ack.ids[0])
      && var r := Rec(Run(cs, labels), m.from, m.ack.ids[0]);
         && (m.ack.status == FailedToVoid ==> r.voiding && r.voidFailed)
         && (m.ack.status == NotPresent ==> r.voiding && r.unknown)
         && (m.ack.status == Voided ==> r.voiding && !r.unknown)
  {
    hide NetInv, Run, ValidPolicies;
    RunKeeps(cs, labels);
    MsgOf(cs, Run(cs, labels), m);
  }

  // Expired keys.

  ghost predicate SaysRelayed(s: State, id: KeyID) {
    exists j :: j in s.acks && id in s.acks[j].ack.ids && s.acks[j].ack.status == Relayed
  }

  lemma AboutRelayed(s: State, id: KeyID)
    ensures SaysRelayed(s, id) <==> exists n :: n in About(s, id) && n.ack.status == Relayed
  {
    if SaysRelayed(s, id) {
      var j :| j in s.acks && id in s.acks[j].ack.ids && s.acks[j].ack.status == Relayed;
      assert Notice(s.acks[j].peer, s.acks[j].ack) in About(s, id);
    }
  }

  lemma AnsweredNotRelayed(id: KeyID, r: Record, about: set<Notice>)
    requires Answered(id, r, about)
    ensures forall n :: n in about ==> n.ack.status != Relayed
  {
  }

  /** Once a key's time has come, a transfer or a result about it, if accepted, finds it voided, and never leaves
      "relayed" owed for it: being late is as good as being void. */
  lemma ExpiredNeverRelayed(c: Policy, s: State, peer: Peer, id: KeyID, now: Time, t: Transfer, acks: seq<Ack>)
    requires c.Valid() && Inv(c, s) && id in s.keys && s.keys[id].expires <= now
    ensures Accept(c, s, peer, t, now).Ok? && id in KeyIDs(t.keys) ==>
      var s' := Accept(c, s, peer, t, now).value; id in s'.keys && s'.keys[id].voiding && !SaysRelayed(s', id)
    ensures Acknowledge(c, s, peer, acks, now).Ok? && id in AckIDs(acks) ==>
      var s' := Acknowledge(c, s, peer, acks, now).value; id in s'.keys && s'.keys[id].voiding && !SaysRelayed(s', id)
  {
    hide Inv, Policy.Valid, Accept, Acknowledge, SaysRelayed;
    if Accept(c, s, peer, t, now).Ok? && id in KeyIDs(t.keys) { LateTransfer(c, s, peer, id, now, t); }
    if Acknowledge(c, s, peer, acks, now).Ok? && id in AckIDs(acks) { LateResult(c, s, peer, id, now, acks); }
  }

  lemma LateTransfer(c: Policy, s: State, peer: Peer, id: KeyID, now: Time, t: Transfer)
    requires c.Valid() && Inv(c, s) && id in s.keys && s.keys[id].expires <= now
    requires Accept(c, s, peer, t, now).Ok? && id in KeyIDs(t.keys)
    ensures var s' := Accept(c, s, peer, t, now).value; id in s'.keys && s'.keys[id].voiding && !SaysRelayed(s', id)
  {
    hide Inv, Policy.Valid, Accept, Answered, TransferPair;
    AcceptEffect(c, s, peer, t, now);
    var s' := Accept(c, s, peer, t, now).value;
    var k :| 0 <= k < |t.keys| && KeyIDs(t.keys)[k] == id;
    assert ReceivedAt(c, s, s', peer, TransferPair(t).value, t, t.keys[k], now);
    AnsweredNotRelayed(id, s'.keys[id], About(s', id));
    AboutRelayed(s', id);
  }

  lemma {:induction false} GroupPosition(acks: seq<Ack>, id: KeyID) returns (m: nat, n: nat)
    requires id in AckIDs(acks)
    ensures m < |acks| && n < |acks[m].ids| && acks[m].ids[n] == id
  {
    if id in acks[0].ids {
      m := 0;
      n :| 0 <= n < |acks[0].ids| && acks[0].ids[n] == id;
    } else {
      var m1, n1 := GroupPosition(acks[1..], id);
      m, n := m1 + 1, n1;
    }
  }

  lemma LateResult(c: Policy, s: State, peer: Peer, id: KeyID, now: Time, acks: seq<Ack>)
    requires Inv(c, s) && id in s.keys && s.keys[id].expires <= now
    requires Acknowledge(c, s, peer, acks, now).Ok? && id in AckIDs(acks)
    ensures var s' := Acknowledge(c, s, peer, acks, now).value;
      id in s'.keys && s'.keys[id].voiding && !SaysRelayed(s', id)
  {
    if s.keys[id].voiding { VoidingSays(c, s, id); }
    hide Inv, Acknowledge, Reported, AckIDs, SaysRelayed, Untouched;
    AcknowledgeEffect(c, s, peer, acks, now);
    var s' := Acknowledge(c, s, peer, acks, now).value;
    var m, n := GroupPosition(acks, id);
    assert ReportedAt(s, s', peer, acks[m], acks[m].ids[n], now);
    LateReported(id, s.keys[id], s'.keys[id], About(s, id), About(s', id), peer, acks[m].status, now);
    AboutRelayed(s', id);
  }

  lemma LateReported(id: KeyID, r: Record, r': Record, about: set<Notice>, about': set<Notice>, peer: Peer, st: Status,
        now: Time)
    requires Reported(id, r, r', about, about', peer, st, now) && r.expires <= now
    requires r.voiding ==> forall n :: n in about ==> n.ack.status != Relayed
    ensures r'.voiding && forall n :: n in about' ==> n.ack.status != Relayed
  {
    hide Answered;
    if Answered(id, r', about') { AnsweredNotRelayed(id, r', about'); }
  }

  lemma VoidingSays(c: Policy, s: State, id: KeyID)
    requires Inv(c, s) && id in s.keys && s.keys[id].voiding
    ensures forall n :: n in About(s, id) ==> n.ack.status != Relayed
  {
    AboutOwing(c, s, id);
    hide Inv;
  }
}
