/** What holds of every run of every network of relay nodes. */
module RelayTheorems {
  import opened Core
  import opened Uuid
  import opened Peering
  import opened RelayState
  import opened RelayInvariant
  import opened RelayNetwork
  import opened RelayTrace
  import opened RelayMoves
  import opened RelayRuns

  lemma RecordFacts(cs: Policies, net: Net, n: Peer, id: KeyID)
    requires NetInv(cs, net) && Has(net, n, id)
    ensures n in cs && RecInv(cs[n], id, Rec(net, n, id)) && RecGood(net, n, id)
  {
    NodeOf(cs, net, n);
    assert RecGood(net, n, id);
  }

  // End-to-end agreement.

  predicate Stores(l: Label, id: KeyID, o: Origin) {
    l.Store? && l.key.id == id && o == Origin(l.n, l.key.pair, l.key.material)
  }

  /** What a run recorded as stored is a key that some `Store` step offered. */
  lemma {:induction false} OriginIsStored(cs: Policies, labels: seq<Label>, id: KeyID)
    requires id in Run(cs, labels).origin
    ensures exists i :: 0 <= i < |labels| && Stores(labels[i], id, Run(cs, labels).origin[id])
  {
    var before, l := labels[..|labels| - 1], labels[|labels| - 1];
    if id in Run(cs, before).origin && Run(cs, before).origin[id] == Run(cs, labels).origin[id] {
      OriginIsStored(cs, before, id);
      var i :| 0 <= i < |before| && Stores(before[i], id, Run(cs, before).origin[id]);
      assert labels[i] == before[i];
    } else {
      OriginStep(cs, Run(cs, before), l, id);
    }
  }

  lemma OriginStep(cs: Policies, net: Net, l: Label, id: KeyID)
    requires id in Apply(cs, net, l).origin && !(id in net.origin && net.origin[id] == Apply(cs, net, l).origin[id])
    ensures Stores(l, id, Apply(cs, net, l).origin[id])
  {
  }

  /** A ready source record means some target accepted the key, for the same pair and with the bytes stored. */
  lemma EndToEndAgreement(cs: Policies, labels: seq<Label>, n: Peer, id: KeyID)
    requires ValidPolicies(cs) && Has(Run(cs, labels), n, id)
    requires Rec(Run(cs, labels), n, id).role == Source && Rec(Run(cs, labels), n, id).ready
    ensures var net := Run(cs, labels);
      && id in net.origin && net.origin[id].node == n
      && exists t :: Has(net, t, id) && Rec(net, t, id).role == Target && Rec(net, t, id).pair == Rec(net, n, id).pair
           && Rec(net, t, id).digest.Some? && Rec(net, t, id).digest.value.key.value == net.origin[id].bytes
  {
    var net := Run(cs, labels);
    RunKeeps(cs, labels);
    RecordFacts(cs, net, n, id);
    var t :| Has(net, t, id) && Rec(net, t, id).role == Target && !Rec(net, t, id).unknown;
    RecordFacts(cs, net, t, id);
  }

  /** Every release of a key, wherever it happens, hands out the bytes that were stored. */
  lemma DeliveredBytesAgree(cs: Policies, labels: seq<Label>, i: nat, j: nat)
    requires ValidPolicies(cs)
    requires var log := Run(cs, labels).log; i < |log| && j < |log| && log[i].id == log[j].id
    ensures var net := Run(cs, labels);
      net.log[i].bytes == net.log[j].bytes && net.log[i].id in net.origin
        && net.log[i].bytes == net.origin[net.log[i].id].bytes
  {
    RunKeeps(cs, labels);
    LogOf(cs, Run(cs, labels));
    assert ReleaseGood(Run(cs, labels), i) && ReleaseGood(Run(cs, labels), j);
  }

  // Single delivery.

  lemma ConsumeReleases(net: Net, n: Peer, role: Role, r: Result<(State, seq<Delivery>)>, ids: seq<KeyID>, now: Time,
        f: Fault, i: nat)
    requires n in net.nodes && |net.log| <= i < |Consume(net, n, role, r, now, f).log|
    requires !net.nodes[n].store.broken && r.Ok? ==>
      |r.value.1| == |ids| && forall k :: 0 <= k < |ids| ==>
        r.value.1[k].id == ids[k] && Has(net, n, ids[k]) && Usable(Rec(net, n, ids[k]), now)
    ensures var e := Consume(net, n, role, r, now, f).log[i];
      Has(net, e.node, e.id) && Usable(Rec(net, e.node, e.id), e.at)
  {
  }

  lemma ReservedReleases(net: Net, n: Peer, a: Association, token: Option<nat>, now: Time, f: Fault, i: nat)
    requires n in net.nodes && (!net.nodes[n].store.broken ==> net.nodes[n].store.live == Disk(net, n))
    requires var net' := Consume(net, n, Source, ConsumeReservation(net.nodes[n].store.live, a, token, now), now, f);
      |net.log| <= i < |net'.log|
    ensures var e := Consume(net, n, Source, ConsumeReservation(net.nodes[n].store.live, a, token, now), now, f).log[i];
      Has(net, e.node, e.id) && Usable(Rec(net, e.node, e.id), e.at)
  {
    var s := net.nodes[n].store.live;
    var r := ConsumeReservation(s, a, token, now);
    var ids := [];
    if r.Ok? {
      CollectedExist(Working(s), a, token.value, 0, now);
      ids := Collect(Working(s), a, token.value, 0, now).value;
      forall k | 0 <= k < |ids| ensures r.value.1[k].id == ids[k] && ids[k] in s.keys && Usable(s.keys[ids[k]], now) {
        assert Held(Working(s), a, token.value, ids[k], now);
      }
    }
    ConsumeReleases(net, n, Source, r, ids, now, f, i);
  }

  lemma PeerReleases(c: Policy, net: Net, n: Peer, a: Association, ids: seq<KeyID>, now: Time, f: Fault, i: nat)
    requires n in net.nodes && (!net.nodes[n].store.broken ==> net.nodes[n].store.live == Disk(net, n))
    requires var net' := Consume(net, n, Target, ConsumePeer(c, net.nodes[n].store.live, a, ids, now), now, f);
      |net.log| <= i < |net'.log|
    ensures var e := Consume(net, n, Target, ConsumePeer(c, net.nodes[n].store.live, a, ids, now), now, f).log[i];
      Has(net, e.node, e.id) && Usable(Rec(net, e.node, e.id), e.at)
  {
    var s := net.nodes[n].store.live;
    PeerChecked(Working(s), a, ids, 0, now);
    ConsumeReleases(net, n, Target, ConsumePeer(c, s, a, ids, now), ids, now, f, i);
  }

  /** A step releases only keys usable just before, at the node it happens on. */
  lemma StepReleases(cs: Policies, net: Net, l: Label, i: nat)
    requires NetInv(cs, net) && |net.log| <= i < |Apply(cs, net, l).log|
    ensures var e := Apply(cs, net, l).log[i]; Has(net, e.node, e.id) && Usable(Rec(net, e.node, e.id), e.at)
  {
    hide NetInv, NodeGood, WorkerGood, Usable, Has, Consume;
    QuietLog(cs, net, l);
    NodeOf(cs, net, l.n);
    match l
    case ConsumeReserved(n, a, token, now, f) => ReservedReleases(net, n, a, token, now, f, i);
    case ConsumePeerKeys(n, a, ids, now, f) => PeerReleases(cs[n], net, n, a, ids, now, f, i);
  }

  lemma QuietLog(cs: Policies, net: Net, l: Label)
    ensures Apply(cs, net, l).log != net.log ==>
      (l.ConsumeReserved? || l.ConsumePeerKeys?) && l.n in cs && l.n in net.nodes
  {
  }

  /** A record that is being voided or was delivered stays so, whatever arrives, crashes or reopens. */
  lemma NeverRevived(cs: Policies, labels: seq<Label>, more: seq<Label>, n: Peer, id: KeyID)
    requires ValidPolicies(cs) && Has(Run(cs, labels), n, id)
    requires Rec(Run(cs, labels), n, id).voiding || Rec(Run(cs, labels), n, id).delivered
    ensures Has(Run(cs, labels + more), n, id)
    ensures forall now :: !Usable(Rec(Run(cs, labels + more), n, id), now)
  {
    RunGrows(cs, labels, more);
    assert Later(Rec(Run(cs, labels), n, id), Rec(Run(cs, labels + more), n, id));
  }

  lemma LogExtends(net: Net, net': Net)
    requires Grows(net, net')
    ensures net.log <= net'.log
  {
  }

  /** Nothing is released for a record once it is being voided or was delivered. */
  lemma {:induction false} NoReleaseAfter(cs: Policies, labels: seq<Label>, more: seq<Label>, n: Peer, id: KeyID,
        i: nat)
    requires ValidPolicies(cs) && Has(Run(cs, labels), n, id)
    requires Rec(Run(cs, labels), n, id).voiding || Rec(Run(cs, labels), n, id).delivered
    requires |Run(cs, labels).log| <= i < |Run(cs, labels + more).log|
    ensures var e := Run(cs, labels + more).log[i]; e.node != n || e.id != id
  {
    hide NetInv, Grows, Apply, Usable;
    assert more == [] ==> labels + more == labels;
    if more != [] {
      var m, l := more[..|more| - 1], more[|more| - 1];
      var all := labels + more;
      assert all[..|all| - 1] == labels + m && all[|all| - 1] == l;
      var net := Run(cs, labels + m);
      RunKeeps(cs, labels + m);
      StepKeeps(cs, net, l);
      LogExtends(net, Apply(cs, net, l));
      if i < |net.log| {
        NoReleaseAfter(cs, labels, m, n, id, i);
      } else {
        StepReleases(cs, net, l, i);
        NeverRevived(cs, labels, m, n, id);
        assert !Usable(Rec(net, n, id), Apply(cs, net, l).log[i].at);
      }
    }
  }

  /** Each node releases a key at most once over a whole run, only as source or target and before it expires. */
  lemma SingleDelivery(cs: Policies, labels: seq<Label>)
    requires ValidPolicies(cs)
    ensures var log := Run(cs, labels).log; forall i, j :: 0 <= i < j < |log| ==>
      log[i].node != log[j].node || log[i].id != log[j].id
    ensures var net := Run(cs, labels); forall i :: 0 <= i < |net.log| ==> OnceAsEndpoint(net, net.log[i])
  {
    RunKeeps(cs, labels);
    LogOf(cs, Run(cs, labels));
    var net := Run(cs, labels);
    forall i | 0 <= i < |net.log| ensures OnceAsEndpoint(net, net.log[i]) { assert ReleaseGood(net, i); }
  }

  /** The journal shows the release; the releasing node is an end of the route, and the key was alive. */
  ghost predicate OnceAsEndpoint(net: Net, e: Release) {
    && Has(net, e.node, e.id)
    && var r := Rec(net, e.node, e.id);
       r.delivered && r.material == [] && r.role == e.role && (e.role == Source || e.role == Target) && e.at < r.expires
  }

  // Pinning.

  /** All transfers of a key by a node go to the one journaled peer, chosen from its candidates, never its
      sender, and carry the original bytes even when the worker's copy is stale. */
  lemma Pinned(cs: Policies, labels: seq<Label>, m: Msg)
    requires ValidPolicies(cs) && m in Run(cs, labels).sent && m.TransferMsg?
    ensures var net := Run(cs, labels);
      && |m.transfer.keys| == 1
      && var k := m.transfer.keys[0];
         && Has(net, m.from, k.id)
         && var r := Rec(net, m.from, k.id);
            && r.sent && r.next == m.to && m.to in r.candidates && m.to != r.sender
            && m.from in cs && m.to in cs[m.from].Route(r.pair.slave)
            && k.id in net.origin && k.value == net.origin[k.id].bytes
  {
    var net := Run(cs, labels);
    RunKeeps(cs, labels);
    assert MsgGood(net, m);
    RecordFacts(cs, net, m.from, m.transfer.keys[0].id);
  }

  /** Two transfers of one node with a key in common go to the same peer. */
  lemma OnePeerPerKey(cs: Policies, labels: seq<Label>, m1: Msg, m2: Msg, i: nat, j: nat)
    requires ValidPolicies(cs) && m1 in Run(cs, labels).sent && m2 in Run(cs, labels).sent
    requires m1.TransferMsg? && m2.TransferMsg? && m1.from == m2.from
    requires i < |m1.transfer.keys| && j < |m2.transfer.keys| && m1.transfer.keys[i].id == m2.transfer.keys[j].id
    ensures m1.to == m2.to
  {
    hide Run, ValidPolicies, Policy.Route;
    Pinned(cs, labels, m1);
    Pinned(cs, labels, m2);
  }

  // Void soundness.

  /** The node asked to void the key is the one it was sent to: the void moved upstream here. */
  ghost predicate AskedByNext(net: Net, n: Peer, id: KeyID) {
    Has(net, n, id) && Rec(net, n, id).sent && Rec(net, n, id).next in Rec(net, n, id).voidRequests
  }

  /** The node owes or has sent somebody the result that the key is gone. */
  ghost predicate SaysGone(net: Net, n: Peer, id: KeyID) {
    || (n in net.nodes
        && exists j :: j in Disk(net, n).acks && Gone(Disk(net, n).acks[j].ack.status)
             && id in Disk(net, n).acks[j].ack.ids)
    || Said(net, n, id)
  }

  lemma MsgOf(cs: Policies, net: Net, m: Msg)
    requires NetInv(cs, net) && m in net.sent
    ensures MsgGood(net, m)
  {
  }

  lemma SaysGoneClaims(cs: Policies, net: Net, n: Peer, id: KeyID)
    requires NetInv(cs, net) && SaysGone(net, n, id)
    ensures Claim(net, n, id)
  {
    hide NetInv, Claim;
    if Said(net, n, id) {
      var m :| m in net.sent && m.AckMsg? && m.from == n && Gone(m.ack.status) && id in m.ack.ids;
      MsgOf(cs, net, m);
    } else {
      var j :| j in Disk(net, n).acks && Gone(Disk(net, n).acks[j].ack.status) && id in Disk(net, n).acks[j].ack.ids;
      KnownNode(cs, net, n);
      PendingGood(cs, net, n, j);
    }
  }

  lemma KnownNode(cs: Policies, net: Net, n: Peer)
    requires NetInv(cs, net)
    ensures n in net.nodes <==> n in cs
  {
  }

  /** From a node that says the key is gone, the claim holds at every later node of the path, as long as
      no node in between was asked by its next hop. */
  lemma {:induction false} ClaimTravels(cs: Policies, net: Net, id: KeyID, i: nat, j: nat)
    requires NetInv(cs, net) && id in net.path && i <= j < |net.path[id]|
    requires Claim(net, net.path[id][i], id)
    requires forall k :: i <= k < j ==> !AskedByNext(net, net.path[id][k], id)
    ensures Claim(net, net.path[id][j], id)
    decreases j - i
  {
    hide NetInv;
    if i < j {
      HopOf(cs, net, id, i);
      ClaimNext(cs, net, net.path[id][i], id);
      ClaimTravels(cs, net, id, i + 1, j);
    }
  }

  lemma HopOf(cs: Policies, net: Net, id: KeyID, i: nat)
    requires NetInv(cs, net) && id in net.path && i < |net.path[id]|
    ensures Hop(net, id, i)
  {
  }

  lemma ClaimNext(cs: Policies, net: Net, n: Peer, id: KeyID)
    requires NetInv(cs, net) && Claim(net, n, id) && Rec(net, n, id).sent && !AskedByNext(net, n, id)
    ensures Claim(net, Rec(net, n, id).next, id)
  {
    hide NetInv;
    SaysGoneClaims(cs, net, Rec(net, n, id).next, id);
  }

  /** A target ends the path: nodes on a key's path other than the last have forwarded it. */
  lemma TargetIsLast(cs: Policies, net: Net, id: KeyID, j: nat)
    requires NetInv(cs, net) && id in net.path && j < |net.path[id]|
    requires Has(net, net.path[id][j], id) && Rec(net, net.path[id][j], id).role == Target
    ensures j == |net.path[id]| - 1
  {
    assert Hop(net, id, j);
    RecordFacts(cs, net, net.path[id][j], id);
  }

  lemma NodeOnPath(net: Net, n: Peer, id: KeyID) returns (i: nat)
    requires PathsGood(net) && Has(net, n, id)
    ensures id in net.path && i < |net.path[id]| && net.path[id][i] == n
  {
    i :| 0 <= i < |net.path[id]| && net.path[id][i] == n;
  }

  /** Where the claim holds at the end of the path, the path stays as it is. */
  lemma ClaimEndsPath(cs: Policies, net: Net, net': Net, id: KeyID)
    requires NetInv(cs, net) && NetInv(cs, net') && Grows(net, net') && id in net.path && net.path[id] != []
    requires var z := net.path[id][|net.path[id]| - 1]; Claim(net, z, id) && !AskedByNext(net, z, id)
    ensures id in net'.path && net'.path[id] == net.path[id]
  {
    hide NetInv;
    var path, path' := net.path[id], net'.path[id];
    if |path'| > |path| {
      var z := path[|path| - 1];
      HopOf(cs, net', id, |path| - 1);
      PathsOf(cs, net');
      assert Later(Rec(net, z, id), Rec(net', z, id));
      PathsOf(cs, net);
      NotYetThere(net, net', id);
      ClaimNext(cs, net, z, id);
    }
  }

  /** A node the path reaches later does not have the key yet. */
  lemma NotYetThere(net: Net, net': Net, id: KeyID)
    requires PathsGood(net) && PathsGood(net') && id in net.path && id in net'.path
    requires net.path[id] <= net'.path[id] && |net.path[id]| < |net'.path[id]|
    ensures !Has(net, net'.path[id][|net.path[id]|], id)
  {
    var path, path' := net.path[id], net'.path[id];
    forall i | 0 <= i < |path| ensures path[i] != path'[|path|] { assert path'[i] == path[i]; }
    assert path'[|path|] !in path;
  }

  lemma TargetEndsPath(cs: Policies, net: Net, id: KeyID, t: Peer)
    requires NetInv(cs, net) && Has(net, t, id) && Rec(net, t, id).role == Target
    ensures id in net.path && net.path[id] != [] && net.path[id][|net.path[id]| - 1] == t
  {
    PathsOf(cs, net);
    var i := NodeOnPath(net, t, id);
    TargetIsLast(cs, net, id, i);
  }

  /** Once the i-th node of a key's path owes or has sent "voided" or "key not present", no target has delivered
      the key, nor will one however the run goes on, provided none of the nodes that the key visited from there
      on has at this moment been asked to void it by its own next hop. */
  lemma VoidSoundness(cs: Policies, labels: seq<Label>, more: seq<Label>, id: KeyID, i: nat)
    requires ValidPolicies(cs) && id in Run(cs, labels).path && i < |Run(cs, labels).path[id]|
    requires SaysGone(Run(cs, labels), Run(cs, labels).path[id][i], id)
    requires forall k :: i <= k < |Run(cs, labels).path[id]| ==>
      !AskedByNext(Run(cs, labels), Run(cs, labels).path[id][k], id)
    ensures var net := Run(cs, labels + more);
      && (forall t :: Has(net, t, id) && Rec(net, t, id).role == Target ==> !Rec(net, t, id).delivered)
      && (forall k :: 0 <= k < |net.log| && net.log[k].id == id ==> net.log[k].role != Target)
  {
    hide NetInv, Grows, Claim, Run, AskedByNext;
    var net, net' := Run(cs, labels), Run(cs, labels + more);
    RunKeeps(cs, labels);
    RunKeeps(cs, labels + more);
    RunGrows(cs, labels, more);
    var last := |net.path[id]| - 1;
    SaysGoneClaims(cs, net, net.path[id][i], id);
    ClaimTravels(cs, net, id, i, last);
    ClaimEndsPath(cs, net, net', id);
    ClaimGrows(net, net', net.path[id][last], id);
    forall t | Has(net', t, id) && Rec(net', t, id).role == Target ensures !Rec(net', t, id).delivered {
      TargetEndsPath(cs, net', id, t);
      ClaimUndelivered(net', t, id);
    }
    LogOf(cs, net');
    forall k | 0 <= k < |net'.log| && net'.log[k].id == id ensures net'.log[k].role != Target {
      assert ReleaseGood(net', k);
    }
  }

  lemma ClaimUndelivered(net: Net, n: Peer, id: KeyID)
    requires Claim(net, n, id)
    ensures Has(net, n, id) && !Rec(net, n, id).delivered
  {
  }

  lemma PathsOf(cs: Policies, net: Net)
    requires NetInv(cs, net)
    ensures PathsGood(net)
  {
  }

  // The outbox.

  /** Every pending result carries its record's current status, goes to a peer the record owes it to, and is
      the only one about that key to that peer. */
  lemma OutboxCurrent(cs: Policies, labels: seq<Label>, n: Peer, j: JobID)
    requires ValidPolicies(cs) && n in cs && n in Run(cs, labels).nodes && j in Disk(Run(cs, labels), n).acks
    requires Disk(Run(cs, labels), n).acks[j].ack.ids != []
    ensures CurrentResult(Disk(Run(cs, labels), n), j)
  {
    RunKeeps(cs, labels);
    NodeOf(cs, Run(cs, labels), n);
    ResultsCurrent(cs[n], Disk(Run(cs, labels), n), j);
  }

  lemma ResultsCurrent(c: Policy, d: State, j: JobID)
    requires Inv(c, d) && j in d.acks && d.acks[j].ack.ids != []
    ensures CurrentResult(d, j)
  {
    assert JobInv(c, d, j);
    forall i | i in d.acks && d.acks[i].peer == d.acks[j].peer && d.acks[i].ack.ids == d.acks[j].ack.ids
      ensures i == j {
      assert JobInv(c, d, i);
      assert SameSubject(d.acks[i], d.acks[j]);
    }
  }

  predicate CurrentResult(d: State, j: JobID)
    requires j in d.acks
  {
    var job := d.acks[j];
    && |job.ack.ids| == 1 && job.ack.ids[0] in d.keys
    && job.peer in OwedPeers(d.keys[job.ack.ids[0]])
    && job.ack.status == CurrentStatus(d.keys[job.ack.ids[0]])
    && forall i :: i in d.acks && d.acks[i].peer == job.peer && d.acks[i].ack.ids == job.ack.ids ==> i == j
  }

  /** Every result owed, to the sender of a ready key or to a requester of a finished void, is pending or
      was committed by that peer. */
  lemma OutboxComplete(cs: Policies, labels: seq<Label>, n: Peer, id: KeyID, p: Peer)
    requires ValidPolicies(cs) && Has(Run(cs, labels), n, id)
    requires var r := Rec(Run(cs, labels), n, id);
      (r.ready && r.sender != "" && p == r.sender) || (r.voiding && r.voidPending == {} && p in r.voidRequests)
    ensures var st := CurrentStatus(Rec(Run(cs, labels), n, id));
      Owed(Disk(Run(cs, labels), n).acks, p, id, st) || Acked(Run(cs, labels), n, p, id, st)
  {
    var net := Run(cs, labels);
    RunKeeps(cs, labels);
    RecordFacts(cs, net, n, id);
    assert ResultGood(net, n, id, p);
  }

  // Material.

  /** At every node of every run: ends hold the stored bytes exactly until they deliver or void, intermediates
      exactly until they are acknowledged or void; otherwise nothing is held. */
  lemma MaterialConserved(cs: Policies, labels: seq<Label>, n: Peer, id: KeyID)
    requires ValidPolicies(cs) && Has(Run(cs, labels), n, id)
    ensures var net := Run(cs, labels);
      var r := Rec(net, n, id);
      && id in net.origin
      && (r.role == Relay ==> (r.material == net.origin[id].bytes <==> !r.voiding && !r.ready))
      && (r.role != Relay ==> (r.material == net.origin[id].bytes <==> !r.voiding && !r.delivered))
      && (r.material == net.origin[id].bytes || r.material == [])
  {
    var net := Run(cs, labels);
    RunKeeps(cs, labels);
    RecordFacts(cs, net, n, id);
    OriginSized(cs, labels, id);
  }

  lemma OriginNew(cs: Policies, net: Net, l: Label, id: KeyID)
    requires id in Apply(cs, net, l).origin && !(id in net.origin && net.origin[id] == Apply(cs, net, l).origin[id])
    ensures |Apply(cs, net, l).origin[id].bytes| == KEY_BYTES && ValidID(id)
  {
    OriginStep(cs, net, l, id);
  }

  /** Stored keys are well named and have 256 bits. */
  lemma {:induction false} OriginSized(cs: Policies, labels: seq<Label>, id: KeyID)
    requires id in Run(cs, labels).origin
    ensures |Run(cs, labels).origin[id].bytes| == KEY_BYTES && ValidID(id)
  {
    var before := labels[..|labels| - 1];
    if id in Run(cs, before).origin && Run(cs, before).origin[id] == Run(cs, labels).origin[id] {
      OriginSized(cs, before, id);
    } else {
      OriginNew(cs, Run(cs, before), labels[|labels| - 1], id);
    }
  }

  // Atomicity.

  /** The handler behind a label refuses. */
  predicate Refused(cs: Policies, net: Net, l: Label) {
    if l.Deliver? then
      l.m.to in net.nodes && l.m.to in cs && Handle(cs[l.m.to], net.nodes[l.m.to].store.live, l.m, l.now).Err?
    else if l.n !in net.nodes || l.n !in cs then false
    else
      var c, s := cs[l.n], net.nodes[l.n].store.live;
      match l
      case Store(_, k, now, _) => StoreOutcome(c, s, k, now).Err?
      case ReserveKeys(_, a, count, now, _) => Reserve(c, s, a, count, now).Err?
      case ConsumeReserved(_, a, token, now, _) => ConsumeReservation(s, a, token, now).Err?
      case ConsumePeerKeys(_, a, ids, now, _) => ConsumePeer(c, s, a, ids, now).Err?
      case InvalidateKey(_, id, _) => Invalidate(s, id).Err?
      case _ => false
  }

  lemma ServingIsSaved(cs: Policies, net: Net)
    requires NetInv(cs, net)
    ensures forall n :: n in net.nodes && !net.nodes[n].store.broken ==>
      net.nodes[n].store.live == net.nodes[n].store.disk
  {
    hide NetInv;
    forall n | n in net.nodes && !net.nodes[n].store.broken ensures net.nodes[n].store.live == net.nodes[n].store.disk {
      KnownNode(cs, net, n);
      LiveInv(cs, net, n);
    }
  }

  /** What the engine's methods prove of a refusal in the middle of a batch, that live state and journal stay as
      they were, carries over to networks: after a refused request the whole network is as before. Whoever still
      serves has a live state equal to its journal. */
  lemma RefusalLeavesNoTrace(cs: Policies, labels: seq<Label>, l: Label)
    requires ValidPolicies(cs) && Refused(cs, Run(cs, labels), l)
    ensures Run(cs, labels + [l]) == Run(cs, labels)
    ensures var net := Run(cs, labels); forall n :: n in net.nodes && !net.nodes[n].store.broken ==>
      net.nodes[n].store.live == net.nodes[n].store.disk
  {
    hide StoreOutcome, Handle, Reserve, ConsumeReservation, ConsumePeer, Invalidate, Apply, NetInv, Refused;
    var net := Run(cs, labels);
    assert (labels + [l])[..|labels|] == labels;
    assert Run(cs, labels + [l]) == Apply(cs, net, l);
    hide Run;
    RunKeeps(cs, labels);
    RefusedKeeps(cs, net, l);
    ServingIsSaved(cs, net);
  }

  lemma RefusedKeeps(cs: Policies, net: Net, l: Label)
    requires NetInv(cs, net) && Refused(cs, net, l)
    ensures Apply(cs, net, l) == net
  {
    hide StoreOutcome, Handle, Reserve, ConsumeReservation, ConsumePeer, Invalidate, Apply, NetInv;
    var n := if l.Deliver? then l.m.to else l.n;
    SamePath(net.path, n, net.nodes[n].store.disk);
    RefusedSame(cs, net, l, n);
  }

  lemma RefusedSame(cs: Policies, net: Net, l: Label, n: Peer)
    requires Refused(cs, net, l) && n == (if l.Deliver? then l.m.to else l.n) && n in net.nodes
    requires ExtendPath(net.path, n, net.nodes[n].store.disk, net.nodes[n].store.disk) == net.path
    ensures Apply(cs, net, l) == net
  {
    hide Handle, StoreOutcome, Reserve, ConsumeReservation, ConsumePeer, Invalidate, ExtendPath;
    assert net.nodes[n := net.nodes[n]] == net.nodes;
  }
}
