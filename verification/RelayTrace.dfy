/** What every reachable network satisfies, and why one node's move keeps it. */
module RelayTrace {
  import opened Core
  import opened Peering
  import opened Etsi020
  import opened RelayState
  import opened RelayInvariant
  import opened RelayNetwork

  ghost predicate Has(net: Net, n: Peer, id: KeyID) { n in net.nodes && id in net.nodes[n].store.disk.keys }

  /** The journaled record of a key at a node. */
  function Rec(net: Net, n: Peer, id: KeyID): Record
    requires Has(net, n, id)
  {
    net.nodes[n].store.disk.keys[id]
  }

  function Disk(net: Net, n: Peer): State
    requires n in net.nodes
  {
    net.nodes[n].store.disk
  }

  // Facts that, once true of a network, stay true.

  /** What never changes back in a record over a run. */
  ghost predicate Later(r: Record, r': Record) {
    && SameIdentity(r, r')
    && (r.delivered ==> r'.delivered)
    && (r.sent ==> r'.sent && r'.next == r.next)
    && (r.voiding ==> StillVoiding(r, r') && r'.sent == r.sent && r'.next == r.next)
    && (r.ready ==> r'.ready || r'.voiding)
    && TokenLater(r, r')
  }

  /** A reservation lasts until its key is delivered or voided, and is not made after that. */
  ghost predicate TokenLater(r: Record, r': Record) {
    && (r.token.Some? ==> r'.token == r.token || (r'.token == None && (r'.voiding || r'.delivered)))
    && (r.token == None && (r.voiding || r.delivered) ==> r'.token == None)
  }

  /** Tokens that appear are newer than everything committed before. */
  ghost predicate FreshTokens(d: State, d': State) {
    && d.serial <= d'.serial
    && forall id :: id in d'.keys && d'.keys[id].token.Some? ==>
         (id in d.keys && d'.keys[id].token == d.keys[id].token) || d'.keys[id].token.value > d.serial
  }

  ghost predicate Grows(net: Net, net': Net) {
    && net'.nodes.Keys == net.nodes.Keys
    && net.sent <= net'.sent && net.processed <= net'.processed
    && (forall id :: id in net.origin ==> id in net'.origin && net'.origin[id] == net.origin[id])
    && (forall n, id :: Has(net, n, id) ==> Has(net', n, id) && Later(Rec(net, n, id), Rec(net', n, id)))
    && (forall n :: n in net.nodes ==> FreshTokens(Disk(net, n), Disk(net', n)))
    && (forall id :: id in net.path ==> id in net'.path && net.path[id] <= net'.path[id])
    && net.log <= net'.log
  }

  /** Some target accepted the key. */
  ghost predicate Reached(net: Net, id: KeyID) {
    exists t :: Has(net, t, id) && Rec(net, t, id).role == Target && !Rec(net, t, id).unknown
  }

  ghost predicate Gone(st: Status) { st == Voided || st == NotPresent }

  /** The node has told somebody that the key is gone. */
  ghost predicate Said(net: Net, n: Peer, id: KeyID) {
    exists m :: m in net.sent && m.AckMsg? && m.from == n && Gone(m.ack.status) && id in m.ack.ids
  }

  /** The next hop confirmed: it said the key is gone, or it asked for the void itself. */
  ghost predicate DownstreamSettled(net: Net, r: Record, id: KeyID) {
    r.sent ==> r.next !in r.voidPending && (Said(net, r.next, id) || r.next in r.voidRequests)
  }

  /** What saying "gone" promises: not delivered here, and the next hop is settled. */
  ghost predicate Claim(net: Net, n: Peer, id: KeyID) {
    && Has(net, n, id)
    && var r := Rec(net, n, id); r.voiding && !r.delivered && DownstreamSettled(net, r, id)
  }

  // Records.

  /** The record is of the stored key, and only its source holds it as source. */
  ghost predicate Agrees(net: Net, n: Peer, id: KeyID)
    requires Has(net, n, id)
  {
    var r := Rec(net, n, id);
    && id in net.origin && r.pair == net.origin[id].pair
    && (!r.unknown ==> r.digest == Some(Digest(WireKey(id, net.origin[id].bytes, map[]), r.pair, map[])))
    && (r.role == Source ==> net.origin[id].node == n)
  }

  ghost predicate ReadyGood(net: Net, n: Peer, id: KeyID)
    requires Has(net, n, id)
  {
    Rec(net, n, id).ready ==> Reached(net, id)
  }

  ghost predicate VoidGood(net: Net, n: Peer, id: KeyID)
    requires Has(net, n, id)
  {
    var r := Rec(net, n, id);
    r.voiding && r.sent && r.next !in r.voidPending ==>
      r.voidFailed || Said(net, r.next, id) || r.next in r.voidRequests
  }

  ghost predicate RecGood(net: Net, n: Peer, id: KeyID)
    requires Has(net, n, id)
  {
    Agrees(net, n, id) && ReadyGood(net, n, id) && VoidGood(net, n, id)
  }

  // Messages and pending results.

  /** The record is one such a verdict was about: none of them becomes wrong later. */
  predicate Warranted(r: Record, st: Status) {
    && (st == FailedToVoid ==> r.voiding && r.voidFailed)
    && (st == NotPresent ==> r.voiding && r.unknown)
    && (st == Voided ==> r.voiding && !r.unknown)
  }

  ghost predicate AckGood(net: Net, n: Peer, ack: Ack) {
    && (ack.ids == [] ==> ack.status == NotPresent)
    && (ack.ids != [] ==>
          && |ack.ids| == 1 && Has(net, n, ack.ids[0]) && ack.status != Failed
          && ack.initiator == Rec(net, n, ack.ids[0]).pair.master && ack.targets == [Rec(net, n, ack.ids[0]).pair.slave]
          && Warranted(Rec(net, n, ack.ids[0]), ack.status)
          && (ack.status == Relayed ==> Reached(net, ack.ids[0]))
          && (Gone(ack.status) ==> Claim(net, n, ack.ids[0])))
  }

  ghost predicate TransferGood(net: Net, n: Peer, to: Peer, t: Transfer) {
    && |t.keys| == 1 && Has(net, n, t.keys[0].id)
    && var id := t.keys[0].id;
       var r := Rec(net, n, id);
       && id in net.origin && t.keys[0] == WireKey(id, net.origin[id].bytes, map[])
       && t.initiator == r.pair.master && t.targets == [r.pair.slave] && t.optional == map[]
       && r.sent && r.next == to && !r.unknown
  }

  ghost predicate VoidGoodMsg(net: Net, n: Peer, to: Peer, v: Void) {
    && |v.ids| == 1 && Has(net, n, v.ids[0])
    && var r := Rec(net, n, v.ids[0]);
       && v.initiator == r.pair.master && v.targets == [r.pair.slave]
       && r.voiding && to != "" && (to == r.sender || (r.sent && to == r.next))
  }

  ghost predicate MsgGood(net: Net, m: Msg) {
    match m
    case TransferMsg(n, to, t) => TransferGood(net, n, to, t)
    case AckMsg(n, _, ack) => AckGood(net, n, ack)
    case VoidMsg(n, to, v) => VoidGoodMsg(net, n, to, v)
  }

  // Nodes.

  /** The worker's stale copy still has the route and identity of the journaled record. */
  ghost predicate SnapshotOf(c: Policy, id: KeyID, was: Record, r: Record) {
    RecInv(c, id, was) && SameIdentity(was, r) && was.sent == r.sent && was.next == r.next
      && (was.voiding ==> r.voiding)
  }

  ghost predicate WorkerGood(c: Policy, net: Net, n: Peer)
    requires n in net.nodes
  {
    match net.nodes[n].worker
    case Idle => true
    case Picked(id, was) => Has(net, n, id) && SnapshotOf(c, id, was, Rec(net, n, id))
    case Posting(id, to, was) =>
      Has(net, n, id) && RecInv(c, id, was) && Holds(was) && SameIdentity(was, Rec(net, n, id))
        && Rec(net, n, id).sent && Rec(net, n, id).next == to
  }

  /** A result the process still has in mind, copied or not, says what the journal warrants. */
  ghost predicate JobGood(net: Net, n: Peer, j: JobID, job: Job)
    requires n in net.nodes
  {
    var d := Disk(net, n);
    && j.serial <= d.serial
    && AckGood(net, n, job.ack)
    && (j in d.acks ==> d.acks[j].peer == job.peer && d.acks[j].ack == job.ack)
  }

  ghost predicate JobsGood(net: Net, n: Peer, jobs: map<JobID, Job>)
    requires n in net.nodes
  {
    forall j :: j in jobs ==> JobGood(net, n, j, jobs[j])
  }

  ghost predicate NodeGood(c: Policy, net: Net, n: Peer)
    requires n in net.nodes
  {
    var store := net.nodes[n].store;
    && Inv(c, store.disk)
    && (if store.broken then Inv(c, store.live) && JobsGood(net, n, store.live.acks) else store.live == store.disk)
    && WorkerGood(c, net, n)
    && JobsGood(net, n, net.nodes[n].jobs)
  }

  // Paths.

  /** Position i of a key's path is a node that got it from position i - 1 and sent it to position i + 1. */
  ghost predicate Hop(net: Net, id: KeyID, i: nat)
    requires id in net.path && i < |net.path[id]|
  {
    var p := net.path[id];
    && Has(net, p[i], id)
    && var r := Rec(net, p[i], id);
       && (if i == 0 then r.role == Source else r.role != Source && r.sender == p[i - 1])
       && (i + 1 < |p| ==> r.sent && r.next == p[i + 1])
  }

  ghost predicate PathsGood(net: Net) {
    && (forall id :: id in net.path ==> id in net.origin && |net.path[id]| > 0 && Distinct(net.path[id]))
    && (forall id, i :: id in net.path && 0 <= i < |net.path[id]| ==> Hop(net, id, i))
    && (forall n, id :: Has(net, n, id) ==> id in net.path && n in net.path[id])
  }

  // Releases.

  ghost predicate ReleaseGood(net: Net, i: nat)
    requires i < |net.log|
  {
    var e := net.log[i];
    && Has(net, e.node, e.id)
    && var r := Rec(net, e.node, e.id);
       && r.delivered && r.role == e.role && e.role != Relay && !r.unknown
       && Genuine(net, e) && e.at < r.expires
  }

  ghost predicate Genuine(net: Net, e: Release) { e.id in net.origin && e.bytes == net.origin[e.id].bytes }

  ghost predicate LogGood(net: Net) {
    && (forall i :: 0 <= i < |net.log| ==> ReleaseGood(net, i))
    && (forall i, j :: 0 <= i < j < |net.log| ==> net.log[i].node != net.log[j].node || net.log[i].id != net.log[j].id)
  }

  // Results owed.

  /** The peer committed this result. */
  ghost predicate Acked(net: Net, n: Peer, p: Peer, id: KeyID, st: Status) {
    exists m :: m in net.processed && m.AckMsg? && m.from == n && m.to == p && m.ack.status == st && id in m.ack.ids
  }

  ghost predicate ResultGood(net: Net, n: Peer, id: KeyID, p: Peer)
    requires Has(net, n, id)
  {
    var st := CurrentStatus(Rec(net, n, id));
    Owed(Disk(net, n).acks, p, id, st) || Acked(net, n, p, id, st)
  }

  ghost predicate OutboxGood(net: Net) {
    forall n, id, p :: Has(net, n, id) && p in OwedPeers(Rec(net, n, id)) ==> ResultGood(net, n, id, p)
  }

  ghost predicate RecsGood(net: Net) { forall n, id :: Has(net, n, id) ==> RecGood(net, n, id) }

  ghost predicate MsgsGood(net: Net) { forall m :: m in net.sent ==> MsgGood(net, m) }

  ghost predicate NodesGood(cs: Policies, net: Net) {
    net.nodes.Keys == cs.Keys && forall n :: n in cs ==> NodeGood(cs[n], net, n)
  }

  ghost predicate NetInv(cs: Policies, net: Net) {
    && NodesGood(cs, net) && RecsGood(net) && MsgsGood(net) && PathsGood(net) && LogGood(net) && OutboxGood(net)
    && net.processed <= net.sent
  }

  // Growth keeps what was said and reached.

  lemma LaterRefl(r: Record)
    ensures Later(r, r)
  {
  }

  lemma LaterTrans(a: Record, b: Record, d: Record)
    requires Later(a, b) && Later(b, d)
    ensures Later(a, d)
  {
  }

  lemma StepIsLater(inp: Input, id: KeyID, r: Record, r': Record)
    requires RecStep(inp, id, r, r')
    ensures Later(r, r')
  {
  }

  lemma GrowsTrans(a: Net, b: Net, d: Net)
    requires Grows(a, b) && Grows(b, d)
    ensures Grows(a, d)
  {
    forall n, id | Has(a, n, id) ensures Has(d, n, id) && Later(Rec(a, n, id), Rec(d, n, id)) {
      LaterTrans(Rec(a, n, id), Rec(b, n, id), Rec(d, n, id));
    }
    forall n | n in a.nodes ensures FreshTokens(Disk(a, n), Disk(d, n)) {
      assert FreshTokens(Disk(a, n), Disk(b, n)) && FreshTokens(Disk(b, n), Disk(d, n));
    }
  }

  lemma ReachedGrows(net: Net, net': Net, id: KeyID)
    requires Grows(net, net') && Reached(net, id)
    ensures Reached(net', id)
  {
    var t :| Has(net, t, id) && Rec(net, t, id).role == Target && !Rec(net, t, id).unknown;
    assert Has(net', t, id);
  }

  lemma SaidGrows(net: Net, net': Net, n: Peer, id: KeyID)
    requires net.sent <= net'.sent && Said(net, n, id)
    ensures Said(net', n, id)
  {
    var m :| m in net.sent && m.AckMsg? && m.from == n && Gone(m.ack.status) && id in m.ack.ids;
    assert m in net'.sent;
  }

  lemma ClaimGrows(net: Net, net': Net, n: Peer, id: KeyID)
    requires Grows(net, net') && Claim(net, n, id)
    ensures Claim(net', n, id)
  {
    var r := Rec(net, n, id);
    assert Later(r, Rec(net', n, id));
    if Said(net, r.next, id) { SaidGrows(net, net', r.next, id); }
  }

  lemma AckGrows(net: Net, net': Net, n: Peer, ack: Ack)
    requires Grows(net, net') && AckGood(net, n, ack)
    ensures AckGood(net', n, ack)
  {
    if ack.ids != [] {
      if ack.status == Relayed { ReachedGrows(net, net', ack.ids[0]); }
      if Gone(ack.status) { ClaimGrows(net, net', n, ack.ids[0]); }
    }
  }

  lemma MsgGrows(net: Net, net': Net, m: Msg)
    requires Grows(net, net') && MsgGood(net, m)
    ensures MsgGood(net', m)
  {
    match m
    case AckMsg(n, _, ack) => AckGrows(net, net', n, ack);
    case TransferMsg(n, _, t) => assert Later(Rec(net, n, t.keys[0].id), Rec(net', n, t.keys[0].id));
    case VoidMsg(n, _, v) => assert Later(Rec(net, n, v.ids[0]), Rec(net', n, v.ids[0]));
  }

  lemma AckedGrows(net: Net, net': Net, n: Peer, p: Peer, id: KeyID, st: Status)
    requires net.processed <= net'.processed && Acked(net, n, p, id, st)
    ensures Acked(net', n, p, id, st)
  {
    var m :| m in net.processed && m.AckMsg? && m.from == n && m.to == p && m.ack.status == st && id in m.ack.ids;
    assert m in net'.processed;
  }

  /** An unchanged record stays good as the network grows. */
  lemma RecGrows(net: Net, net': Net, n: Peer, id: KeyID)
    requires Grows(net, net') && Has(net, n, id) && RecGood(net, n, id)
    requires Has(net', n, id) && Rec(net', n, id) == Rec(net, n, id)
    ensures RecGood(net', n, id)
  {
    var r := Rec(net, n, id);
    if r.ready { ReachedGrows(net, net', id); }
    if Said(net, r.next, id) { SaidGrows(net, net', r.next, id); }
  }
}
