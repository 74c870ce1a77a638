/** Progress: when every probe, transfer and acknowledgement of a key goes through, two rounds of worker steps
    per hop make its source record ready, whatever else happens in the network in between. */
module RelayProgress {
  import opened Core
  import opened Uuid
  import opened Peering
  import opened Etsi020
  import opened RelayState
  import opened RelayInvariant
  import opened RelayNetwork
  import opened RelayTrace
  import opened RelayRuns
  import opened RelayTheorems
  import opened RelayWiring
  import opened RelayWork

  // A run and its moments.

  /** The network after the first i labels of a run. */
  function At(cs: Policies, run: seq<Label>, i: nat): Net
    requires i <= |run|
  {
    Run(cs, run[..i])
  }

  lemma AtNext(cs: Policies, run: seq<Label>, i: nat)
    requires i < |run|
    ensures At(cs, run, i + 1) == Apply(cs, At(cs, run, i), run[i])
  {
    hide Apply;
    assert run[..i + 1][..i] == run[..i];
  }

  lemma AtGrows(cs: Policies, run: seq<Label>, i: nat, j: nat)
    requires ValidPolicies(cs) && i <= j <= |run|
    ensures Good(cs, At(cs, run, i)) && Good(cs, At(cs, run, j)) && Grows(At(cs, run, i), At(cs, run, j))
  {
    hide Good, Grows, Run;
    GoodRun(cs, run[..i]);
    GoodRun(cs, run[..j]);
    RunGrows(cs, run[..i], run[i..j]);
    assert run[..i] + run[i..j] == run[..j];
  }

  // A worker step, spread over a run.

  ghost predicate Serves(net: Net, n: Peer) { n in net.nodes && !net.nodes[n].store.broken }

  /** Labels that take the copied outbox from node n's worker: another step's copy, or a crash. */
  predicate Recopies(l: Label, n: Peer) { (l.CopyOutbox? || l.Reopen?) && l.n == n }

  /** Labels that take the record at hand from node n's worker. */
  predicate Interrupts(l: Label, n: Peer) {
    (l.DeferKey? || l.CommitTo? || l.PostTransfer? || l.Drop? || l.Reopen?) && l.n == n
  }

  /** A result copied at c is due and posted at p while the worker still has it. */
  predicate PostedAt(run: seq<Label>, n: Peer, j: JobID, job: Job, c: nat, p: nat)
    requires c < p < |run|
  {
    && run[p].PostAck? && run[p].n == n && run[p].job == j && job.retry <= run[p].now
    && forall x :: c < x < p ==> !Recopies(run[x], n)
  }

  /** It is posted at p, and its receiver answers at d. */
  ghost predicate AnsweredAt(cs: Policies, run: seq<Label>, n: Peer, j: JobID, job: Job, c: nat, p: nat, d: nat)
    requires c < p < d < |run|
  {
    && PostedAt(run, n, j, job, c, p)
    && run[d].Deliver? && run[d].m == AckMsg(n, job.peer, job.ack) && run[d].f == Saves
    && Serves(At(cs, run, d), job.peer)
  }

  ghost predicate Answered(cs: Policies, run: seq<Label>, n: Peer, j: JobID, job: Job, c: nat, hi: nat)
    requires c < hi <= |run|
  {
    exists p, d :: c < p < d < hi && AnsweredAt(cs, run, n, j, job, c, p, d)
  }

  /** The record still has to be sent, for the first time or again. */
  predicate NeedsSend(r: Record) { !r.voiding && !r.ready && !r.delivered && r.role != Target }

  /** The record looked at is committed at m to a peer that answered the probe, or to the one it is pinned to,
      and its transfer is posted at o. */
  predicate TriedAt(run: seq<Label>, n: Peer, r: Record, k: nat, m: nat, o: nat)
    requires k < m < o < |run|
  {
    && run[m].CommitTo? && run[m].n == n && MaySend(r, run[m].to)
    && run[o] == PostTransfer(n)
    && forall x :: k < x < o && x != m ==> !Interrupts(run[x], n)
  }

  /** The commit is in time and saved, and the transfer's receiver, which knows the key or has room for it,
      answers at d. */
  ghost predicate PassedAt(cs: Policies, run: seq<Label>, n: Peer, id: KeyID, r: Record, k: nat, m: nat, o: nat, d: nat)
    requires k < m < o < d < |run| && n in cs
  {
    && TriedAt(run, n, r, k, m, o)
    && run[m].f == Saves && run[m].now < r.expires && Serves(At(cs, run, m), n)
    && run[d].Deliver? && run[d].m == TransferMsg(n, run[m].to, TransferOf(cs[n], id, run[m].to, r))
    && run[d].f == Saves && Serves(At(cs, run, d), run[m].to) && HasRoom(cs, At(cs, run, d), run[m].to, id)
  }

  /** Meanwhile the record has been acknowledged or voided. */
  ghost predicate Overtaken(cs: Policies, run: seq<Label>, n: Peer, id: KeyID, k: nat, hi: nat)
    requires k < hi <= |run|
  {
    exists x :: k < x <= hi && SettledAt(cs, run, n, id, x)
  }

  ghost predicate SettledAt(cs: Policies, run: seq<Label>, n: Peer, id: KeyID, x: nat)
    requires x <= |run|
  {
    && Serves(At(cs, run, x), n) && id in At(cs, run, x).nodes[n].store.live.keys
    && !NeedsSend(At(cs, run, x).nodes[n].store.live.keys[id])
  }

  ghost predicate Passed(cs: Policies, run: seq<Label>, n: Peer, id: KeyID, r: Record, k: nat, hi: nat)
    requires k < hi <= |run| && n in cs
  {
    exists m, o, d :: k < m < o < d < hi && PassedAt(cs, run, n, id, r, k, m, o, d)
  }

  ghost predicate HasRoom(cs: Policies, net: Net, n: Peer, id: KeyID) {
    n in cs && n in net.nodes
      && (id in net.nodes[n].store.live.keys || |net.nodes[n].store.live.keys| < cs[n].capacity)
  }

  /** The worker of node n, copying the outbox at c, has all results about the key answered. */
  ghost predicate AllReported(cs: Policies, run: seq<Label>, n: Peer, id: KeyID, c: nat, hi: nat)
    requires c < hi <= |run|
  {
    && run[c] == CopyOutbox(n) && Serves(At(cs, run, c), n)
    && forall j :: j in At(cs, run, c).nodes[n].store.live.acks ==>
         var job := At(cs, run, c).nodes[n].store.live.acks[j];
         KeyOf(job) == id ==> Answered(cs, run, n, j, job, c, hi)
  }

  /** When the worker of node n comes to the key at k, it need not be sent any more, or the worker looks at it,
      finds it due and passes it on, unless it is overtaken. */
  ghost predicate Visits(cs: Policies, run: seq<Label>, n: Peer, id: KeyID, k: nat, hi: nat)
    requires k <= hi <= |run| && n in cs
  {
    && Serves(At(cs, run, k), n) && id in At(cs, run, k).nodes[n].store.live.keys
    && var r := At(cs, run, k).nodes[n].store.live.keys[id];
       NeedsSend(r) ==>
         && k < hi && run[k].Pick? && run[k].n == n && run[k].id == id && r.retry <= run[k].now
         && At(cs, run, k).nodes[n].worker == Idle
         && (Passed(cs, run, n, id, r, k, hi) || Overtaken(cs, run, n, id, k, hi))
  }

  /** Between lo and hi node n takes a step, of which every call about the key goes through: it copies its
      outbox and the list of its keys, reports all results about the key, and then visits it. Labels of the
      same step about other keys, callbacks and other nodes' labels may stand anywhere in between. */
  ghost predicate Steps(cs: Policies, run: seq<Label>, n: Peer, id: KeyID, lo: nat, hi: nat)
    requires lo <= hi <= |run| && n in cs
  {
    exists c :: lo <= c < hi && AllReported(cs, run, n, id, c, hi) && VisitsAfter(cs, run, n, id, c, hi)
  }

  ghost predicate VisitsAfter(cs: Policies, run: seq<Label>, n: Peer, id: KeyID, c: nat, hi: nat)
    requires c < hi <= |run| && n in cs
  {
    Serves(At(cs, run, c), n) && id in At(cs, run, c).nodes[n].store.live.keys ==>
      exists k :: c < k <= hi && Visits(cs, run, n, id, k, hi)
  }

  /** Each of these nodes takes its step. */
  ghost predicate Round(cs: Policies, nodes: set<Peer>, run: seq<Label>, id: KeyID, lo: nat, hi: nat)
    requires lo <= hi <= |run| && nodes <= cs.Keys
  {
    forall n :: n in nodes ==> Steps(cs, run, n, id, lo, hi)
  }

  // What the worker holds stays with it.

  lemma JobsKept(cs: Policies, net: Net, l: Label, n: Peer)
    requires n in net.nodes && !Recopies(l, n)
    ensures n in Apply(cs, net, l).nodes && Apply(cs, net, l).nodes[n].jobs == net.nodes[n].jobs
  {
    hide StoreOutcome, Handle, Reserve, ConsumeReservation, ConsumePeer, Invalidate, Expire, CommitSend, Defer;
    hide AckSent, AckFailed, ExtendPath, Transact, TransferOf, VoidOf, MaySend;
  }

  lemma WorkerKept(cs: Policies, net: Net, l: Label, n: Peer)
    requires n in net.nodes && net.nodes[n].worker != Idle && !Interrupts(l, n)
    ensures n in Apply(cs, net, l).nodes && Apply(cs, net, l).nodes[n].worker == net.nodes[n].worker
  {
    hide StoreOutcome, Handle, Reserve, ConsumeReservation, ConsumePeer, Invalidate, Expire, CommitSend, Defer;
    hide AckSent, AckFailed, ExtendPath, Transact, TransferOf, VoidOf, MaySend;
  }

  lemma {:induction false} JobsStay(cs: Policies, run: seq<Label>, n: Peer, i: nat, j: nat)
    requires i <= j <= |run| && n in At(cs, run, i).nodes && forall x :: i <= x < j ==> !Recopies(run[x], n)
    ensures n in At(cs, run, j).nodes && At(cs, run, j).nodes[n].jobs == At(cs, run, i).nodes[n].jobs
    decreases j
  {
    hide Apply, Recopies, Run;
    if i < j {
      JobsStay(cs, run, n, i, j - 1);
      JobsKept(cs, At(cs, run, j - 1), run[j - 1], n);
      AtNext(cs, run, j - 1);
    }
  }

  lemma {:induction false} WorkerStays(cs: Policies, run: seq<Label>, n: Peer, i: nat, j: nat)
    requires i <= j <= |run| && n in At(cs, run, i).nodes && At(cs, run, i).nodes[n].worker != Idle
    requires forall x :: i <= x < j ==> !Interrupts(run[x], n)
    ensures n in At(cs, run, j).nodes && At(cs, run, j).nodes[n].worker == At(cs, run, i).nodes[n].worker
    decreases j
  {
    hide Apply, Interrupts, Run;
    if i < j {
      WorkerStays(cs, run, n, i, j - 1);
      WorkerKept(cs, At(cs, run, j - 1), run[j - 1], n);
      AtNext(cs, run, j - 1);
    }
  }

  lemma SentStays(net: Net, net': Net, m: Msg)
    requires Grows(net, net') && m in net.sent
    ensures m in net'.sent
  {
  }

  // The reporting half of a step.

  lemma CopyStep(cs: Policies, net: Net, n: Peer)
    requires n in cs && Serves(net, n)
    ensures var net' := Apply(cs, net, CopyOutbox(n));
      n in net'.nodes && net'.nodes[n].jobs == net.nodes[n].store.live.acks
  {
  }

  lemma PostAckStep(cs: Policies, net: Net, n: Peer, j: JobID, now: Time)
    requires n in cs && n in net.nodes && j in net.nodes[n].jobs && net.nodes[n].jobs[j].retry <= now
    ensures var job := net.nodes[n].jobs[j]; AckMsg(n, job.peer, job.ack) in Apply(cs, net, PostAck(n, j, now)).sent
  {
  }

  /** A due result that stays in the worker's copy until it is posted is on its way afterwards. */
  lemma ResultPosted(cs: Policies, run: seq<Label>, n: Peer, j: JobID, job: Job, c: nat, p: nat, d: nat)
    requires ValidPolicies(cs) && n in cs && c < p < d < |run| && run[c] == CopyOutbox(n) && Serves(At(cs, run, c), n)
    requires j in At(cs, run, c).nodes[n].store.live.acks && job == At(cs, run, c).nodes[n].store.live.acks[j]
    requires AnsweredAt(cs, run, n, j, job, c, p, d)
    ensures AckMsg(n, job.peer, job.ack) in At(cs, run, d).sent
  {
    hide Apply, Good, Grows, Recopies, Run;
    AtNext(cs, run, c);
    CopyStep(cs, At(cs, run, c), n);
    JobsStay(cs, run, n, c + 1, p);
    AtNext(cs, run, p);
    PostAckStep(cs, At(cs, run, p), n, j, run[p].now);
    AtGrows(cs, run, p + 1, d);
    SentStays(At(cs, run, p + 1), At(cs, run, d), AckMsg(n, job.peer, job.ack));
  }

  /** The result for the node before is pending, unless that node already knows. */
  lemma ResultPends(cs: Policies, a: Association, net: Net, id: KeyID, n: Peer, q: Peer) returns (j: JobID)
    requires Good(cs, net) && Serves(net, n) && Downstream(cs, a, net, id, n, q)
    requires !Rec(net, q, id).ready && !Rec(net, q, id).voiding
    ensures j in net.nodes[n].store.live.acks && KeyOf(net.nodes[n].store.live.acks[j]) == id
    ensures var job := net.nodes[n].store.live.acks[j];
      job.peer == q && job.ack == Ack([id], Relayed, a.master, [a.slave])
  {
    hide NetInv, Heard, Linked, OwedPeers, CurrentStatus, Acked, Inv;
    LiveInv(cs, net, n);
    OwedOrAcked(cs, net, n, id, q);
    if Acked(net, n, q, id, Relayed) { AckedReady(cs, net, id, n, q); }
    j :| j in Disk(net, n).acks && Matches(Disk(net, n).acks[j], q, id) && Disk(net, n).acks[j].ack.status == Relayed;
    KeysNamed(cs[n], Disk(net, n), id);
    JobOf(cs[n], Disk(net, n), j);
  }

  lemma AckDelivered(cs: Policies, a: Association, net: Net, id: KeyID, n: Peer, q: Peer, at: Time)
    requires Good(cs, net) && Serves(net, q) && ValidID(id) && Pair(a.master, [a.slave]).Ok?
    requires Downstream(cs, a, net, id, n, q) && AckMsg(n, q, Ack([id], Relayed, a.master, [a.slave])) in net.sent
    ensures var net' := Apply(cs, net, Deliver(AckMsg(n, q, Ack([id], Relayed, a.master, [a.slave])), at, Saves));
      Has(net', q, id) && (Rec(net', q, id).ready || Rec(net', q, id).voiding)
  {
    hide NetInv, Heard, OwedPeers, CurrentStatus, ValidID, Acknowledge, Linked, Apply;
    LiveInv(cs, net, q);
    AckAccepted(cs, a, q, n, net.nodes[q].store.live, id, at);
    DeliverStep(cs, net, AckMsg(n, q, Ack([id], Relayed, a.master, [a.slave])), at);
  }

  lemma DownstreamStays(cs: Policies, a: Association, net: Net, net': Net, id: KeyID, n: Peer, q: Peer)
    requires Downstream(cs, a, net, id, n, q) && Grows(net, net') && Good(cs, net')
    requires Rec(net, n, id).ready && NotVoided(net', id)
    ensures Downstream(cs, a, net', id, n, q)
  {
    assert Later(Rec(net, n, id), Rec(net', n, id)) && Later(Rec(net, q, id), Rec(net', q, id));
    hide Good, Grows, Linked;
  }

  /** When the result is answered, the node before has the key ready. */
  lemma AnswerReadies(cs: Policies, a: Association, run: seq<Label>, id: KeyID, n: Peer, q: Peer, j: JobID,
        c: nat, p: nat, d: nat)
    requires ValidPolicies(cs) && c < p < d < |run| && ValidID(id) && Pair(a.master, [a.slave]).Ok?
    requires Downstream(cs, a, At(cs, run, c), id, n, q) && Rec(At(cs, run, c), n, id).ready
    requires run[c] == CopyOutbox(n) && Serves(At(cs, run, c), n) && j in At(cs, run, c).nodes[n].store.live.acks
    requires var job := At(cs, run, c).nodes[n].store.live.acks[j];
      job.peer == q && job.ack == Ack([id], Relayed, a.master, [a.slave]) && AnsweredAt(cs, run, n, j, job, c, p, d)
    requires NotVoided(At(cs, run, d + 1), id)
    ensures var net' := At(cs, run, d + 1); Has(net', q, id) && Rec(net', q, id).ready
  {
    hide At, Run, Apply, Good, Grows, ValidID, Pair, Linked, OwedPeers, CurrentStatus, NotVoided, Serves, ValidPolicies;
    assert run[d] == Deliver(AckMsg(n, q, Ack([id], Relayed, a.master, [a.slave])), run[d].now, Saves);
    assert Serves(At(cs, run, d), q);
    ResultPosted(cs, run, n, j, At(cs, run, c).nodes[n].store.live.acks[j], c, p, d);
    hide Downstream, AnsweredAt;
    AtGrows(cs, run, c, d);
    AtGrows(cs, run, d, d + 1);
    EndsNotVoided(At(cs, run, d), At(cs, run, d + 1), id);
    DownstreamStays(cs, a, At(cs, run, c), At(cs, run, d), id, n, q);
    AckDelivered(cs, a, At(cs, run, d), id, n, q, run[d].now);
    AtNext(cs, run, d);
    NotVoidedAt(At(cs, run, d + 1), q, id);
  }

  lemma ReadyLater(net: Net, net': Net, q: Peer, id: KeyID)
    requires Grows(net, net') && NotVoided(net', id) && Has(net, q, id) && Rec(net, q, id).ready
    ensures Has(net', q, id) && Rec(net', q, id).ready
  {
    assert Later(Rec(net, q, id), Rec(net', q, id));
  }

  lemma NotVoidedAt(net: Net, q: Peer, id: KeyID)
    requires NotVoided(net, id) && Has(net, q, id)
    ensures !Rec(net, q, id).voiding
  {
  }

  /** After the step the node before has the key ready. */
  lemma ReportReadies(cs: Policies, a: Association, run: seq<Label>, id: KeyID, n: Peer, q: Peer, c: nat, hi: nat)
    requires ValidPolicies(cs) && c < hi <= |run| && ValidID(id) && Pair(a.master, [a.slave]).Ok?
    requires Downstream(cs, a, At(cs, run, c), id, n, q) && Rec(At(cs, run, c), n, id).ready
    requires !Rec(At(cs, run, c), q, id).ready && AllReported(cs, run, n, id, c, hi) && NotVoided(At(cs, run, hi), id)
    ensures var net' := At(cs, run, hi); Has(net', q, id) && Rec(net', q, id).ready
  {
    hide Apply, Good, Grows, ValidID, Pair, Linked, Run, NotVoided, AnsweredAt, OwedPeers, CurrentStatus, ValidPolicies;
    var net := At(cs, run, c);
    AtGrows(cs, run, c, hi);
    EndsNotVoided(net, At(cs, run, hi), id);
    NotVoidedAt(net, q, id);
    var j := ResultPends(cs, a, net, id, n, q);
    var p, d :| c < p < d < hi && AnsweredAt(cs, run, n, j, net.nodes[n].store.live.acks[j], c, p, d);
    AtGrows(cs, run, d + 1, hi);
    EndsNotVoided(At(cs, run, d + 1), At(cs, run, hi), id);
    AnswerReadies(cs, a, run, id, n, q, j, c, p, d);
    ReadyLater(At(cs, run, d + 1), At(cs, run, hi), q, id);
  }

  // The passing half of a step.

  /** The record at hand, from looking at it until its transfer is on the way. */
  lemma TransferPosted(cs: Policies, run: seq<Label>, n: Peer, id: KeyID, r: Record, k: nat, m: nat, o: nat, d: nat)
    requires ValidPolicies(cs) && n in cs && k < m < o < d < |run|
    requires run[k].Pick? && run[k].n == n && run[k].id == id && Serves(At(cs, run, k), n)
    requires At(cs, run, k).nodes[n].worker == Idle && id in At(cs, run, k).nodes[n].store.live.keys
    requires r == At(cs, run, k).nodes[n].store.live.keys[id] && r.retry <= run[k].now
    requires PassedAt(cs, run, n, id, r, k, m, o, d) && Sendable(At(cs, run, m), n, id, run[m].now)
    ensures TransferMsg(n, run[m].to, TransferOf(cs[n], id, run[m].to, r)) in At(cs, run, d).sent
  {
    hide Apply, Good, Grows, Interrupts, Run, TransferOf, MaySend, ValidPolicies, HasRoom, At;
    PickStep(cs, At(cs, run, k), n, id, run[k].now);
    AtNext(cs, run, k);
    WorkerStays(cs, run, n, k + 1, m);
    CommitStep(cs, At(cs, run, m), n, id, r, run[m].to, run[m].now);
    assert run[m] == CommitTo(n, run[m].to, run[m].now, Saves);
    AtNext(cs, run, m);
    WorkerStays(cs, run, n, m + 1, o);
    PostStep(cs, At(cs, run, o), n, id, run[m].to, r);
    AtNext(cs, run, o);
    AtGrows(cs, run, o + 1, d);
    SentStays(At(cs, run, o + 1), At(cs, run, d), TransferMsg(n, run[m].to, TransferOf(cs[n], id, run[m].to, r)));
  }

  /** The intent to send would be committed. */
  ghost predicate Sendable(net: Net, n: Peer, id: KeyID, now: Time) {
    && Serves(net, n) && id in net.nodes[n].store.live.keys
    && CommitSend(Working(net.nodes[n].store.live), id, "", now).Ok?
  }

  lemma WiredValid(cs: Policies, a: Association, hops: Hops)
    requires Wired(cs, a, hops)
    ensures ValidPolicies(cs)
  {
  }

  lemma TravelsAt(cs: Policies, a: Association, hops: Hops, run: seq<Label>, id: KeyID, i: nat, x: nat, hi: nat)
    requires i <= x <= hi <= |run| && Travels(cs, a, hops, At(cs, run, i), id) && NotVoided(At(cs, run, hi), id)
    ensures Travels(cs, a, hops, At(cs, run, x), id) && Grows(At(cs, run, i), At(cs, run, x))
  {
    assert ValidPolicies(cs);
    hide Travels, Good, Grows, NotVoided, Run;
    AtGrows(cs, run, i, x);
    AtGrows(cs, run, x, hi);
    Between(cs, a, hops, At(cs, run, i), At(cs, run, x), At(cs, run, hi), id);
  }

  /** The last node of a path that has not reached the target still has to send, to a peer on its route. */
  lemma LastFits(cs: Policies, a: Association, hops: Hops, net: Net, id: KeyID)
    requires Travels(cs, a, hops, net, id) && net.path[id] != [] && !Arrived(net, id) && Serves(net, Last(net, id))
    ensures var n := Last(net, id);
      && n in cs && Has(net, n, id) && net.nodes[n].store.live == Disk(net, n)
      && var r := Rec(net, n, id);
         && NeedsSend(r) && r.pair == a && |r.material| == KEY_BYTES && r.keyExt == map[] && r.optional == map[]
         && forall to :: MaySend(r, to) ==> to in cs[n].Route(a.slave)
  {
    var n := Last(net, id);
    StillAway(cs, a, hops, net, id);
    Facts(cs, a, hops, net, id, n);
    LiveInv(cs, net, n);
    NotReadyYet(cs, a, hops, net, id);
    hide Travels, Arrived;
  }

  lemma IdentityStays(net: Net, net': Net, n: Peer, id: KeyID)
    requires Grows(net, net') && Has(net, n, id)
    ensures Has(net', n, id) && SameIdentity(Rec(net, n, id), Rec(net', n, id))
  {
    assert Later(Rec(net, n, id), Rec(net', n, id));
  }

  lemma LastSendable(cs: Policies, a: Association, hops: Hops, net: Net, id: KeyID, now: Time)
    requires Travels(cs, a, hops, net, id) && net.path[id] != [] && !Arrived(net, id) && Serves(net, Last(net, id))
    ensures Has(net, Last(net, id), id) && (now < Rec(net, Last(net, id), id).expires ==>
      Sendable(net, Last(net, id), id, now))
  {
    LastFits(cs, a, hops, net, id);
    hide Travels, Arrived, MaySend;
  }

  /** While the path stays the same, the last node stays the last. */
  lemma LastStays(cs: Policies, a: Association, hops: Hops, net: Net, net': Net, id: KeyID)
    requires Travels(cs, a, hops, net, id) && Travels(cs, a, hops, net', id) && Grows(net, net')
    requires net.path[id] != [] && !Arrived(net, id) && net'.path[id] == net.path[id]
    ensures var n := Last(net, id);
      Has(net, n, id) && !Arrived(net', id) && Has(net', n, id) && SameIdentity(Rec(net, n, id), Rec(net', n, id))
  {
    hide Good, Wired, NotVoided, Grows;
    StillAway(cs, a, hops, net, id);
    IdentityStays(net, net', Last(net, id), id);
  }

  lemma TransferDelivered(cs: Policies, a: Association, hops: Hops, net: Net, id: KeyID, to: Peer, r: Record, at: Time)
    requires Travels(cs, a, hops, net, id) && net.path[id] != [] && Last(net, id) in cs
    requires to in cs[Last(net, id)].Route(a.slave) && Serves(net, to) && HasRoom(cs, net, to, id)
    requires r.pair == a && |r.material| == KEY_BYTES && r.keyExt == map[] && r.optional == map[]
    requires TransferMsg(Last(net, id), to, TransferOf(cs[Last(net, id)], id, to, r)) in net.sent
    ensures var n := Last(net, id);
      Has(Apply(cs, net, Deliver(TransferMsg(n, to, TransferOf(cs[n], id, to, r)), at, Saves)), to, id)
        && !Has(net, to, id)
  {
    hide Wired, ValidID, Policy.Route, TransferOf, Accept, Apply, NetInv, Inv, Heard, NotVoided, RecInv;
    NotBack(cs, a, hops, net, id, to);
    PathWired(cs, a, hops, net, id, |net.path[id]| - 1);
    LiveInv(cs, net, to);
    assert Wired(cs, a, hops) && ValidID(id);
    hide Travels;
    TransferAccepted(cs, a, hops, Last(net, id), to, net.nodes[to].store.live, id, r, at);
    DeliverStep(cs, net, TransferMsg(Last(net, id), to, TransferOf(cs[Last(net, id)], id, to, r)), at);
  }

  /** If the path stays the same until the transfer is answered, it grows then. */
  lemma PassLengthens(cs: Policies, a: Association, hops: Hops, run: seq<Label>, id: KeyID, n: Peer, r: Record,
        k: nat, m: nat, o: nat, d: nat)
    requires k < m < o < d < |run| && Travels(cs, a, hops, At(cs, run, k), id) && NotVoided(At(cs, run, d + 1), id)
    requires At(cs, run, k).path[id] != [] && !Arrived(At(cs, run, k), id) && n == Last(At(cs, run, k), id) && n in cs
    requires run[k].Pick? && run[k].n == n && run[k].id == id && Serves(At(cs, run, k), n)
    requires At(cs, run, k).nodes[n].worker == Idle && id in At(cs, run, k).nodes[n].store.live.keys
    requires r == At(cs, run, k).nodes[n].store.live.keys[id] && r.retry <= run[k].now
    requires PassedAt(cs, run, n, id, r, k, m, o, d)
    requires id in At(cs, run, d).path && At(cs, run, d).path[id] == At(cs, run, k).path[id]
    ensures id in At(cs, run, d + 1).path && |At(cs, run, d + 1).path[id]| > |At(cs, run, k).path[id]|
  {
    hide At, Run, Apply, Good, Grows, NotVoided, Wired, Arrived, TransferOf, MaySend, Interrupts, ValidPolicies;
    assert ValidPolicies(cs) by { hide Run; WiredValid(cs, a, hops); }
    assert id in At(cs, run, k).path;
    hide Travels;
    TravelsAt(cs, a, hops, run, id, k, m, d + 1);
    TravelsAt(cs, a, hops, run, id, k, d, d + 1);
    TravelsAt(cs, a, hops, run, id, k, d + 1, d + 1);
    TravelsAt(cs, a, hops, run, id, m, d, d + 1);
    TravelsAt(cs, a, hops, run, id, d, d + 1, d + 1);
    SamePathBetween(At(cs, run, k), At(cs, run, m), At(cs, run, d), id);
    LastFits(cs, a, hops, At(cs, run, k), id);
    LastStays(cs, a, hops, At(cs, run, k), At(cs, run, m), id);
    LastSendable(cs, a, hops, At(cs, run, m), id, run[m].now);
    TransferPosted(cs, run, n, id, r, k, m, o, d);
    TransferDelivered(cs, a, hops, At(cs, run, d), id, run[m].to, r, run[d].now);
    AtNext(cs, run, d);
    Lengthens(cs, a, hops, At(cs, run, d), At(cs, run, d + 1), id, run[m].to);
  }

  lemma SamePathBetween(net: Net, net1: Net, net2: Net, id: KeyID)
    requires Grows(net, net1) && Grows(net1, net2) && id in net.path && id in net2.path && net2.path[id] == net.path[id]
    ensures id in net1.path && net1.path[id] == net.path[id]
  {
  }

  /** The last node's record is settled only once the path has grown. */
  lemma SettledLengthens(cs: Policies, a: Association, hops: Hops, run: seq<Label>, id: KeyID, n: Peer,
        k: nat, x: nat, hi: nat)
    requires k < x <= hi <= |run| && Travels(cs, a, hops, At(cs, run, k), id) && NotVoided(At(cs, run, hi), id)
    requires At(cs, run, k).path[id] != [] && !Arrived(At(cs, run, k), id) && n == Last(At(cs, run, k), id)
    requires SettledAt(cs, run, n, id, x)
    ensures id in At(cs, run, hi).path && |At(cs, run, hi).path[id]| > |At(cs, run, k).path[id]|
  {
    hide At, Run, Good, Grows, NotVoided, Wired, Arrived, NeedsSend;
    var net, net1 := At(cs, run, k), At(cs, run, x);
    assert id in net.path;
    hide Travels;
    TravelsAt(cs, a, hops, run, id, k, x, hi);
    TravelsAt(cs, a, hops, run, id, x, hi, hi);
    PathStays(net, net1, id);
    PathStays(net1, At(cs, run, hi), id);
    if net1.path[id] == net.path[id] {
      LastStays(cs, a, hops, net, net1, id);
      LastFits(cs, a, hops, net1, id);
    }
  }

  /** A visit by the last node lengthens the path. */
  lemma VisitLengthens(cs: Policies, a: Association, hops: Hops, run: seq<Label>, id: KeyID, n: Peer, k: nat, hi: nat)
    requires k <= hi <= |run| && Travels(cs, a, hops, At(cs, run, k), id) && NotVoided(At(cs, run, hi), id)
    requires At(cs, run, k).path[id] != [] && !Arrived(At(cs, run, k), id) && n == Last(At(cs, run, k), id) && n in cs
    requires Visits(cs, run, n, id, k, hi)
    ensures id in At(cs, run, hi).path && |At(cs, run, hi).path[id]| > |At(cs, run, k).path[id]|
  {
    hide At, Run, Good, Grows, NotVoided, Wired, Arrived, PassedAt, NeedsSend;
    var net := At(cs, run, k);
    assert id in net.path;
    hide Travels;
    TravelsAt(cs, a, hops, run, id, k, hi, hi);
    LastFits(cs, a, hops, net, id);
    var r := net.nodes[n].store.live.keys[id];
    if x :| k < x <= hi && SettledAt(cs, run, n, id, x) {
      SettledLengthens(cs, a, hops, run, id, n, k, x, hi);
    } else {
      var m, o, d :| k < m < o < d < hi && PassedAt(cs, run, n, id, r, k, m, o, d);
      TravelsAt(cs, a, hops, run, id, k, d, hi);
      TravelsAt(cs, a, hops, run, id, k, d + 1, hi);
      TravelsAt(cs, a, hops, run, id, d + 1, hi, hi);
      PathStays(net, At(cs, run, d), id);
      PathStays(net, At(cs, run, d + 1), id);
      PathStays(At(cs, run, d + 1), At(cs, run, hi), id);
      TravelsAt(cs, a, hops, run, id, d, d + 1, hi);
      PathStays(At(cs, run, d), At(cs, run, d + 1), id);
      if At(cs, run, d).path[id] == net.path[id] {
        EndsNotVoided(At(cs, run, d + 1), At(cs, run, hi), id);
        PassLengthens(cs, a, hops, run, id, n, r, k, m, o, d);
      }
    }
  }

  // A step of the responsible node.

  /** Once the key arrived, a step of the first node that has it ready brings the acknowledgement one hop back. */
  lemma ReportHelps(cs: Policies, a: Association, hops: Hops, run: seq<Label>, id: KeyID, c: nat, hi: nat)
    requires c < hi <= |run| && Travels(cs, a, hops, At(cs, run, c), id) && NotVoided(At(cs, run, hi), id)
    requires Arrived(At(cs, run, c), id) && Work(cs, a, hops, At(cs, run, c), id) > 0
    requires AllReported(cs, run, Responsible(cs, a, hops, At(cs, run, c), id), id, c, hi)
    ensures Travels(cs, a, hops, At(cs, run, hi), id)
    ensures Work(cs, a, hops, At(cs, run, hi), id) < Work(cs, a, hops, At(cs, run, c), id)
  {
    hide At, Run, Good, Grows, NotVoided, Arrived, AllReported, ValidID, WiredNode, Linked;
    var net, net' := At(cs, run, c), At(cs, run, hi);
    TravelsAt(cs, a, hops, run, id, c, hi, hi);
    TargetReady(cs, a, hops, net, id);
    NonEmptyPath(cs, a, hops, net, id);
    assert ValidID(id) && Pair(a.master, [a.slave]).Ok? && ValidPolicies(cs);
    hide Travels, Wired, ValidPolicies, Downstream;
    var i := FirstReady(net, id, 0);
    Upstream(cs, a, hops, net, id, i);
    UpstreamWaits(cs, a, net, id, i);
    ReportReadies(cs, a, run, id, net.path[id][i], net.path[id][i - 1], c, hi);
    ArrivedStays(cs, a, hops, net, net', id);
    TargetReady(cs, a, hops, net', id);
    assert ReadyAt(net', id, i - 1);
    assert FirstReady(net', id, 0) <= i - 1;
  }

  lemma UpstreamWaits(cs: Policies, a: Association, net: Net, id: KeyID, i: nat)
    requires id in net.path && 0 < i < |net.path[id]| && ReadyAt(net, id, i) && !ReadyAt(net, id, i - 1)
    requires Downstream(cs, a, net, id, net.path[id][i], net.path[id][i - 1])
    ensures Has(net, net.path[id][i], id) && Rec(net, net.path[id][i], id).ready
    ensures Has(net, net.path[id][i - 1], id) && !Rec(net, net.path[id][i - 1], id).ready
  {
  }

  /** Before the key arrived, a step of the last node brings it at least one hop further. */
  lemma VisitHelps(cs: Policies, a: Association, hops: Hops, run: seq<Label>, id: KeyID, c: nat, k: nat, hi: nat)
    requires c < k <= hi <= |run| && Travels(cs, a, hops, At(cs, run, c), id) && NotVoided(At(cs, run, hi), id)
    requires !Arrived(At(cs, run, c), id) && Responsible(cs, a, hops, At(cs, run, c), id) in cs
    requires Visits(cs, run, Responsible(cs, a, hops, At(cs, run, c), id), id, k, hi)
    ensures Travels(cs, a, hops, At(cs, run, hi), id)
    ensures Work(cs, a, hops, At(cs, run, hi), id) < Work(cs, a, hops, At(cs, run, c), id)
  {
    hide At, Run, Good, Grows, NotVoided, Arrived, Visits, Wired;
    var net, net1, net' := At(cs, run, c), At(cs, run, k), At(cs, run, hi);
    TravelsAt(cs, a, hops, run, id, c, k, hi);
    TravelsAt(cs, a, hops, run, id, c, hi, hi);
    TravelsAt(cs, a, hops, run, id, k, hi, hi);
    assert id in net.path && id in net1.path;
    hide Travels, Work;
    WorkAway(cs, a, hops, net, id);
    hide Responsible;
    WorkShrinks(cs, a, hops, net, net1, id);
    WorkShrinks(cs, a, hops, net1, net', id);
    PathStays(net, net1, id);
    if |net1.path[id]| == |net.path[id]| {
      LastStays(cs, a, hops, net, net1, id);
      VisitLengthens(cs, a, hops, run, id, Last(net, id), k, hi);
    }
  }

  /** While work is left, a worker step of the responsible node does some of it. */
  lemma StepHelps(cs: Policies, a: Association, hops: Hops, run: seq<Label>, id: KeyID, lo: nat, hi: nat)
    requires lo <= hi <= |run| && Travels(cs, a, hops, At(cs, run, lo), id) && NotVoided(At(cs, run, hi), id)
    requires Work(cs, a, hops, At(cs, run, lo), id) > 0 && Responsible(cs, a, hops, At(cs, run, lo), id) in cs
    requires Steps(cs, run, Responsible(cs, a, hops, At(cs, run, lo), id), id, lo, hi)
    ensures Travels(cs, a, hops, At(cs, run, hi), id)
    ensures Work(cs, a, hops, At(cs, run, hi), id) < Work(cs, a, hops, At(cs, run, lo), id)
  {
    hide At, Run, Good, Grows, NotVoided, Arrived, Travels, Work, Responsible, AllReported, Visits;
    var n := Responsible(cs, a, hops, At(cs, run, lo), id);
    var c :| lo <= c < hi && AllReported(cs, run, n, id, c, hi) && VisitsAfter(cs, run, n, id, c, hi);
    TravelsAt(cs, a, hops, run, id, lo, c, hi);
    TravelsAt(cs, a, hops, run, id, lo, hi, hi);
    TravelsAt(cs, a, hops, run, id, c, hi, hi);
    WorkShrinks(cs, a, hops, At(cs, run, lo), At(cs, run, c), id);
    WorkShrinks(cs, a, hops, At(cs, run, c), At(cs, run, hi), id);
    if Work(cs, a, hops, At(cs, run, c), id) == Work(cs, a, hops, At(cs, run, lo), id) {
      if Arrived(At(cs, run, c), id) {
        ReportHelps(cs, a, hops, run, id, c, hi);
      } else {
        LastKnown(cs, a, hops, At(cs, run, c), id);
        ReportsServes(cs, run, n, id, c, hi);
        var k :| c < k <= hi && Visits(cs, run, n, id, k, hi);
        VisitHelps(cs, a, hops, run, id, c, k, hi);
      }
    }
  }

  lemma ReportsServes(cs: Policies, run: seq<Label>, n: Peer, id: KeyID, c: nat, hi: nat)
    requires c < hi <= |run| && AllReported(cs, run, n, id, c, hi)
    ensures Serves(At(cs, run, c), n)
  {
  }

  lemma HolderLists(cs: Policies, a: Association, hops: Hops, net: Net, id: KeyID, n: Peer)
    requires Travels(cs, a, hops, net, id) && Has(net, n, id)
    ensures n in cs && n in net.nodes && (Serves(net, n) ==> id in net.nodes[n].store.live.keys)
  {
    assert NetInv(cs, net);
    hide Travels, NetInv, Inv, NodeGood;
    KnownNode(cs, net, n);
    if Serves(net, n) { LiveInv(cs, net, n); }
  }

  lemma LastKnown(cs: Policies, a: Association, hops: Hops, net: Net, id: KeyID)
    requires Travels(cs, a, hops, net, id) && !Arrived(net, id)
    ensures var n := Responsible(cs, a, hops, net, id);
      n in cs && n in net.nodes && (Serves(net, n) ==> id in net.nodes[n].store.live.keys)
  {
    hide Arrived, Work, Good, Wired, NotVoided;
    WorkAway(cs, a, hops, net, id);
    assert id in net.path;
    hide Travels, Responsible;
    StillAway(cs, a, hops, net, id);
    HolderLists(cs, a, hops, net, id, Last(net, id));
  }

  // Rounds.

  /** The work after k rounds. */
  lemma {:induction false} RoundsHelp(cs: Policies, a: Association, hops: Hops, run: seq<Label>, id: KeyID,
        cuts: seq<nat>, k: nat)
    requires hops.Keys <= cs.Keys && Rounds(cs, hops.Keys, run, id, cuts) && k < |cuts|
    requires Travels(cs, a, hops, At(cs, run, cuts[0]), id) && NotVoided(At(cs, run, cuts[k]), id)
    ensures Travels(cs, a, hops, At(cs, run, cuts[k]), id)
    ensures var w := Work(cs, a, hops, At(cs, run, cuts[k]), id);
      w == 0 || w + k <= Work(cs, a, hops, At(cs, run, cuts[0]), id)
  {
    hide At, Run, Good, Grows, NotVoided, Travels, Work, Responsible, Steps;
    if k > 0 {
      var lo, hi := cuts[k - 1], cuts[k];
      CutsOrdered(cs, hops.Keys, run, id, cuts, 0, k - 1);
      TravelsBack(cs, a, hops, run, id, cuts[0], lo, hi);
      RoundsHelp(cs, a, hops, run, id, cuts, k - 1);
      TravelsAt(cs, a, hops, run, id, lo, hi, hi);
      WorkShrinks(cs, a, hops, At(cs, run, lo), At(cs, run, hi), id);
      ResponsibleKnown(cs, a, hops, At(cs, run, lo), id);
      if Work(cs, a, hops, At(cs, run, lo), id) > 0 { StepHelps(cs, a, hops, run, id, lo, hi); }
    }
  }

  lemma TravelsBack(cs: Policies, a: Association, hops: Hops, run: seq<Label>, id: KeyID, i: nat, x: nat, hi: nat)
    requires i <= x <= hi <= |run| && Travels(cs, a, hops, At(cs, run, i), id) && NotVoided(At(cs, run, hi), id)
    ensures NotVoided(At(cs, run, x), id)
  {
    assert ValidPolicies(cs);
    hide Travels, Good, Grows, NotVoided, Run;
    AtGrows(cs, run, x, hi);
    EndsNotVoided(At(cs, run, x), At(cs, run, hi), id);
  }

  /** The run from the first cut on is cut into rounds of these nodes. */
  ghost predicate Rounds(cs: Policies, nodes: set<Peer>, run: seq<Label>, id: KeyID, cuts: seq<nat>)
    requires nodes <= cs.Keys
  {
    && cuts != [] && (forall k :: 0 <= k < |cuts| ==> cuts[k] <= |run|)
    && forall k :: 0 < k < |cuts| ==> cuts[k - 1] <= cuts[k] && Round(cs, nodes, run, id, cuts[k - 1], cuts[k])
  }

  lemma {:induction false} CutsOrdered(cs: Policies, nodes: set<Peer>, run: seq<Label>, id: KeyID, cuts: seq<nat>,
        i: nat, j: nat)
    requires nodes <= cs.Keys && Rounds(cs, nodes, run, id, cuts) && i <= j < |cuts|
    ensures cuts[i] <= cuts[j]
    decreases j
  {
    hide Round;
    if i < j { CutsOrdered(cs, nodes, run, id, cuts, i, j - 1); }
  }

  /** In every run: a source record whose node is at most h hops from the target is ready 2h rounds later. In a
      round every node the routes from there lead to takes a worker step, in any order, overlapping or not, and
      with anything else in between; every call of such a step about this key goes through, and the key is not
      voided anywhere. Nothing is asked of the other nodes of the network. */
  lemma SourceBecomesReady(cs: Policies, a: Association, hops: Hops, run: seq<Label>, cuts: seq<nat>, src: Peer,
        id: KeyID, h: nat)
    requires Wired(cs, a, hops) && Rounds(cs, hops.Keys, run, id, cuts) && |cuts| == 2 * h + 1
    requires Has(At(cs, run, cuts[0]), src, id) && src in hops && hops[src] <= h
    requires Rec(At(cs, run, cuts[0]), src, id).role == Source && Rec(At(cs, run, cuts[0]), src, id).pair == a
    requires NotVoided(At(cs, run, cuts[2 * h]), id)
    ensures Has(At(cs, run, cuts[2 * h]), src, id) && Rec(At(cs, run, cuts[2 * h]), src, id).ready
  {
    var net, net' := At(cs, run, cuts[0]), At(cs, run, cuts[2 * h]);
    CutsOrdered(cs, hops.Keys, run, id, cuts, 0, 2 * h);
    AtGrows(cs, run, cuts[0], cuts[2 * h]);
    OriginKnown(cs, run[..cuts[0]], src, id);
    EndsNotVoided(net, net', id);
    SourceStarts(cs, net, id, src);
    assert Travels(cs, a, hops, net, id);
    hide Good, Grows, NotVoided, Wired, Run, At, Rounds;
    RoundsHelp(cs, a, hops, run, id, cuts, 2 * h);
    WorkBounded(cs, a, hops, net, id, h);
    WorkDone(cs, a, hops, net', id);
    PathStays(net, net', id);
  }
}
