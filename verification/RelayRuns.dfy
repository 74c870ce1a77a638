/** Every step of every run keeps the network invariant. */
module RelayRuns {
  import opened Core
  import opened Peering
  import opened RelayState
  import opened RelayInvariant
  import opened RelayHandlers
  import opened RelayNetwork
  import opened RelayTrace
  import opened RelayMoves

  lemma NodeOf(cs: Policies, net: Net, n: Peer)
    requires NetInv(cs, net) && n in cs
    ensures n in net.nodes && NodeGood(cs[n], net, n) && WorkerGood(cs[n], net, n) && NodesGood(cs, net)
      && net.nodes.Keys == cs.Keys
    ensures !net.nodes[n].store.broken ==> net.nodes[n].store.live == Disk(net, n)
  {
  }

  // Steps that leave every journal alone.

  ghost predicate SameDisks(net: Net, net': Net) {
    && net'.nodes.Keys == net.nodes.Keys
    && (forall n :: n in net.nodes ==> Disk(net', n) == Disk(net, n))
    && net'.path == net.path && net.sent <= net'.sent && net.processed <= net'.processed
    && (forall id :: id in net.origin ==> id in net'.origin && net'.origin[id] == net.origin[id])
  }

  lemma QuietGrows(net: Net, net': Net)
    requires SameDisks(net, net') && net.log <= net'.log
    ensures Grows(net, net')
  {
    forall n, id | Has(net, n, id) ensures Has(net', n, id) && Later(Rec(net, n, id), Rec(net', n, id)) {
      LaterRefl(Rec(net, n, id));
    }
  }

  lemma QuietPaths(net: Net, net': Net)
    requires SameDisks(net, net') && PathsGood(net)
    ensures PathsGood(net')
  {
    forall id, i | id in net'.path && 0 <= i < |net'.path[id]| ensures Hop(net', id, i) { assert Hop(net, id, i); }
    forall n, id | Has(net', n, id) ensures id in net'.path && n in net'.path[id] { assert Has(net, n, id); }
  }

  lemma QuietOutbox(net: Net, net': Net)
    requires SameDisks(net, net') && OutboxGood(net)
    ensures OutboxGood(net')
  {
    forall n, id, p | Has(net', n, id) && p in OwedPeers(Rec(net', n, id)) ensures ResultGood(net', n, id, p) {
      assert ResultGood(net, n, id, p);
      var st := CurrentStatus(Rec(net, n, id));
      if Acked(net, n, p, id, st) { AckedGrows(net, net', n, p, id, st); }
    }
  }

  lemma QuietRecs(net: Net, net': Net)
    requires SameDisks(net, net') && RecsGood(net) && MsgsGood(net) && net.log <= net'.log
    requires forall m :: m in net'.sent && m !in net.sent ==> MsgGood(net, m)
    ensures RecsGood(net') && MsgsGood(net')
  {
    QuietGrows(net, net');
    forall n, id | Has(net', n, id) ensures RecGood(net', n, id) {
      assert RecGood(net, n, id);
      RecGrows(net, net', n, id);
    }
    forall m | m in net'.sent ensures MsgGood(net', m) { assert MsgGood(net, m); MsgGrows(net, net', m); }
  }

  /** Sending good messages, committing receipts, changing volatile node state. */
  lemma Quiet(cs: Policies, net: Net, net': Net)
    requires NetInv(cs, net) && SameDisks(net, net') && net'.log == net.log && NodesGood(cs, net')
    requires forall m :: m in net'.sent && m !in net.sent ==> MsgGood(net, m)
    requires net'.processed <= net.processed + net'.sent
    ensures NetInv(cs, net') && Grows(net, net')
  {
    QuietGrows(net, net');
    QuietPaths(net, net');
    QuietOutbox(net, net');
    QuietRecs(net, net');
    LogGrows(net, net');
  }

  /** All nodes but n are untouched, and n is good. */
  lemma NodesFrom(cs: Policies, net: Net, net': Net, n: Peer)
    requires NodesGood(cs, net) && Grows(net, net') && n in cs && NodeGood(cs[n], net', n)
    requires forall m :: m in cs && m != n ==> net'.nodes[m] == net.nodes[m]
    ensures NodesGood(cs, net')
  {
    forall m | m in cs ensures NodeGood(cs[m], net', m) {
      if m != n { assert NodeGood(cs[m], net, m); NodeElsewhere(cs[m], net, net', m); }
    }
  }

  /** A node whose journal and outbox copy stay is good when its worker is. */
  lemma NodeSame(cs: Policies, net: Net, net': Net, n: Peer)
    requires NetInv(cs, net) && n in cs && n in net.nodes && n in net'.nodes && Grows(net, net')
    requires Disk(net', n) == Disk(net, n) && net'.nodes[n].jobs == net.nodes[n].jobs
    requires net'.nodes[n].store.live == net.nodes[n].store.live
    requires net.nodes[n].store.broken ==> net'.nodes[n].store.broken
    requires WorkerGood(cs[n], net', n)
    ensures NodeGood(cs[n], net', n)
  {
    hide NetInv, Grows, WorkerGood, JobsGood;
    NodeOf(cs, net, n);
    InMind(cs, net, n);
    JobsStayGood(net, net', n, net.nodes[n].store.live.acks);
    JobsStayGood(net, net', n, net.nodes[n].jobs);
  }

  lemma SetWorkerKeeps(cs: Policies, net: Net, n: Peer, w: Worker)
    requires NetInv(cs, net) && n in cs && WorkerGood(cs[n], SetWorker(net, n, w), n)
    ensures NetInv(cs, SetWorker(net, n, w)) && Grows(net, SetWorker(net, n, w))
  {
    hide NetInv, NodeGood, Grows, WorkerGood, MsgGood, ExtendPath, Inv, ValidPolicies;
    NodeOf(cs, net, n);
    var net' := SetWorker(net, n, w);
    QuietGrows(net, net');
    NodeSame(cs, net, net', n);
    NodeQuiet(cs, net, net', n);
  }

  /** Only n changed, neither its journal nor what was said. */
  lemma NodeQuiet(cs: Policies, net: Net, net': Net, n: Peer)
    requires NetInv(cs, net) && n in cs && SameDisks(net, net') && NodeGood(cs[n], net', n)
    requires net'.log == net.log && net'.sent == net.sent && net'.processed == net.processed
    requires forall m :: m in cs && m != n ==> net'.nodes[m] == net.nodes[m]
    ensures NetInv(cs, net') && Grows(net, net')
  {
    QuietGrows(net, net');
    ProcessedSent(cs, net);
    assert NodesGood(cs, net);
    hide NetInv, Grows, NodeGood, NodesGood, MsgGood;
    NodesFrom(cs, net, net', n);
    Quiet(cs, net, net');
  }

  /** Nodes that are the same stay good as the network grows. */
  lemma NodesStay(cs: Policies, net: Net, net': Net)
    requires NetInv(cs, net) && Grows(net, net') && net'.nodes == net.nodes
    ensures NodesGood(cs, net')
  {
    forall n | n in cs ensures NodeGood(cs[n], net', n) { NodeOf(cs, net, n); NodeElsewhere(cs[n], net, net', n); }
    hide NodeGood, Grows;
  }

  lemma ProcessedSent(cs: Policies, net: Net)
    requires NetInv(cs, net)
    ensures net.processed <= net.sent
  {
  }

  lemma SendKeeps(cs: Policies, net: Net, m: Msg)
    requires NetInv(cs, net) && MsgGood(net, m)
    ensures var net' := net.(sent := net.sent + {m}); NetInv(cs, net') && Grows(net, net')
  {
    hide NetInv, NodeGood, Grows, MsgGood;
    var net' := net.(sent := net.sent + {m});
    QuietGrows(net, net');
    NodesStay(cs, net, net');
    ProcessedSent(cs, net);
    Quiet(cs, net, net');
  }

  lemma ProcessedKeeps(cs: Policies, net: Net, m: Msg)
    requires NetInv(cs, net) && m in net.sent
    ensures var net' := net.(processed := net.processed + {m}); NetInv(cs, net') && Grows(net, net')
  {
    hide NetInv, NodeGood, Grows, MsgGood;
    var net' := net.(processed := net.processed + {m});
    QuietGrows(net, net');
    NodesStay(cs, net, net');
    ProcessedSent(cs, net);
    Quiet(cs, net, net');
  }

  lemma OriginKeeps(cs: Policies, net: Net, id: KeyID, o: Origin)
    requires NetInv(cs, net) && id !in net.origin
    ensures var net' := net.(origin := net.origin[id := o]); NetInv(cs, net') && Grows(net, net')
  {
    var net' := net.(origin := net.origin[id := o]);
    QuietGrows(net, net');
    forall n | n in cs ensures NodeGood(cs[n], net', n) {
      assert NodeGood(cs[n], net, n);
      NodeElsewhere(cs[n], net, net', n);
    }
    Quiet(cs, net, net');
  }

  /** A crash loses the live state, the worker and its copies; the journal becomes the live state. */
  function Crashed(net: Net, n: Peer): Net
    requires n in net.nodes
  {
    var d := net.nodes[n].store.disk;
    net.(nodes := net.nodes[n := Node(Durable(d, d, false), Idle, map[])])
  }

  lemma CrashKeeps(cs: Policies, net: Net, n: Peer)
    requires NetInv(cs, net) && n in cs
    ensures NetInv(cs, Crashed(net, n)) && Grows(net, Crashed(net, n))
  {
    hide NetInv, Grows;
    NodeOf(cs, net, n);
    CrashedNode(cs, net, n);
    hide NodeGood;
    NodeQuiet(cs, net, Crashed(net, n), n);
  }

  lemma CrashedNode(cs: Policies, net: Net, n: Peer)
    requires n in cs && n in net.nodes && NodeGood(cs[n], net, n)
    ensures NodeGood(cs[n], Crashed(net, n), n)
  {
  }

  /** Copying the outbox in memory, be the process poisoned or not. */
  lemma CopyKeeps(cs: Policies, net: Net, n: Peer)
    requires NetInv(cs, net) && n in cs && n in net.nodes
    ensures var net' := net.(nodes := net.nodes[n := net.nodes[n].(jobs := net.nodes[n].store.live.acks)]);
      NetInv(cs, net') && Grows(net, net')
  {
    hide NetInv, Grows, NodeGood, NodesGood, MsgGood, WorkerGood;
    var net' := net.(nodes := net.nodes[n := net.nodes[n].(jobs := net.nodes[n].store.live.acks)]);
    NodeOf(cs, net, n);
    ProcessedSent(cs, net);
    QuietGrows(net, net');
    CopiedNode(cs, net, net', n);
    NodesFrom(cs, net, net', n);
    Quiet(cs, net, net');
  }

  lemma CopiedNode(cs: Policies, net: Net, net': Net, n: Peer)
    requires NetInv(cs, net) && Grows(net, net') && n in cs && n in net.nodes
    requires n in net'.nodes && net'.nodes[n] == net.nodes[n].(jobs := net.nodes[n].store.live.acks)
    ensures NodeGood(cs[n], net', n)
  {
    hide NetInv, Grows, WorkerGood, JobsGood;
    NodeOf(cs, net, n);
    WorkerGrows(cs[n], net, net', n);
    InMind(cs, net, n);
    JobsStayGood(net, net', n, net.nodes[n].store.live.acks);
  }

  // Transactions.

  /** The outcome is a move the cause allows, and loses no unacknowledged result. */
  ghost predicate GoodOutcome(cs: Policies, net: Net, n: Peer, inp: Input, s': State)
    requires n in cs && n in net.nodes
  {
    var d := Disk(net, n);
    && Inv(cs[n], s') && KeysStep(inp, d, s') && JobsFrom(d.serial, d, s') && d.serial <= s'.serial
    && Justified(net, n, inp) && (inp.Sending? ==> net.nodes[n].worker == Idle)
    && forall id, p :: id in s'.keys && p in OwedPeers(s'.keys[id]) ==>
         StillOwed(d, s', id, p) || Acked(net, n, p, id, CurrentStatus(s'.keys[id]))
  }

  lemma DeltaGood(cs: Policies, net: Net, n: Peer, inp: Input, s': State)
    requires n in cs && n in net.nodes && Inv(cs[n], s') && Delta(inp, Disk(net, n).serial, Disk(net, n), s')
    requires Justified(net, n, inp) && (inp.Sending? ==> net.nodes[n].worker == Idle)
    ensures GoodOutcome(cs, net, n, inp, s')
  {
  }

  lemma SamePath(path: map<KeyID, seq<Peer>>, n: Peer, d: State)
    ensures ExtendPath(path, n, d, d) == path
  {
    assert forall id :: id in path ==> path[id] + [] == path[id];
  }

  lemma UnchangedKeeps(cs: Policies, net: Net, n: Peer, outcome: Result<State>, f: Fault)
    requires NetInv(cs, net) && n in cs
    requires net.nodes[n].store.broken || outcome.Err? || f == FailsOld
    ensures NetInv(cs, Commit(net, n, outcome, f)) && Grows(net, Commit(net, n, outcome, f))
  {
    hide NetInv, NodeGood, Grows, NodesGood, MsgGood, WorkerGood, ExtendPath, ValidPolicies, Inv, Policy.Valid;
    NodeOf(cs, net, n);
    NothingCommitted(net, n, outcome, f);
    hide Commit, Transact;
    var net' := Commit(net, n, outcome, f);
    QuietGrows(net, net');
    WorkerGrows(cs[n], net, net', n);
    NodeSame(cs, net, net', n);
    NodeQuiet(cs, net, net', n);
  }

  /** At most a refused save poisons the process. */
  lemma NothingCommitted(net: Net, n: Peer, outcome: Result<State>, f: Fault)
    requires n in net.nodes && (net.nodes[n].store.broken || outcome.Err? || f == FailsOld)
    ensures var net' := Commit(net, n, outcome, f);
      && n in net'.nodes
      && net' == net.(nodes := net.nodes[n := net.nodes[n].(store := net'.nodes[n].store)])
      && net'.nodes[n].store.live == net.nodes[n].store.live && net'.nodes[n].store.disk == net.nodes[n].store.disk
      && (net.nodes[n].store.broken ==> net'.nodes[n].store.broken)
  {
    SamePath(net.path, n, Disk(net, n));
  }

  lemma CommitKeeps(cs: Policies, net: Net, n: Peer, outcome: Result<State>, f: Fault, inp: Input)
    requires NetInv(cs, net) && n in cs
    requires !net.nodes[n].store.broken && outcome.Ok? ==> GoodOutcome(cs, net, n, inp, outcome.value)
    ensures NetInv(cs, Commit(net, n, outcome, f)) && Grows(net, Commit(net, n, outcome, f))
  {
    hide NetInv, Grows, NodeGood, NodesGood, WorkerGood, Inv, KeysStep, JobsFrom, StillOwed, ExtendPath, Justified;
    NodeOf(cs, net, n);
    if net.nodes[n].store.broken || outcome.Err? || f == FailsOld {
      UnchangedKeeps(cs, net, n, outcome, f);
    } else {
      MovedKeeps(cs, net, Commit(net, n, outcome, f), n, inp);
    }
  }

  lemma LiveInv(cs: Policies, net: Net, n: Peer)
    requires NetInv(cs, net) && n in cs && !net.nodes[n].store.broken
    ensures net.nodes[n].store.live == Disk(net, n) && Inv(cs[n], Disk(net, n))
  {
    assert NodeGood(cs[n], net, n);
  }

  lemma StoreKeeps(cs: Policies, net: Net, n: Peer, k: Key, now: Time, f: Fault)
    requires ValidPolicies(cs) && NetInv(cs, net) && n in cs
    ensures var net' := ApplyStore(cs, net, n, k, now, f); NetInv(cs, net') && Grows(net, net')
  {
    var outcome := StoreOutcome(cs[n], net.nodes[n].store.live, k, now);
    if k.id in net.origin || outcome.Err? || net.nodes[n].store.broken {
      QuietGrows(net, net);
    } else {
      var net1 := net.(origin := net.origin[k.id := Origin(n, k.pair, k.material)]);
      OriginKeeps(cs, net, k.id, Origin(n, k.pair, k.material));
      LiveInv(cs, net1, n);
      StoreMoves(cs[n], Disk(net, n), k, now);
      DeltaGood(cs, net1, n, Storing(k), outcome.value);
      CommitKeeps(cs, net1, n, outcome, f, Storing(k));
      GrowsTrans(net, net1, Commit(net1, n, outcome, f));
      assert ApplyStore(cs, net, n, k, now, f) == Commit(net1, n, outcome, f);
    }
  }

  function CauseOf(m: Msg): Input {
    match m
    case TransferMsg(from, _, t) => FromTransfer(from, t)
    case AckMsg(from, _, ack) => FromAcks(from, [ack])
    case VoidMsg(from, _, v) => FromVoid(from, v)
  }

  lemma HandleMoves(c: Policy, s: State, m: Msg, now: Time)
    requires c.Valid() && Inv(c, s) && Handle(c, s, m, now).Ok?
    ensures var s' := Handle(c, s, m, now).value; Inv(c, s') && Delta(CauseOf(m), s.serial, s, s')
  {
    match m
    case TransferMsg(from, _, t) => AcceptMoves(c, s, from, t, now);
    case AckMsg(from, _, ack) => AcknowledgeMoves(c, s, from, [ack], now);
    case VoidMsg(from, _, v) => VoidRequestMoves(c, s, from, v, now);
  }

  lemma HandleKeeps(cs: Policies, net: Net, m: Msg, now: Time, f: Fault)
    requires ValidPolicies(cs) && NetInv(cs, net) && m in net.sent && m.to in cs && m.to in net.nodes
    ensures var net' := Commit(net, m.to, Handle(cs[m.to], net.nodes[m.to].store.live, m, now), f);
      NetInv(cs, net') && Grows(net, net')
  {
    var n := m.to;
    var outcome := Handle(cs[n], net.nodes[n].store.live, m, now);
    if !net.nodes[n].store.broken && outcome.Ok? {
      LiveInv(cs, net, n);
      HandleMoves(cs[n], Disk(net, n), m, now);
      DeltaGood(cs, net, n, CauseOf(m), outcome.value);
    }
    CommitKeeps(cs, net, n, outcome, f, CauseOf(m));
  }

  lemma DeliverKeeps(cs: Policies, net: Net, m: Msg, now: Time, f: Fault)
    requires ValidPolicies(cs) && NetInv(cs, net)
    ensures var net' := ApplyDeliver(cs, net, m, now, f); NetInv(cs, net') && Grows(net, net')
  {
    hide NetInv, Grows, Handle;
    QuietGrows(net, net);
    if m in net.sent && m.to in net.nodes && m.to in cs {
      HandleKeeps(cs, net, m, now, f);
      var outcome := Handle(cs[m.to], net.nodes[m.to].store.live, m, now);
      var net1 := Commit(net, m.to, outcome, f);
      if Committed(net, m.to, outcome, f) {
        ProcessedKeeps(cs, net1, m);
        GrowsTrans(net, net1, net1.(processed := net1.processed + {m}));
      }
    }
  }

  lemma LocalMoves(cs: Policies, net: Net, n: Peer, inp: Input, outcome: Result<State>, f: Fault)
    requires NetInv(cs, net) && n in cs && n in net.nodes
      && (inp.Internal? || inp.Consuming? || (inp.Reserving? && inp.token > Disk(net, n).serial))
    requires !net.nodes[n].store.broken && outcome.Ok? ==>
      Inv(cs[n], outcome.value) && Delta(inp, Disk(net, n).serial, Disk(net, n), outcome.value)
    ensures NetInv(cs, Commit(net, n, outcome, f)) && Grows(net, Commit(net, n, outcome, f))
  {
    if !net.nodes[n].store.broken && outcome.Ok? { DeltaGood(cs, net, n, inp, outcome.value); }
    CommitKeeps(cs, net, n, outcome, f, inp);
  }

  // Releases.

  /** The deliveries of a consumption: distinct usable keys of the right role, with the bytes the node holds. */
  ghost predicate Consumes(s: State, role: Role, ids: seq<KeyID>, now: Time) {
    && Distinct(ids) && role != Relay
    && forall i :: 0 <= i < |ids| ==> ids[i] in s.keys && s.keys[ids[i]].role == role && Usable(s.keys[ids[i]], now)
  }

  /** Appending to the log disturbs nothing but the log. */
  lemma AppendKeeps(cs: Policies, net: Net, net': Net)
    requires NetInv(cs, net) && SameDisks(net, net') && net.log <= net'.log && LogGood(net')
    requires net'.sent == net.sent && net'.processed == net.processed && net'.nodes == net.nodes
    ensures NetInv(cs, net') && Grows(net, net')
  {
    QuietGrows(net, net');
    QuietPaths(net, net');
    QuietOutbox(net, net');
    QuietRecs(net, net');
    forall m | m in cs ensures NodeGood(cs[m], net', m) {
      assert NodeGood(cs[m], net, m);
      NodeElsewhere(cs[m], net, net', m);
    }
  }

  ghost predicate Released(net: Net, n: Peer, ids: seq<KeyID>) {
    forall i :: 0 <= i < |ids| ==> Has(net, n, ids[i]) && Rec(net, n, ids[i]).delivered
  }

  lemma LogOf(cs: Policies, net: Net)
    requires NetInv(cs, net)
    ensures LogGood(net)
  {
  }

  lemma LogKeeps(cs: Policies, net: Net, net1: Net, n: Peer, role: Role, ids: seq<KeyID>, ds: seq<Delivery>, now: Time)
    requires NetInv(cs, net) && NetInv(cs, net1) && Grows(net, net1) && n in cs && net1.log == net.log
    requires Consumes(Disk(net, n), role, ids, now) && Released(net1, n, ids)
    requires |ds| == |ids| && forall i :: 0 <= i < |ids| ==>
      ds[i] == Delivery(ids[i], Disk(net, n).keys[ids[i]].material)
    ensures LogGood(net1.(log := net1.log + Releases(n, role, ds, now)))
  {
    hide NetInv, Grows;
    var net' := net1.(log := net1.log + Releases(n, role, ds, now));
    QuietGrows(net1, net');
    GrowsTrans(net, net1, net');
    LogOf(cs, net);
    LogOf(cs, net1);
    var k := |net1.log|;
    forall i | 0 <= i < |net'.log| ensures ReleaseGood(net', i) {
      if i < k { assert ReleaseGood(net1, i); } else { NewRelease(cs, net, net', n, role, ids[i - k], now, i); }
    }
    forall i, j | 0 <= i < j < |net'.log| ensures net'.log[i].node != net'.log[j].node
      || net'.log[i].id != net'.log[j].id {
      if j >= k && i < k { assert ReleaseGood(net, i); }
    }
  }

  lemma NewRelease(cs: Policies, net: Net, net': Net, n: Peer, role: Role, id: KeyID, now: Time, i: nat)
    requires NetInv(cs, net) && Grows(net, net') && n in cs && i < |net'.log| && role != Relay
    requires Has(net, n, id) && Rec(net, n, id).role == role && Usable(Rec(net, n, id), now)
    requires Has(net', n, id) && Rec(net', n, id).delivered
    requires net'.log[i] == Release(n, role, id, Rec(net, n, id).material, now)
    ensures ReleaseGood(net', i)
  {
    assert NodeGood(cs[n], net, n);
    assert RecInv(cs[n], id, Rec(net, n, id));
    assert RecGood(net, n, id);
    assert Later(Rec(net, n, id), Rec(net', n, id));
  }

  lemma ConsumeKeeps(cs: Policies, net: Net, n: Peer, role: Role, r: Result<(State, seq<Delivery>)>, ids: seq<KeyID>,
        now: Time, f: Fault)
    requires NetInv(cs, net) && n in cs
    requires !net.nodes[n].store.broken && r.Ok? ==>
      && Inv(cs[n], r.value.0) && Delta(Consuming, Disk(net, n).serial, Disk(net, n), r.value.0)
      && Consumes(Working(Disk(net, n)), role, ids, now)
      && r.value.0 == DeliverAll(Working(Disk(net, n)), ids) && r.value.1 == Deliveries(Working(Disk(net, n)), ids)
    ensures NetInv(cs, Consume(net, n, role, r, now, f)) && Grows(net, Consume(net, n, role, r, now, f))
  {
    hide NetInv, Grows, Inv, Delta, LogGood, NodeGood, WorkerGood;
    NodeOf(cs, net, n);
    var net1 := Commit(net, n, First(r), f);
    LocalMoves(cs, net, n, Consuming, First(r), f);
    if Committed(net, n, First(r), f) {
      assert Disk(net1, n) == r.value.0;
      assert Released(net1, n, ids);
      LogKeeps(cs, net, net1, n, role, ids, r.value.1, now);
      AppendKeeps(cs, net1, Consume(net, n, role, r, now, f));
      GrowsTrans(net, net1, Consume(net, n, role, r, now, f));
    }
  }

  lemma ReservedFacts(c: Policy, s: State, a: Association, token: Option<nat>, now: Time)
    requires Inv(c, s) && ConsumeReservation(s, a, token, now).Ok?
    ensures var ids := Collect(Working(s), a, token.value, 0, now).value;
      Consumes(Working(s), Source, ids, now)
  {
    CollectedExist(Working(s), a, token.value, 0, now);
    CollectDistinct(Working(s), a, token.value, 0, now);
  }

  lemma ReservedKeeps(cs: Policies, net: Net, n: Peer, a: Association, token: Option<nat>, now: Time, f: Fault)
    requires NetInv(cs, net) && n in cs
    ensures n in net.nodes
    ensures var net' := Consume(net, n, Source, ConsumeReservation(net.nodes[n].store.live, a, token, now), now, f);
      NetInv(cs, net') && Grows(net, net')
  {
    NodeOf(cs, net, n);
    hide NetInv, Grows, Inv, Delta, NodeGood, Consume, Consumes;
    var s := net.nodes[n].store.live;
    var r := ConsumeReservation(s, a, token, now);
    var ids := [];
    if !net.nodes[n].store.broken && r.Ok? {
      LiveInv(cs, net, n);
      ConsumeReservationMoves(cs[n], s, a, token, now);
      ReservedFacts(cs[n], s, a, token, now);
      CollectedExist(Working(s), a, token.value, 0, now);
      ids := Collect(Working(s), a, token.value, 0, now).value;
    }
    ConsumeKeeps(cs, net, n, Source, r, ids, now, f);
  }

  lemma PeerFacts(c: Policy, s: State, a: Association, ids: seq<KeyID>, now: Time)
    requires ConsumePeer(c, s, a, ids, now).Ok?
    ensures Consumes(Working(s), Target, ids, now)
    ensures ConsumePeer(c, s, a, ids, now).value == (DeliverAll(Working(s), ids), Deliveries(Working(s), ids))
  {
    PeerChecked(Working(s), a, ids, 0, now);
  }

  lemma PeerKeysKeep(cs: Policies, net: Net, n: Peer, a: Association, ids: seq<KeyID>, now: Time, f: Fault)
    requires NetInv(cs, net) && n in cs
    ensures n in net.nodes
    ensures var net' := Consume(net, n, Target, ConsumePeer(cs[n], net.nodes[n].store.live, a, ids, now), now, f);
      NetInv(cs, net') && Grows(net, net')
  {
    NodeOf(cs, net, n);
    hide NetInv, Grows, Inv, Delta, NodeGood, Consume, Consumes;
    var s := net.nodes[n].store.live;
    var r := ConsumePeer(cs[n], s, a, ids, now);
    if !net.nodes[n].store.broken && r.Ok? {
      LiveInv(cs, net, n);
      ConsumePeerMoves(cs[n], s, a, ids, now);
      PeerFacts(cs[n], s, a, ids, now);
    }
    ConsumeKeeps(cs, net, n, Target, r, ids, now, f);
  }

  lemma LocalKeeps(cs: Policies, net: Net, l: Label)
    requires NetInv(cs, net) && (l.ReserveKeys? || l.ConsumeReserved? || l.ConsumePeerKeys? || l.InvalidateKey?
      || l.ExpireDue?)
    requires l.n in net.nodes && l.n in cs
    ensures var net' := ApplyLocal(cs, net, l); NetInv(cs, net') && Grows(net, net')
  {
    hide NetInv, Grows, Inv, Delta, NodeGood, Reserve, ConsumeReservation, ConsumePeer, Invalidate, Expire, Commit,
      Consume, Transact, ExtendPath;
    var s := net.nodes[l.n].store.live;
    if !net.nodes[l.n].store.broken { LiveInv(cs, net, l.n); }
    match l
    case ReserveKeys(n, a, count, now, f) =>
      if !net.nodes[n].store.broken && Reserve(cs[n], s, a, count, now).Ok? { ReserveMoves(cs[n], s, a, count, now); }
      LocalMoves(cs, net, n, Reserving(Disk(net, n).serial + 1), First(Reserve(cs[n], s, a, count, now)), f);
    case ConsumeReserved(n, a, token, now, f) => ReservedKeeps(cs, net, n, a, token, now, f);
    case ConsumePeerKeys(n, a, ids, now, f) => PeerKeysKeep(cs, net, n, a, ids, now, f);
    case InvalidateKey(n, id, f) =>
      if !net.nodes[n].store.broken && Invalidate(s, id).Ok? { InvalidateMoves(cs[n], s, id); }
      LocalMoves(cs, net, n, Internal, Invalidate(s, id), f);
    case ExpireDue(n, now, f) =>
      if !net.nodes[n].store.broken { ExpireMoves(cs[n], s, now); }
      LocalMoves(cs, net, n, Internal, Ok(Expire(Working(s), now)), f);
  }

  // The worker.

  lemma PickKeeps(cs: Policies, net: Net, n: Peer, id: KeyID)
    requires NetInv(cs, net) && n in cs && !net.nodes[n].store.broken && id in net.nodes[n].store.live.keys
    ensures var net' := SetWorker(net, n, Picked(id, net.nodes[n].store.live.keys[id]));
      NetInv(cs, net') && Grows(net, net')
  {
    hide NetInv, Grows, Inv, NodeGood, WorkerGood;
    NodeOf(cs, net, n);
    LiveInv(cs, net, n);
    PickedGood(cs[n], net, n, id);
    SetWorkerKeeps(cs, net, n, Picked(id, net.nodes[n].store.live.keys[id]));
  }

  /** A copy of the journaled record is a good thing to have at hand. */
  lemma PickedGood(c: Policy, net: Net, n: Peer, id: KeyID)
    requires n in net.nodes && net.nodes[n].store.live == Disk(net, n) && Inv(c, Disk(net, n))
    requires !net.nodes[n].store.broken && id in net.nodes[n].store.live.keys
    ensures WorkerGood(c, SetWorker(net, n, Picked(id, net.nodes[n].store.live.keys[id])), n)
  {
  }

  lemma PostVoidKeeps(cs: Policies, net: Net, n: Peer, to: Peer)
    requires NetInv(cs, net) && n in cs && n in net.nodes && net.nodes[n].worker.Picked?
    requires var was := net.nodes[n].worker.snapshot; was.voiding && to in was.voidPending
    ensures var w := net.nodes[n].worker;
      MsgGood(net, VoidMsg(n, to, VoidOf(cs[n], w.id, to, w.snapshot)))
  {
    assert NodeGood(cs[n], net, n);
    assert WorkerGood(cs[n], net, n);
    assert RecInv(cs[n], net.nodes[n].worker.id, net.nodes[n].worker.snapshot);
  }

  lemma PostTransferKeeps(cs: Policies, net: Net, n: Peer)
    requires NetInv(cs, net) && n in cs && net.nodes[n].worker.Posting?
    ensures var w := net.nodes[n].worker;
      MsgGood(net, TransferMsg(n, w.to, TransferOf(cs[n], w.id, w.to, w.snapshot)))
  {
    assert NodeGood(cs[n], net, n);
    var w := net.nodes[n].worker;
    assert WorkerGood(cs[n], net, n);
    assert RecInv(cs[n], w.id, w.snapshot);
    assert RecGood(net, n, w.id);
  }

  lemma IdleKeeps(cs: Policies, net: Net, n: Peer)
    requires NetInv(cs, net) && n in cs
    ensures NetInv(cs, SetWorker(net, n, Idle)) && Grows(net, SetWorker(net, n, Idle))
  {
    SetWorkerKeeps(cs, net, n, Idle);
  }

  lemma CommitToGood(cs: Policies, net: Net, n: Peer, id: KeyID, was: Record, to: Peer, now: Time)
    requires NetInv(cs, net) && n in cs && !net.nodes[n].store.broken && net.nodes[n].worker == Idle
    requires Has(net, n, id) && SnapshotOf(cs[n], id, was, Rec(net, n, id)) && MaySend(was, to)
    requires CommitSend(Working(Disk(net, n)), id, to, now).Ok?
    ensures GoodOutcome(cs, net, n, Sending(to), CommitSend(Working(Disk(net, n)), id, to, now).value)
  {
    LiveInv(cs, net, n);
    CommitSendMoves(cs[n], Disk(net, n), id, to, now);
    DeltaGood(cs, net, n, Sending(to), CommitSend(Working(Disk(net, n)), id, to, now).value);
  }

  lemma CommitIdle(cs: Policies, net: Net, n: Peer, to: Peer, now: Time, f: Fault)
    requires NetInv(cs, net) && n in cs && n in net.nodes && net.nodes[n].worker.Picked?
      && MaySend(net.nodes[n].worker.snapshot, to)
    requires net.nodes[n].worker.id in net.nodes[n].store.live.keys
    ensures var net' := Commit(SetWorker(net, n, Idle), n,
      CommitSend(Working(net.nodes[n].store.live), net.nodes[n].worker.id, to, now), f);
      NetInv(cs, net') && Grows(net, net')
  {
    var id := net.nodes[n].worker.id;
    var idle := SetWorker(net, n, Idle);
    var outcome := CommitSend(Working(net.nodes[n].store.live), id, to, now);
    IdleKeeps(cs, net, n);
    if !net.nodes[n].store.broken && outcome.Ok? {
      LiveInv(cs, net, n);
      PickedIs(cs, net, n);
      CommitToGood(cs, idle, n, id, net.nodes[n].worker.snapshot, to, now);
    }
    CommitKeeps(cs, idle, n, outcome, f, Sending(to));
    GrowsTrans(net, idle, Commit(idle, n, outcome, f));
  }

  lemma CommitToKeeps(cs: Policies, net: Net, n: Peer, to: Peer, now: Time, f: Fault)
    requires NetInv(cs, net) && n in cs && n in net.nodes && net.nodes[n].worker.Picked?
      && MaySend(net.nodes[n].worker.snapshot, to)
    requires net.nodes[n].worker.id in net.nodes[n].store.live.keys
    ensures var net' := ApplySend(cs, net, CommitTo(n, to, now, f)); NetInv(cs, net') && Grows(net, net')
  {
    hide NetInv, Grows, SnapshotOf, ExtendPath, WorkerGood;
    var id, was := net.nodes[n].worker.id, net.nodes[n].worker.snapshot;
    var outcome := CommitSend(Working(net.nodes[n].store.live), id, to, now);
    var net1 := Commit(SetWorker(net, n, Idle), n, outcome, f);
    CommitIdle(cs, net, n, to, now, f);
    if Committed(net, n, outcome, f) {
      PickedIs(cs, net, n);
      PostingGood(cs, net, net1, n, id, was, to);
      SetWorkerKeeps(cs, net1, n, Posting(id, to, was));
      GrowsTrans(net, net1, SetWorker(net1, n, Posting(id, to, was)));
      assert ApplySend(cs, net, CommitTo(n, to, now, f)) == SetWorker(net1, n, Posting(id, to, was));
    } else {
      assert ApplySend(cs, net, CommitTo(n, to, now, f)) == net1;
    }
  }

  lemma PickedIs(cs: Policies, net: Net, n: Peer)
    requires NetInv(cs, net) && n in cs && n in net.nodes && net.nodes[n].worker.Picked?
    ensures var w := net.nodes[n].worker; Has(net, n, w.id) && SnapshotOf(cs[n], w.id, w.snapshot, Rec(net, n, w.id))
  {
    assert NodeGood(cs[n], net, n);
    assert WorkerGood(cs[n], net, n);
  }

  lemma PostingGood(cs: Policies, net: Net, net1: Net, n: Peer, id: KeyID, was: Record, to: Peer)
    requires Has(net, n, id) && n in cs && SnapshotOf(cs[n], id, was, Rec(net, n, id)) && MaySend(was, to)
    requires Grows(net, net1) && Has(net1, n, id) && Rec(net1, n, id).sent && Rec(net1, n, id).next == to
    ensures WorkerGood(cs[n], SetWorker(net1, n, Posting(id, to, was)), n)
  {
    assert Later(Rec(net, n, id), Rec(net1, n, id));
  }

  lemma DeferCommits(cs: Policies, net: Net, n: Peer, id: KeyID, now: Time, f: Fault)
    requires NetInv(cs, net) && n in cs && id in net.nodes[n].store.live.keys
    ensures var net' := Commit(net, n, Ok(Defer(Working(net.nodes[n].store.live), id, now)), f);
      NetInv(cs, net') && Grows(net, net')
  {
    if !net.nodes[n].store.broken {
      LiveInv(cs, net, n);
      DeferMoves(cs[n], net.nodes[n].store.live, id, now);
    }
    LocalMoves(cs, net, n, Internal, Ok(Defer(Working(net.nodes[n].store.live), id, now)), f);
  }

  lemma DeferKeeps(cs: Policies, net: Net, n: Peer, now: Time, f: Fault)
    requires NetInv(cs, net) && n in cs && n in net.nodes && net.nodes[n].worker.Picked?
      && net.nodes[n].worker.id in net.nodes[n].store.live.keys
    ensures var net' := ApplySend(cs, net, DeferKey(n, now, f)); NetInv(cs, net') && Grows(net, net')
  {
    hide NetInv, Grows, Defer, NodeGood, WorkerGood;
    var id := net.nodes[n].worker.id;
    NodeOf(cs, net, n);
    DeferCommits(cs, net, n, id, now, f);
    var net1 := Commit(net, n, Ok(Defer(Working(net.nodes[n].store.live), id, now)), f);
    IdleKeeps(cs, net1, n);
    GrowsTrans(net, net1, SetWorker(net1, n, Idle));
  }

  lemma PostedKeeps(cs: Policies, net: Net, n: Peer)
    requires NetInv(cs, net) && n in cs && n in net.nodes && net.nodes[n].worker.Posting?
    ensures var net' := ApplySend(cs, net, PostTransfer(n)); NetInv(cs, net') && Grows(net, net')
  {
    hide NetInv, Grows, MsgGood, TransferOf;
    var w := net.nodes[n].worker;
    PostTransferKeeps(cs, net, n);
    var m := TransferMsg(n, w.to, TransferOf(cs[n], w.id, w.to, w.snapshot));
    SendKeeps(cs, net, m);
    var net1 := net.(sent := net.sent + {m});
    IdleKeeps(cs, net1, n);
    GrowsTrans(net, net1, SetWorker(net1, n, Idle));
  }

  lemma PickStepKeeps(cs: Policies, net: Net, n: Peer, id: KeyID, now: Time)
    requires NetInv(cs, net) && n in net.nodes && n in cs
    ensures var net' := ApplySend(cs, net, Pick(n, id, now)); NetInv(cs, net') && Grows(net, net')
  {
    hide NetInv, Grows;
    QuietGrows(net, net);
    if !net.nodes[n].store.broken && id in net.nodes[n].store.live.keys { PickKeeps(cs, net, n, id); }
  }

  lemma VoidStepKeeps(cs: Policies, net: Net, n: Peer, to: Peer)
    requires NetInv(cs, net) && n in net.nodes && n in cs
    ensures var net' := ApplySend(cs, net, PostVoid(n, to)); NetInv(cs, net') && Grows(net, net')
  {
    hide NetInv, Grows, VoidOf;
    QuietGrows(net, net);
    var w := net.nodes[n].worker;
    if w.Picked? && w.snapshot.voiding && to in w.snapshot.voidPending {
      PostVoidKeeps(cs, net, n, to);
      SendKeeps(cs, net, VoidMsg(n, to, VoidOf(cs[n], w.id, to, w.snapshot)));
    }
  }

  lemma DeferStepKeeps(cs: Policies, net: Net, n: Peer, now: Time, f: Fault)
    requires NetInv(cs, net) && n in net.nodes && n in cs
    ensures var net' := ApplySend(cs, net, DeferKey(n, now, f)); NetInv(cs, net') && Grows(net, net')
  {
    hide NetInv, Grows, Commit, Defer;
    QuietGrows(net, net);
    var node := net.nodes[n];
    if node.worker.Picked? && node.worker.id in node.store.live.keys { DeferKeeps(cs, net, n, now, f); }
  }

  lemma CommitStepKeeps(cs: Policies, net: Net, n: Peer, to: Peer, now: Time, f: Fault)
    requires NetInv(cs, net) && n in net.nodes && n in cs
    ensures var net' := ApplySend(cs, net, CommitTo(n, to, now, f)); NetInv(cs, net') && Grows(net, net')
  {
    hide NetInv, Grows, Commit, CommitSend, MaySend;
    QuietGrows(net, net);
    var node := net.nodes[n];
    if node.worker.Picked? && MaySend(node.worker.snapshot, to) && node.worker.id in node.store.live.keys {
      CommitToKeeps(cs, net, n, to, now, f);
    }
  }

  lemma PostStepKeeps(cs: Policies, net: Net, n: Peer)
    requires NetInv(cs, net) && n in net.nodes && n in cs
    ensures var net' := ApplySend(cs, net, PostTransfer(n)); NetInv(cs, net') && Grows(net, net')
  {
    hide NetInv, Grows;
    QuietGrows(net, net);
    if net.nodes[n].worker.Posting? { PostedKeeps(cs, net, n); }
  }

  lemma DropStepKeeps(cs: Policies, net: Net, n: Peer)
    requires NetInv(cs, net) && n in net.nodes && n in cs
    ensures var net' := ApplySend(cs, net, Drop(n)); NetInv(cs, net') && Grows(net, net')
  {
    hide NetInv, Grows;
    IdleKeeps(cs, net, n);
  }

  lemma SendStepKeeps(cs: Policies, net: Net, l: Label)
    requires NetInv(cs, net) && (l.Pick? || l.PostVoid? || l.DeferKey? || l.CommitTo? || l.PostTransfer? || l.Drop?)
    requires l.n in net.nodes && l.n in cs
    ensures var net' := ApplySend(cs, net, l); NetInv(cs, net') && Grows(net, net')
  {
    hide NetInv, Grows, ApplySend;
    match l
    case Pick(n, id, now) => PickStepKeeps(cs, net, n, id, now);
    case PostVoid(n, to) => VoidStepKeeps(cs, net, n, to);
    case DeferKey(n, now, f) => DeferStepKeeps(cs, net, n, now, f);
    case CommitTo(n, to, now, f) => CommitStepKeeps(cs, net, n, to, now, f);
    case PostTransfer(n) => PostStepKeeps(cs, net, n);
    case Drop(n) => DropStepKeeps(cs, net, n);
  }

  // The outbox and crashes.

  lemma FinishGood(cs: Policies, net: Net, n: Peer, j: JobID)
    requires NetInv(cs, net) && n in cs && !net.nodes[n].store.broken && j in net.nodes[n].jobs
    requires AckMsg(n, net.nodes[n].jobs[j].peer, net.nodes[n].jobs[j].ack) in net.processed
    ensures GoodOutcome(cs, net, n, Internal, AckSent(Working(Disk(net, n)), j))
  {
    LiveInv(cs, net, n);
    assert NodeGood(cs[n], net, n);
    assert JobGood(net, n, j, net.nodes[n].jobs[j]);
    var d := Disk(net, n);
    var s' := AckSent(Working(d), j);
    AckSentMoves(cs[n], d, j);
    forall id, p | id in s'.keys && p in OwedPeers(s'.keys[id])
      ensures StillOwed(d, s', id, p) || Acked(net, n, p, id, CurrentStatus(s'.keys[id]))
    {
      if !StillOwed(d, s', id, p) {
        var m := AckMsg(n, net.nodes[n].jobs[j].peer, net.nodes[n].jobs[j].ack);
        assert m in net.processed && m.to == p && id in m.ack.ids && m.ack.status == CurrentStatus(s'.keys[id]);
      }
    }
  }

  lemma FinishKeeps(cs: Policies, net: Net, n: Peer, j: JobID, ok: bool, now: Time, f: Fault)
    requires NetInv(cs, net) && n in cs && n in net.nodes && j in net.nodes[n].jobs
    requires ok ==> AckMsg(n, net.nodes[n].jobs[j].peer, net.nodes[n].jobs[j].ack) in net.processed
    ensures var s := net.nodes[n].store.live;
      var net' := Commit(net, n, Ok(if ok then AckSent(Working(s), j) else AckFailed(Working(s), j, now)), f);
        NetInv(cs, net') && Grows(net, net')
  {
    hide NetInv, Grows, Inv, Delta, NodeGood, JobGood, AckSent, AckFailed, Commit, GoodOutcome;
    var s := net.nodes[n].store.live;
    if !net.nodes[n].store.broken {
      LiveInv(cs, net, n);
      if ok { FinishGood(cs, net, n, j); }
      else { AckFailedMoves(cs[n], s, j, now); DeltaGood(cs, net, n, Internal, AckFailed(Working(s), j, now)); }
    }
    CommitKeeps(cs, net, n, Ok(if ok then AckSent(Working(s), j) else AckFailed(Working(s), j, now)), f, Internal);
  }

  lemma ReopenKeeps(cs: Policies, net: Net, n: Peer, f: Fault)
    requires NetInv(cs, net) && n in cs && n in net.nodes
    ensures var net' := Commit(Crashed(net, n), n, Ok(Working(Disk(net, n))), f); NetInv(cs, net') && Grows(net, net')
  {
    hide NetInv, Grows, Inv, Delta, NodeGood, Commit;
    CrashKeeps(cs, net, n);
    var net1 := Crashed(net, n);
    LiveInv(cs, net1, n);
    WorkingDelta(cs[n], Internal, Disk(net, n));
    LocalMoves(cs, net1, n, Internal, Ok(Working(Disk(net, n))), f);
    GrowsTrans(net, net1, Commit(net1, n, Ok(Working(Disk(net, n))), f));
  }

  lemma JobSays(cs: Policies, net: Net, n: Peer, j: JobID)
    requires NetInv(cs, net) && n in cs && n in net.nodes && j in net.nodes[n].jobs
    ensures MsgGood(net, AckMsg(n, net.nodes[n].jobs[j].peer, net.nodes[n].jobs[j].ack))
  {
    NodeOf(cs, net, n);
    assert JobGood(net, n, j, net.nodes[n].jobs[j]);
  }

  lemma CopyStepKeeps(cs: Policies, net: Net, n: Peer)
    requires NetInv(cs, net) && n in net.nodes && n in cs
    ensures var net' := ApplyOutbox(net, CopyOutbox(n)); NetInv(cs, net') && Grows(net, net')
  {
    hide NetInv, Grows;
    CopyKeeps(cs, net, n);
  }

  lemma PostAckKeeps(cs: Policies, net: Net, n: Peer, j: JobID, now: Time)
    requires NetInv(cs, net) && n in net.nodes && n in cs
    ensures var net' := ApplyOutbox(net, PostAck(n, j, now)); NetInv(cs, net') && Grows(net, net')
  {
    hide NetInv, Grows, NodeGood, JobGood;
    NodeOf(cs, net, n);
    QuietGrows(net, net);
    if j in net.nodes[n].jobs && net.nodes[n].jobs[j].retry <= now {
      JobSays(cs, net, n, j);
      SendKeeps(cs, net, AckMsg(n, net.nodes[n].jobs[j].peer, net.nodes[n].jobs[j].ack));
    }
  }

  lemma FinishStepKeeps(cs: Policies, net: Net, n: Peer, j: JobID, ok: bool, now: Time, f: Fault)
    requires NetInv(cs, net) && n in net.nodes && n in cs
    ensures var net' := ApplyOutbox(net, FinishAck(n, j, ok, now, f)); NetInv(cs, net') && Grows(net, net')
  {
    hide NetInv, Grows, Commit, AckSent, AckFailed;
    QuietGrows(net, net);
    var jobs := net.nodes[n].jobs;
    if j in jobs && (ok ==> AckMsg(n, jobs[j].peer, jobs[j].ack) in net.processed) {
      FinishKeeps(cs, net, n, j, ok, now, f);
    }
  }

  lemma ReopenStepKeeps(cs: Policies, net: Net, n: Peer, f: Fault)
    requires NetInv(cs, net) && n in net.nodes && n in cs
    ensures var net' := ApplyOutbox(net, Reopen(n, f)); NetInv(cs, net') && Grows(net, net')
  {
    hide NetInv, Grows, Commit;
    ReopenKeeps(cs, net, n, f);
  }

  lemma OutboxStepKeeps(cs: Policies, net: Net, l: Label)
    requires NetInv(cs, net) && (l.CopyOutbox? || l.PostAck? || l.FinishAck? || l.Reopen?)
    requires l.n in net.nodes && l.n in cs
    ensures var net' := ApplyOutbox(net, l); NetInv(cs, net') && Grows(net, net')
  {
    hide NetInv, Grows, ApplyOutbox;
    match l
    case CopyOutbox(n) => CopyStepKeeps(cs, net, n);
    case PostAck(n, j, now) => PostAckKeeps(cs, net, n, j, now);
    case FinishAck(n, j, ok, now, f) => FinishStepKeeps(cs, net, n, j, ok, now, f);
    case Reopen(n, f) => ReopenStepKeeps(cs, net, n, f);
  }

  /** One step: the invariant is kept and nothing committed is taken back. */
  lemma StepKeeps(cs: Policies, net: Net, l: Label)
    requires ValidPolicies(cs) && NetInv(cs, net)
    ensures NetInv(cs, Apply(cs, net, l)) && Grows(net, Apply(cs, net, l))
  {
    hide NetInv, Grows, ApplyDeliver, ApplyStore, ApplyOutbox, ApplyLocal, ApplySend;
    if l.Deliver? { DeliverKeeps(cs, net, l.m, l.now, l.f); }
    else if l.n !in net.nodes || l.n !in cs { QuietGrows(net, net); }
    else if l.Store? { StoreKeeps(cs, net, l.n, l.key, l.now, l.f); }
    else if l.CopyOutbox? || l.PostAck? || l.FinishAck? || l.Reopen? { OutboxStepKeeps(cs, net, l); }
    else if l.ReserveKeys? || l.ConsumeReserved? || l.ConsumePeerKeys? || l.InvalidateKey? || l.ExpireDue? {
      LocalKeeps(cs, net, l);
    }
    else { SendStepKeeps(cs, net, l); }
  }

  lemma InitInv(cs: Policies)
    ensures NetInv(cs, Init(cs))
  {
    forall n | n in cs ensures NodeGood(cs[n], Init(cs), n) { EmptyInv(cs[n]); }
  }

  /** Every run ends in a network satisfying the invariant. */
  lemma {:induction false} RunKeeps(cs: Policies, labels: seq<Label>)
    requires ValidPolicies(cs)
    ensures NetInv(cs, Run(cs, labels))
  {
    if labels == [] {
      InitInv(cs);
    } else {
      RunKeeps(cs, labels[..|labels| - 1]);
      StepKeeps(cs, Run(cs, labels[..|labels| - 1]), labels[|labels| - 1]);
    }
  }

  /** What a run has committed stays committed however the run goes on. */
  lemma {:induction false} RunGrows(cs: Policies, labels: seq<Label>, more: seq<Label>)
    requires ValidPolicies(cs)
    ensures Grows(Run(cs, labels), Run(cs, labels + more))
  {
    hide NetInv, Grows;
    if more == [] {
      assert labels + more == labels;
      QuietGrows(Run(cs, labels), Run(cs, labels));
    } else {
      var all := labels + more;
      var before := labels + more[..|more| - 1];
      assert all[..|all| - 1] == before;
      RunGrows(cs, labels, more[..|more| - 1]);
      RunKeeps(cs, before);
      StepKeeps(cs, Run(cs, before), all[|all| - 1]);
      GrowsTrans(Run(cs, labels), Run(cs, before), Run(cs, all));
    }
  }
}
