/** One node's committed transaction keeps the network invariant, whatever caused it. */
module RelayMoves {
  import opened Core
  import opened Peering
  import opened Etsi020
  import opened RelayState
  import opened RelayInvariant
  import opened RelayNetwork
  import opened RelayTrace

  /** The cause of a transaction is a message that was sent, or a key stored for the first time. */
  ghost predicate Justified(net: Net, n: Peer, inp: Input) {
    match inp
    case Storing(k) => k.id in net.origin && net.origin[k.id] == Origin(n, k.pair, k.material) && k.id !in net.path
    case Reserving(token) => n in net.nodes && token > Disk(net, n).serial
    case FromTransfer(p, t) => TransferMsg(p, n, t) in net.sent
    case FromAcks(p, acks) => |acks| == 1 && AckMsg(p, n, acks[0]) in net.sent
    case FromVoid(p, v) => VoidMsg(p, n, v) in net.sent
    case _ => true
  }

  /** Node n's journal moved for a justified cause; nothing else changed. */
  ghost predicate Moved(cs: Policies, net: Net, net': Net, n: Peer, inp: Input) {
    && n in cs && n in net.nodes && n in net'.nodes
    && net'.nodes == net.nodes[n := net.nodes[n].(store := net'.nodes[n].store)]
    && net'.nodes[n].store.live == (if net'.nodes[n].store.broken then net.nodes[n].store.live else Disk(net', n))
    && net'.sent == net.sent && net'.processed == net.processed && net'.origin == net.origin && net'.log == net.log
    && net'.path == ExtendPath(net.path, n, Disk(net, n), Disk(net', n))
    && Inv(cs[n], Disk(net', n))
    && KeysStep(inp, Disk(net, n), Disk(net', n))
    && JobsFrom(Disk(net, n).serial, Disk(net, n), Disk(net', n))
    && Disk(net, n).serial <= Disk(net', n).serial
    && Justified(net, n, inp)
    && (inp.Sending? ==> net.nodes[n].worker == Idle)
  }

  lemma MovedElsewhere(cs: Policies, net: Net, net': Net, n: Peer, inp: Input, m: Peer, id: KeyID)
    requires Moved(cs, net, net', n, inp) && m != n
    ensures Has(net', m, id) <==> Has(net, m, id)
    ensures Has(net, m, id) ==> Rec(net', m, id) == Rec(net, m, id)
  {
  }

  lemma MovedHere(cs: Policies, net: Net, net': Net, n: Peer, inp: Input, id: KeyID)
    requires Moved(cs, net, net', n, inp)
    ensures Has(net, n, id) ==> Has(net', n, id) && RecStep(inp, id, Rec(net, n, id), Rec(net', n, id))
    ensures Has(net', n, id) && !Has(net, n, id) ==> NewRec(inp, id, Rec(net', n, id))
  {
  }

  lemma MovedGrows(cs: Policies, net: Net, net': Net, n: Peer, inp: Input)
    requires Moved(cs, net, net', n, inp)
    ensures Grows(net, net')
  {
    assert net'.nodes.Keys == net.nodes.Keys;
    forall m, id | Has(net, m, id) ensures Has(net', m, id) && Later(Rec(net, m, id), Rec(net', m, id)) {
      if m == n {
        MovedHere(cs, net, net', n, inp, id);
        StepIsLater(inp, id, Rec(net, n, id), Rec(net', n, id));
      } else {
        MovedElsewhere(cs, net, net', n, inp, m, id);
        LaterRefl(Rec(net, m, id));
      }
    }
    assert FreshTokens(Disk(net, n), Disk(net', n)) by {
      forall id | id in Disk(net', n).keys ensures id in Disk(net, n).keys || Disk(net', n).keys[id].token == None {
        MovedHere(cs, net, net', n, inp, id);
      }
    }
  }

  // Records.

  lemma StepGood(net: Net, net': Net, n: Peer, inp: Input, id: KeyID)
    requires Grows(net, net') && Has(net, n, id) && Has(net', n, id) && RecGood(net, n, id)
    requires RecStep(inp, id, Rec(net, n, id), Rec(net', n, id))
    requires Justified(net, n, inp) && (inp.FromAcks? ==> MsgGood(net, AckMsg(inp.peer, n, inp.acks[0])))
    ensures RecGood(net', n, id)
  {
    var r, r' := Rec(net, n, id), Rec(net', n, id);
    assert Agrees(net', n, id) by { hide MsgGood, Justified; }
    if r'.ready {
      assert Reached(net, id);
      ReachedGrows(net, net', id);
    }
    if r'.voiding && r'.sent && r'.next !in r'.voidPending && !r'.voidFailed && r'.next !in r'.voidRequests {
      ConfirmedSaid(net, net', n, inp, id);
    }
  }

  /** A confirmation that neither failed nor came with a request of its own was said by the next hop. */
  lemma ConfirmedSaid(net: Net, net': Net, n: Peer, inp: Input, id: KeyID)
    requires net.sent <= net'.sent && Has(net, n, id) && Has(net', n, id) && VoidGood(net, n, id)
      && Justified(net, n, inp)
    requires RecStep(inp, id, Rec(net, n, id), Rec(net', n, id))
    requires var r' := Rec(net', n, id);
      r'.voiding && r'.sent && r'.next !in r'.voidPending && !r'.voidFailed && r'.next !in r'.voidRequests
    ensures Said(net', Rec(net', n, id).next, id)
  {
    var r, r' := Rec(net, n, id), Rec(net', n, id);
    assert r'.next == r.next;
    if r.voiding && r.next !in r.voidPending {
      SaidGrows(net, net', r.next, id);
    } else {
      assert NextConfirmed(inp, id, r');
      hide RecStep;
      var m := AckMsg(inp.peer, n, inp.acks[0]);
      assert m in net'.sent && Gone(m.ack.status) && id in m.ack.ids;
    }
  }

  lemma NewGood(net: Net, net': Net, n: Peer, inp: Input, id: KeyID)
    requires Grows(net, net') && Has(net', n, id) && NewRec(inp, id, Rec(net', n, id))
    requires Justified(net, n, inp)
    requires inp.FromTransfer? ==>
      MsgGood(net, TransferMsg(inp.peer, n, inp.transfer)) && Agrees(net, inp.peer, inp.transfer.keys[0].id)
    requires inp.FromVoid? ==>
      MsgGood(net, VoidMsg(inp.peer, n, inp.request)) && Agrees(net, inp.peer, inp.request.ids[0])
    ensures RecGood(net', n, id)
  {
    var r := Rec(net', n, id);
    if r.ready { assert Reached(net', id) by { assert Has(net', n, id) && r.role == Target && !r.unknown; } }
  }

  lemma MsgAgrees(cs: Policies, net: Net, m: Msg)
    requires NetInv(cs, net) && m in net.sent
    ensures MsgGood(net, m)
    ensures m.TransferMsg? ==> Agrees(net, m.from, m.transfer.keys[0].id)
    ensures m.VoidMsg? ==> Agrees(net, m.from, m.request.ids[0])
  {
    assert MsgGood(net, m);
    if m.TransferMsg? { assert RecGood(net, m.from, m.transfer.keys[0].id); }
    if m.VoidMsg? { assert RecGood(net, m.from, m.request.ids[0]); }
  }

  lemma RecsOf(cs: Policies, net: Net)
    requires NetInv(cs, net)
    ensures RecsGood(net)
  {
  }

  lemma MovedRecs(cs: Policies, net: Net, net': Net, n: Peer, inp: Input)
    requires NetInv(cs, net) && Moved(cs, net, net', n, inp)
    ensures RecsGood(net')
  {
    hide NetInv, MsgGood, Grows, RecGood, NewRec, RecStep;
    RecsOf(cs, net);
    MovedGrows(cs, net, net', n, inp);
    if inp.FromTransfer? { MsgAgrees(cs, net, TransferMsg(inp.peer, n, inp.transfer)); }
    if inp.FromAcks? { MsgAgrees(cs, net, AckMsg(inp.peer, n, inp.acks[0])); }
    if inp.FromVoid? { MsgAgrees(cs, net, VoidMsg(inp.peer, n, inp.request)); }
    forall m, id | Has(net', m, id) ensures RecGood(net', m, id) {
      if m != n {
        MovedElsewhere(cs, net, net', n, inp, m, id);
        assert RecGood(net, m, id);
        RecGrows(net, net', m, id);
      } else {
        MovedHere(cs, net, net', n, inp, id);
        if Has(net, n, id) {
          assert RecGood(net, n, id);
          StepGood(net, net', n, inp, id);
        } else {
          NewGood(net, net', n, inp, id);
        }
      }
    }
  }

  lemma GrownMsgs(net: Net, net': Net)
    requires MsgsGood(net) && Grows(net, net') && net'.sent == net.sent
    ensures MsgsGood(net')
  {
    forall m | m in net'.sent ensures MsgGood(net', m) {
      assert MsgGood(net, m);
      MsgGrows(net, net', m);
    }
  }

  // Nodes.

  lemma WorkerGrows(c: Policy, net: Net, net': Net, n: Peer)
    requires n in net.nodes && n in net'.nodes && WorkerGood(c, net, n) && Grows(net, net')
    requires net'.nodes[n].worker == net.nodes[n].worker
    requires forall id :: Has(net, n, id) && net.nodes[n].worker.Picked? ==>
      Rec(net', n, id).sent == Rec(net, n, id).sent && Rec(net', n, id).next == Rec(net, n, id).next
    ensures WorkerGood(c, net', n)
  {
    match net.nodes[n].worker
    case Idle =>
    case Picked(id, was) => assert Later(Rec(net, n, id), Rec(net', n, id));
    case Posting(id, to, was) => assert Later(Rec(net, n, id), Rec(net', n, id));
  }

  lemma JobsMove(cs: Policies, net: Net, net': Net, n: Peer, inp: Input, jobs: map<JobID, Job>)
    requires Moved(cs, net, net', n, inp) && Grows(net, net') && JobsGood(net, n, jobs)
    ensures JobsGood(net', n, jobs)
  {
    forall j | j in jobs ensures JobGood(net', n, j, jobs[j]) {
      assert JobGood(net, n, j, jobs[j]);
      AckGrows(net, net', n, jobs[j].ack);
    }
  }

  /** Where a journal stays, so do the results the process has in mind. */
  lemma JobsStayGood(net: Net, net': Net, n: Peer, jobs: map<JobID, Job>)
    requires n in net.nodes && n in net'.nodes && Disk(net', n) == Disk(net, n) && Grows(net, net')
    requires JobsGood(net, n, jobs)
    ensures JobsGood(net', n, jobs)
  {
    forall j | j in jobs ensures JobGood(net', n, j, jobs[j]) {
      assert JobGood(net, n, j, jobs[j]);
      AckGrows(net, net', n, jobs[j].ack);
    }
  }

  lemma NodeElsewhere(c: Policy, net: Net, net': Net, m: Peer)
    requires m in net.nodes && m in net'.nodes && net'.nodes[m] == net.nodes[m] && Grows(net, net')
      && NodeGood(c, net, m)
    ensures NodeGood(c, net', m)
  {
    hide JobsGood, WorkerGood, Grows;
    WorkerGrows(c, net, net', m);
    JobsStayGood(net, net', m, net.nodes[m].jobs);
    if net.nodes[m].store.broken { JobsStayGood(net, net', m, net.nodes[m].store.live.acks); }
  }

  /** A pending result says only what the record warrants. */
  lemma PendingGood(cs: Policies, net: Net, n: Peer, j: JobID)
    requires NetInv(cs, net) && n in cs && n in net.nodes && j in Disk(net, n).acks
    ensures AckGood(net, n, Disk(net, n).acks[j].ack) && j.serial <= Disk(net, n).serial
  {
    assert NodeGood(cs[n], net, n);
    var d := Disk(net, n);
    JobFacts(cs[n], d, j);
    if d.acks[j].ack.ids != [] {
      assert RecGood(net, n, d.acks[j].ack.ids[0]);
      hide NetInv, NodeGood, Inv;
      ReportGood(cs[n], net, n, j, d.acks[j].ack.ids[0]);
    }
  }

  lemma ReportGood(c: Policy, net: Net, n: Peer, j: JobID, id: KeyID)
    requires Has(net, n, id) && j in Disk(net, n).acks && Disk(net, n).acks[j].ack.ids == [id]
    requires JobInv(c, Disk(net, n), j) && RecInv(c, id, Rec(net, n, id)) && RecGood(net, n, id)
    ensures AckGood(net, n, Disk(net, n).acks[j].ack)
  {
  }

  lemma JobFacts(c: Policy, d: State, j: JobID)
    requires Inv(c, d) && j in d.acks
    ensures JobInv(c, d, j) && (d.acks[j].ack.ids != [] ==>
      d.acks[j].ack.ids[0] in d.keys && RecInv(c, d.acks[j].ack.ids[0], d.keys[d.acks[j].ack.ids[0]]))
  {
    hide RecInv;
    assert JobInv(c, d, j);
  }

  /** The state in memory, whether or not it is the journaled one. */
  lemma InMind(cs: Policies, net: Net, n: Peer)
    requires NetInv(cs, net) && n in cs && n in net.nodes
    ensures Inv(cs[n], net.nodes[n].store.live) && JobsGood(net, n, net.nodes[n].store.live.acks)
  {
    assert NodeGood(cs[n], net, n);
    hide NetInv, Inv, WorkerGood, AckGood;
    if !net.nodes[n].store.broken {
      forall j | j in Disk(net, n).acks ensures JobGood(net, n, j, Disk(net, n).acks[j]) { PendingGood(cs, net, n, j); }
    }
  }

  lemma MovedNode(cs: Policies, net: Net, net': Net, n: Peer, inp: Input)
    requires NetInv(cs, net) && Moved(cs, net, net', n, inp)
    ensures NodeGood(cs[n], net', n)
  {
    MovedGrows(cs, net, net', n, inp);
    InMind(cs, net, n);
    assert NodeGood(cs[n], net, n);
    hide NetInv, Inv, JobsGood;
    forall id | Has(net, n, id) && net.nodes[n].worker.Picked?
      ensures Rec(net', n, id).sent == Rec(net, n, id).sent && Rec(net', n, id).next == Rec(net, n, id).next
    {
      MovedHere(cs, net, net', n, inp, id);
    }
    WorkerGrows(cs[n], net, net', n);
    JobsMove(cs, net, net', n, inp, net.nodes[n].jobs);
    JobsMove(cs, net, net', n, inp, net.nodes[n].store.live.acks);
    hide WorkerGood, Grows, KeysStep, JobsFrom, Justified;
  }

  lemma MovedNodes(cs: Policies, net: Net, net': Net, n: Peer, inp: Input)
    requires NetInv(cs, net) && Moved(cs, net, net', n, inp)
    ensures NodesGood(cs, net')
  {
    MovedGrows(cs, net, net', n, inp);
    MovedNode(cs, net, net', n, inp);
    assert NodesGood(cs, net);
    hide NetInv, NodeGood, Grows;
    forall m | m in cs ensures NodeGood(cs[m], net', m) {
      if m != n {
        assert NodeGood(cs[m], net, m);
        NodeElsewhere(cs[m], net, net', m);
      }
    }
  }

  // Paths.

  /** A key's new record extends its path by a hop from the last node that had it. */
  ghost predicate Arrives(net: Net, n: Peer, id: KeyID, r: Record) {
    if id !in net.path then r.role == Source
    else
      && r.role != Source && |net.path[id]| > 0
      && var last := net.path[id][|net.path[id]| - 1];
         Has(net, last, id) && r.sender == last && Rec(net, last, id).sent && Rec(net, last, id).next == n
  }

  /** A node that sends a key to one without a record of it is the last on the key's path. */
  lemma LastSends(net: Net, p: Peer, n: Peer, id: KeyID)
    requires PathsGood(net) && Has(net, p, id) && !Has(net, n, id)
    requires var r := Rec(net, p, id); (r.sent && r.next == n) || (n == r.sender && n != "")
    requires Rec(net, p, id).role == Source ==> Rec(net, p, id).sender == ""
    ensures id in net.path && |net.path[id]| > 0 && net.path[id][|net.path[id]| - 1] == p
    ensures Rec(net, p, id).sent && Rec(net, p, id).next == n
  {
    var path := net.path[id];
    PathHas(net, id);
    var i :| 0 <= i < |path| && path[i] == p;
    assert Hop(net, id, i);
  }

  lemma PathHas(net: Net, id: KeyID)
    requires PathsGood(net) && id in net.path
    ensures forall i :: 0 <= i < |net.path[id]| ==> Has(net, net.path[id][i], id)
  {
    forall i | 0 <= i < |net.path[id]| ensures Has(net, net.path[id][i], id) { assert Hop(net, id, i); }
  }

  lemma ArrivedFrom(cs: Policies, net: Net, p: Peer, n: Peer, id: KeyID, r: Record)
    requires NetInv(cs, net) && Has(net, p, id) && !Has(net, n, id) && r.role != Source && r.sender == p
    requires var q := Rec(net, p, id); (q.sent && q.next == n) || (n == q.sender && n != "")
    ensures Arrives(net, n, id, r)
  {
    SourceIsFirst(cs, net, p, id);
    LastSends(net, p, n, id);
  }

  lemma TransferArrives(cs: Policies, net: Net, n: Peer, p: Peer, t: Transfer, id: KeyID, r: Record)
    requires NetInv(cs, net) && TransferMsg(p, n, t) in net.sent && NewRec(FromTransfer(p, t), id, r)
      && !Has(net, n, id)
    ensures Arrives(net, n, id, r) && id in net.origin
  {
    MsgAgrees(cs, net, TransferMsg(p, n, t));
    assert id == t.keys[0].id;
    ArrivedFrom(cs, net, p, n, id, r);
  }

  lemma VoidArrives(cs: Policies, net: Net, n: Peer, p: Peer, v: Void, id: KeyID, r: Record)
    requires NetInv(cs, net) && VoidMsg(p, n, v) in net.sent && NewRec(FromVoid(p, v), id, r) && !Has(net, n, id)
    ensures Arrives(net, n, id, r) && id in net.origin
  {
    MsgAgrees(cs, net, VoidMsg(p, n, v));
    assert id == v.ids[0];
    ArrivedFrom(cs, net, p, n, id, r);
  }

  lemma NewArrives(cs: Policies, net: Net, n: Peer, inp: Input, id: KeyID, r: Record)
    requires NetInv(cs, net) && Justified(net, n, inp) && NewRec(inp, id, r) && !Has(net, n, id)
    ensures Arrives(net, n, id, r) && id in net.origin
  {
    match inp {
      case FromTransfer(p, t) => TransferArrives(cs, net, n, p, t, id, r);
      case FromVoid(p, v) => VoidArrives(cs, net, n, p, v, id, r);
      case _ =>
    }
  }

  lemma Arriving(cs: Policies, net: Net, net': Net, n: Peer, inp: Input, id: KeyID)
    requires NetInv(cs, net) && Moved(cs, net, net', n, inp) && Has(net', n, id) && !Has(net, n, id)
    ensures Arrives(net, n, id, Rec(net', n, id)) && id in net.origin
  {
    MovedHere(cs, net, net', n, inp, id);
    NewArrives(cs, net, n, inp, id, Rec(net', n, id));
  }

  lemma SourceIsFirst(cs: Policies, net: Net, p: Peer, id: KeyID)
    requires NodesGood(cs, net) && Has(net, p, id)
    ensures Rec(net, p, id).role == Source ==> Rec(net, p, id).sender == ""
  {
    assert NodeGood(cs[p], net, p);
    assert RecInv(cs[p], id, Rec(net, p, id));
  }

  lemma HopKept(net: Net, net': Net, id: KeyID, i: nat)
    requires Grows(net, net') && id in net.path && i < |net.path[id]| && Hop(net, id, i)
    requires id in net'.path && net.path[id] <= net'.path[id]
    requires i + 1 < |net.path[id]| || |net'.path[id]| == |net.path[id]|
    ensures Hop(net', id, i)
  {
    var p := net.path[id][i];
    assert Later(Rec(net, p, id), Rec(net', p, id));
  }

  lemma PathGrown(cs: Policies, net: Net, net': Net, n: Peer, inp: Input, id: KeyID, i: nat)
    requires NetInv(cs, net) && Moved(cs, net, net', n, inp) && id in net'.path && i < |net'.path[id]|
    ensures Hop(net', id, i)
  {
    MovedGrows(cs, net, net', n, inp);
    if Has(net', n, id) && !Has(net, n, id) {
      Arriving(cs, net, net', n, inp, id);
      NewHop(net, net', n, id, i);
    } else {
      assert id in net.path && net'.path[id] == net.path[id];
      assert Hop(net, id, i);
      HopKept(net, net', id, i);
    }
  }

  /** The path with the new hop: earlier hops stand, the previous last one now has a successor. */
  lemma NewHop(net: Net, net': Net, n: Peer, id: KeyID, i: nat)
    requires PathsGood(net) && Grows(net, net') && Has(net', n, id) && id in net'.path && i < |net'.path[id]|
    requires Arrives(net, n, id, Rec(net', n, id))
    requires net'.path[id] == (if id in net.path then net.path[id] else []) + [n]
    ensures Hop(net', id, i)
  {
    if id in net.path && i < |net.path[id]| {
      assert Hop(net, id, i);
      assert Later(Rec(net, net.path[id][i], id), Rec(net', net.path[id][i], id));
    }
  }

  lemma MovedPaths(cs: Policies, net: Net, net': Net, n: Peer, inp: Input)
    requires NetInv(cs, net) && Moved(cs, net, net', n, inp)
    ensures PathsGood(net')
  {
    forall id, i | id in net'.path && 0 <= i < |net'.path[id]| ensures Hop(net', id, i) {
      PathGrown(cs, net, net', n, inp, id, i);
    }
    forall id | id in net'.path ensures id in net'.origin && |net'.path[id]| > 0 && Distinct(net'.path[id]) {
      PathNew(cs, net, net', n, inp, id);
    }
    forall m, id | Has(net', m, id) ensures id in net'.path && m in net'.path[id] {
      OnPath(cs, net, net', n, inp, m, id);
    }
  }

  lemma OnPath(cs: Policies, net: Net, net': Net, n: Peer, inp: Input, m: Peer, id: KeyID)
    requires PathsGood(net) && Moved(cs, net, net', n, inp) && Has(net', m, id)
    ensures id in net'.path && m in net'.path[id]
  {
    if m != n { MovedElsewhere(cs, net, net', n, inp, m, id); }
    if Has(net, m, id) {
      assert m in net.path[id];
      MovedGrows(cs, net, net', n, inp);
    } else {
      assert net'.path[id] == (if id in net.path then net.path[id] else []) + [n];
    }
  }

  lemma PathNew(cs: Policies, net: Net, net': Net, n: Peer, inp: Input, id: KeyID)
    requires NetInv(cs, net) && Moved(cs, net, net', n, inp) && id in net'.path
    ensures id in net'.origin && |net'.path[id]| > 0 && Distinct(net'.path[id])
  {
    hide Inv, KeysStep, JobsFrom, Justified;
    if Has(net', n, id) && !Has(net, n, id) {
      Arriving(cs, net, net', n, inp, id);
      PathAppends(net, net', n, id);
    } else {
      assert id in net.path && net'.path[id] == net.path[id];
    }
  }

  lemma PathAppends(net: Net, net': Net, n: Peer, id: KeyID)
    requires PathsGood(net) && n in net.nodes && n in net'.nodes && Has(net', n, id) && !Has(net, n, id)
    requires net'.path == ExtendPath(net.path, n, Disk(net, n), Disk(net', n))
    ensures id in net'.path && |net'.path[id]| > 0 && Distinct(net'.path[id])
  {
    if id in net.path {
      forall i | 0 <= i < |net.path[id]| ensures net.path[id][i] != n { assert Hop(net, id, i); }
    }
  }

  // Releases and results owed.

  lemma LogGrows(net: Net, net': Net)
    requires Grows(net, net') && LogGood(net) && net'.log == net.log
    ensures LogGood(net')
  {
    forall i | 0 <= i < |net'.log| ensures ReleaseGood(net', i) {
      assert ReleaseGood(net, i);
      assert Later(Rec(net, net.log[i].node, net.log[i].id), Rec(net', net.log[i].node, net.log[i].id));
    }
  }

  /** Whatever n owes after the move it still has pending, or its peer had committed it. */
  ghost predicate OutboxStep(net: Net, net': Net, n: Peer)
    requires n in net.nodes && n in net'.nodes
  {
    forall id, p :: Has(net', n, id) && p in OwedPeers(Rec(net', n, id)) ==>
      StillOwed(Disk(net, n), Disk(net', n), id, p) || Acked(net, n, p, id, CurrentStatus(Rec(net', n, id)))
  }

  lemma MovedOutbox(cs: Policies, net: Net, net': Net, n: Peer, inp: Input)
    requires NetInv(cs, net) && Moved(cs, net, net', n, inp) && OutboxStep(net, net', n)
    ensures OutboxGood(net')
  {
    forall m, id, p | Has(net', m, id) && p in OwedPeers(Rec(net', m, id)) ensures ResultGood(net', m, id, p) {
      var st := CurrentStatus(Rec(net', m, id));
      if m != n {
        MovedElsewhere(cs, net, net', n, inp, m, id);
        assert ResultGood(net, m, id, p);
        if Acked(net, m, p, id, st) { AckedGrows(net, net', m, p, id, st); }
      } else {
        assert Has(net, n, id) && p in OwedPeers(Rec(net, n, id)) ==> ResultGood(net, n, id, p);
        assert StillOwed(Disk(net, n), Disk(net', n), id, p) || Acked(net, n, p, id, st);
        if Acked(net, n, p, id, st) { AckedGrows(net, net', n, p, id, st); }
      }
    }
  }

  /** The step behind every transaction in the network. */
  lemma MovedKeeps(cs: Policies, net: Net, net': Net, n: Peer, inp: Input)
    requires NetInv(cs, net) && Moved(cs, net, net', n, inp) && OutboxStep(net, net', n)
    ensures NetInv(cs, net') && Grows(net, net')
  {
    MovedGrows(cs, net, net', n, inp);
    MovedNodes(cs, net, net', n, inp);
    MovedRecs(cs, net, net', n, inp);
    GrownMsgs(net, net');
    MovedPaths(cs, net, net', n, inp);
    LogGrows(net, net');
    MovedOutbox(cs, net, net', n, inp);
  }
}
