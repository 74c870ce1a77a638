/** Networks whose routes for a pair lead to its target, and what single calls of a worker achieve in them. */
module RelayWiring {
  import opened Core
  import opened Uuid
  import opened Peering
  import opened Etsi020
  import opened RelayState
  import opened RelayNetwork
  import opened RelayTrace
  import opened RelayNode

  // The setting.

  /** Distance to the target, for the nodes that have to do with the pair: 0 exactly where the target's recipient
      is local. */
  type Hops = map<Peer, nat>

  /** Two neighbours name each other's addresses the same way, and the second takes transfers of the first. */
  predicate Linked(cs: Policies, p: Peer, q: Peer) {
    && p in cs && q in cs && q in cs[p].cfg.peers && p in cs[q].cfg.peers && cs[q].cfg.peers[p].incoming
    && cs[p].OwnCallback(q) == cs[q].CallbackOf(p) && 1 <= |cs[p].OwnCallback(q)| <= 1024
  }

  /** Every route for the pair, from a node that has a distance, leads to such nodes only, and one hop or more
      closer to the node that serves its slave. Of other nodes nothing is asked. */
  predicate Wired(cs: Policies, a: Association, hops: Hops) {
    && ValidPolicies(cs) && hops.Keys <= cs.Keys && Pair(a.master, [a.slave]).Ok?
    && forall p :: p in hops ==> a in cs[p].allowed && WiredNode(cs, a, hops, p)
  }

  predicate WiredNode(cs: Policies, a: Association, hops: Hops, p: Peer)
    requires p in cs && p in hops
  {
    && (hops[p] == 0 <==> cs[p].Local(a.slave))
    && (hops[p] > 0 ==> cs[p].Route(a.slave) != [])
    && forall q :: q in cs[p].Route(a.slave) ==>
         q in hops && hops[q] < hops[p] && Linked(cs, p, q) && !cs[q].Local(a.master)
  }

  // Labels in a row.

  function Calls(cs: Policies, net: Net, labels: seq<Label>): Net
    decreases |labels|
  {
    if labels == [] then net else Calls(cs, Apply(cs, net, labels[0]), labels[1..])
  }

  lemma {:induction false} CallsRun(cs: Policies, labels: seq<Label>, calls: seq<Label>)
    ensures Calls(cs, Run(cs, labels), calls) == Run(cs, labels + calls)
    decreases |calls|
  {
    hide Apply;
    if calls == [] {
      assert labels + calls == labels;
    } else {
      var next := labels + [calls[0]];
      assert next[..|next| - 1] == labels;
      CallsRun(cs, next, calls[1..]);
      assert next + calls[1..] == labels + calls;
    }
  }

  lemma FourCalls(cs: Policies, net: Net, calls: seq<Label>)
    requires |calls| == 4
    ensures Calls(cs, net, calls) == Apply(cs, Apply(cs, Apply(cs, Apply(cs, net, calls[0]), calls[1]), calls[2]),
      calls[3])
  {
    var n1 := Apply(cs, net, calls[0]);
    var n2 := Apply(cs, n1, calls[1]);
    var n3 := Apply(cs, n2, calls[2]);
    hide Apply;
    var c1, c2, c3, c4 := calls[1..], calls[2..], calls[3..], calls[4..];
    assert c1[1..] == c2 && c2[1..] == c3 && c3[1..] == c4 == [];
    assert Calls(cs, net, calls) == Calls(cs, n1, c1);
    assert Calls(cs, n1, c1) == Calls(cs, n2, c2);
    assert Calls(cs, n2, c2) == Calls(cs, n3, c3);
    assert Calls(cs, n3, c3) == Calls(cs, Apply(cs, n3, calls[3]), c4);
  }

  /** Looks at the key, commits to a peer, posts the transfer and has it answered. */
  function SendCalls(c: Policy, n: Peer, id: KeyID, r: Record, to: Peer, now: Time, at: Time): seq<Label> {
    [Pick(n, id, now), CommitTo(n, to, now, Saves), PostTransfer(n),
      Deliver(TransferMsg(n, to, TransferOf(c, id, to, r)), at, Saves)]
  }

  // Single calls.

  lemma PickStep(cs: Policies, net: Net, n: Peer, id: KeyID, now: Time)
    requires n in cs && n in net.nodes && !net.nodes[n].store.broken && net.nodes[n].worker == Idle
    requires id in net.nodes[n].store.live.keys && net.nodes[n].store.live.keys[id].retry <= now
    ensures Apply(cs, net, Pick(n, id, now)) == SetWorker(net, n, Picked(id, net.nodes[n].store.live.keys[id]))
  {
  }

  lemma CommitStep(cs: Policies, net: Net, n: Peer, id: KeyID, r: Record, to: Peer, now: Time)
    requires n in cs && n in net.nodes && !net.nodes[n].store.broken && net.nodes[n].worker == Picked(id, r)
      && MaySend(r, to)
    requires id in net.nodes[n].store.live.keys && CommitSend(Working(net.nodes[n].store.live), id, to, now).Ok?
    ensures var net' := Apply(cs, net, CommitTo(n, to, now, Saves));
      && net'.nodes.Keys == net.nodes.Keys && net'.nodes[n].worker == Posting(id, to, r)
      && (forall m :: m in net.nodes && m != n ==> net'.nodes[m] == net.nodes[m])
  {
    hide CommitSend, ExtendPath, TransferOf;
  }

  lemma PostStep(cs: Policies, net: Net, n: Peer, id: KeyID, to: Peer, r: Record)
    requires n in cs && n in net.nodes && net.nodes[n].worker == Posting(id, to, r)
    ensures var net' := Apply(cs, net, PostTransfer(n));
      && TransferMsg(n, to, TransferOf(cs[n], id, to, r)) in net'.sent && net'.nodes.Keys == net.nodes.Keys
      && (forall m :: m in net.nodes && m != n ==> net'.nodes[m] == net.nodes[m])
  {
    hide TransferOf;
  }

  lemma DeliverStep(cs: Policies, net: Net, m: Msg, at: Time)
    requires m in net.sent && m.to in net.nodes && m.to in cs && !net.nodes[m.to].store.broken
    requires Handle(cs[m.to], net.nodes[m.to].store.live, m, at).Ok?
    ensures var net' := Apply(cs, net, Deliver(m, at, Saves));
      m.to in net'.nodes && Disk(net', m.to) == Handle(cs[m.to], net.nodes[m.to].store.live, m, at).value
  {
    hide Handle, ExtendPath;
  }

  lemma OfferedPair(c: Policy, a: Association, id: KeyID, to: Peer, r: Record)
    requires Pair(a.master, [a.slave]).Ok? && ValidID(id) && 1 <= |c.OwnCallback(to)| <= 1024
    requires r.pair == a && |r.material| == KEY_BYTES && r.keyExt == map[] && r.optional == map[]
    ensures TransferPair(TransferOf(c, id, to, r)) == Ok(a)
  {
    hide ValidID, Pair;
    var t := TransferOf(c, id, to, r);
    assert KeyIDs(t.keys) == [id];
    assert ValidKey(t.keys[0]);
  }

  /** A candidate with room takes the transfer of a key it does not know. */
  lemma TransferAccepted(cs: Policies, a: Association, hops: Hops, n: Peer, to: Peer, s: State, id: KeyID, r: Record,
        at: Time)
    requires Wired(cs, a, hops) && n in cs && n in hops && to in cs[n].Route(a.slave) && ValidID(id)
    requires r.pair == a && |r.material| == KEY_BYTES && r.keyExt == map[] && r.optional == map[]
    requires id !in s.keys && |s.keys| < cs[to].capacity
    ensures to in cs && to in hops
    ensures var outcome := Accept(cs[to], s, n, TransferOf(cs[n], id, to, r), at);
      outcome.Ok? && id in outcome.value.keys
  {
    assert WiredNode(cs, a, hops, n) && Linked(cs, n, to);
    assert WiredNode(cs, a, hops, to);
    var t, c, w := TransferOf(cs[n], id, to, r), cs[to], Working(s);
    OfferedPair(cs[n], a, id, to, r);
    NewAccepted(cs, a, hops, n, to, w, id, t, at);
    hide WiredNode, AcceptKey, TransferPair;
    GuardAccepts(cs, a, n, to, t);
    hide Wired, Linked, AcceptGuard, ValidID, Policy.OwnCallback, Policy.CallbackOf;
    assert AcceptCheck(w, n, a, t, 0, 0) == Ok(1);
    assert AcceptKeys(c, w, n, a, t, 0, at) == AcceptKey(c, w, n, a, t, t.keys[0], at);
  }

  lemma GuardAccepts(cs: Policies, a: Association, n: Peer, to: Peer, t: Transfer)
    requires n in cs && to in cs && Linked(cs, n, to) && TransferPair(t) == Ok(a) && t.callback == cs[n].OwnCallback(to)
    requires a in cs[to].allowed && !cs[to].Local(a.master)
    ensures AcceptGuard(cs[to], n, t) == Ok(a)
  {
    hide TransferPair;
  }

  /** Routes do not lead back. */
  lemma Nearer(cs: Policies, a: Association, hops: Hops, n: Peer, to: Peer)
    requires n in cs && n in hops && to in cs && to in hops
    requires WiredNode(cs, a, hops, n) && WiredNode(cs, a, hops, to) && to in cs[n].Route(a.slave)
    ensures n !in cs[to].Route(a.slave) && (!cs[to].Local(a.slave) ==> cs[to].Route(a.slave) != [])
  {
    hide Linked;
  }

  lemma NewAccepted(cs: Policies, a: Association, hops: Hops, n: Peer, to: Peer, s: State, id: KeyID, t: Transfer,
        at: Time)
    requires Wired(cs, a, hops) && n in cs && n in hops && to in cs && to in hops
    requires WiredNode(cs, a, hops, n) && WiredNode(cs, a, hops, to) && to in cs[n].Route(a.slave)
    requires |t.keys| == 1 && t.keys[0].id == id && id !in s.keys
    ensures var outcome := AcceptKey(cs[to], s, n, a, t, t.keys[0], at); outcome.Ok? && id in outcome.value.keys
  {
    Nearer(cs, a, hops, n, to);
    hide Wired, WiredNode, Linked, ValidPolicies;
    if !cs[to].Local(a.slave) {
      var route := cs[to].Route(a.slave);
      WithoutAbsent(Rotation(route, Cursor(s, a.slave) % |route|), n);
    }
    hide ReceivedRecord, Owe, Without;
  }
}
