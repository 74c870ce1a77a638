/** A concrete network, a line of three nodes, and a run of it in which the target delivers the key while the
    relay ends up owing the source "voided". */
module RelayLine {
  import opened Core
  import opened Uuid
  import opened Peering
  import opened Etsi020
  import opened RelayState
  import opened RelayInvariant
  import opened RelayHandlers
  import opened RelayNetwork
  import opened RelayTrace
  import opened RelayWiring
  import opened RelayVoidGap

  // Lines of three nodes.

  /** Source p, relay n and target t of a pair, each routing to the next. */
  ghost predicate Line(cs: Policies, a: Association, p: Peer, n: Peer, t: Peer) {
    && p != n && n != t && p != t && Wired(cs, a, map[p := 2, n := 1, t := 0])
    && cs[p].Route(a.slave) == [n] && cs[n].Route(a.slave) == [t]
    && cs[p].Local(a.master) && !cs[p].Local(a.slave) && !cs[n].Local(a.slave)
    && t in cs[n].cfg.peers && cs[t].OwnCallback(n) == cs[n].CallbackOf(t) && 1 <= |cs[t].OwnCallback(n)| <= 1024
  }

  /** A node at rest that holds the given record of the key, or nothing at all. */
  ghost predicate Rests(net: Net, n: Peer, id: KeyID, r: Option<Record>) {
    && n in net.nodes
    && var node := net.nodes[n];
       && !node.store.broken && node.store.live == node.store.disk && node.worker == Idle
       && node.store.disk.keys == (if r.Some? then map[id := r.value] else map[])
  }

  ghost predicate Stage(net: Net, p: Peer, n: Peer, t: Peer, id: KeyID, rp: Option<Record>, rn: Option<Record>,
        rt: Option<Record>) {
    Rests(net, p, id, rp) && Rests(net, n, id, rn) && Rests(net, t, id, rt)
  }

  lemma OneCandidate(c: Policy, s: State, target: string, sender: Peer, q: Peer)
    requires c.Route(target) == [q] && q != sender
    ensures Candidates(c, s, target, sender).0 == [q]
  {
    assert Rotation([q], 0) == [q];
    assert Without([q], sender) == [q] + Without([q][1..], sender);
  }

  lemma StoreOK(cs: Policies, a: Association, p: Peer, n: Peer, t: Peer, k: Key, now: Time)
    requires Line(cs, a, p, n, t) && k.Valid(now) && k.pair == a
    ensures var outcome := StoreOutcome(cs[p], EMPTY, k, now);
      outcome.Ok? && outcome.value.keys == map[k.id := SourceRecord(k, [n])]
  {
    assert WiredNode(cs, a, map[p := 2, n := 1, t := 0], p);
    PeerNamed(cs[p], n);
    OneCandidate(cs[p], Working(EMPTY), a.slave, "", n);
    hide Wired, Key.Valid, Candidates, SourceRecord, WiredNode;
    assert StoreGuard(cs[p], k, now) == Ok(());
  }

  lemma StoreRests(cs: Policies, net: Net, p: Peer, k: Key, now: Time)
    requires p in cs && p in net.nodes && !net.nodes[p].store.broken && k.id !in net.origin
    requires StoreOutcome(cs[p], net.nodes[p].store.live, k, now).Ok?
    ensures var s' := StoreOutcome(cs[p], net.nodes[p].store.live, k, now).value;
      Apply(cs, net, Store(p, k, now, Saves)).nodes == net.nodes[p := net.nodes[p].(store := Durable(s', s', false))]
  {
    hide StoreOutcome, ExtendPath;
  }

  lemma StoreStage(cs: Policies, a: Association, p: Peer, n: Peer, t: Peer, k: Key, now: Time)
    requires Line(cs, a, p, n, t) && k.Valid(now) && k.pair == a
    ensures Stage(Apply(cs, Init(cs), Store(p, k, now, Saves)), p, n, t, k.id, Some(SourceRecord(k, [n])), None, None)
  {
    hide Line, Key.Valid, SourceRecord, StoreOutcome, Apply;
    StoreOK(cs, a, p, n, t, k, now);
    InLine(cs, a, p, n, t);
    StoreRests(cs, Init(cs), p, k, now);
    InitRests(cs, p, k.id);
    InitRests(cs, n, k.id);
    InitRests(cs, t, k.id);
    hide Init;
  }

  lemma InitRests(cs: Policies, n: Peer, id: KeyID)
    requires n in cs
    ensures Rests(Init(cs), n, id, None) && Init(cs).nodes[n].store.live == EMPTY
  {
  }

  lemma InLine(cs: Policies, a: Association, p: Peer, n: Peer, t: Peer)
    requires Line(cs, a, p, n, t)
    ensures p in cs && n in cs && t in cs && p != n && n != t && p != t
  {
    assert p in (map[p := 2, n := 1, t := 0]).Keys && n in (map[p := 2, n := 1, t := 0]).Keys
      && t in (map[p := 2, n := 1, t := 0]).Keys;
  }

  /** What a node makes of the transfer of a key it does not know. */
  function Taken(c: Policy, a: Association, from: Peer, tr: Transfer, at: Time): Record
    requires |tr.keys| == 1
  {
    if c.Local(a.slave) then ReceivedRecord(Target, from, a, tr, tr.keys[0], at).(ready := true)
    else ReceivedRecord(Relay, from, a, tr, tr.keys[0], at).(candidates := Without(c.Route(a.slave), from))
  }

  lemma TakenRecord(cs: Policies, a: Association, n: Peer, q: Peer, s: State, id: KeyID, tr: Transfer, at: Time)
    requires q in cs && |tr.keys| == 1 && tr.keys[0].id == id && s.keys == map[] && Accept(cs[q], s, n, tr, at).Ok?
      && AcceptGuard(cs[q], n, tr) == Ok(a)
    requires !cs[q].Local(a.slave) ==> |cs[q].Route(a.slave)| == 1
    ensures Accept(cs[q], s, n, tr, at).value.keys == map[id := Taken(cs[q], a, n, tr, at)]
  {
    var c, w := cs[q], Working(s);
    assert AcceptKeys(c, w, n, a, tr, 0, at) == AcceptKey(c, w, n, a, tr, tr.keys[0], at) by { hide AcceptKey; }
    hide AcceptGuard, AcceptCheck, AcceptKey;
    assert Accept(c, s, n, tr, at) == AcceptKey(c, w, n, a, tr, tr.keys[0], at);
    TakenKey(c, a, n, w, id, tr, at);
  }

  lemma TakenKey(c: Policy, a: Association, n: Peer, s: State, id: KeyID, tr: Transfer, at: Time)
    requires |tr.keys| == 1 && tr.keys[0].id == id && s.keys == map[] && AcceptKey(c, s, n, a, tr, tr.keys[0], at).Ok?
    requires !c.Local(a.slave) ==> |c.Route(a.slave)| == 1
    ensures AcceptKey(c, s, n, a, tr, tr.keys[0], at).value.keys == map[id := Taken(c, a, n, tr, at)]
  {
    hide ReceivedRecord, Without;
    if !c.Local(a.slave) { assert Rotation(c.Route(a.slave), Cursor(s, a.slave) % 1) == c.Route(a.slave); }
  }

  /** The record once the intent to send it on is committed. */
  function SentOn(r: Record, q: Peer, now: Time): Record { r.(next := q, sent := true, retry := now + RETRY) }

  lemma CommitRests(cs: Policies, net: Net, n: Peer, id: KeyID, r: Record, q: Peer, now: Time)
    requires n in cs && n in net.nodes && !net.nodes[n].store.broken && net.nodes[n].worker == Picked(id, r)
      && MaySend(r, q)
    requires net.nodes[n].store.live == net.nodes[n].store.disk && net.nodes[n].store.live.keys == map[id := r]
      && now < r.expires
    ensures var net' := Apply(cs, net, CommitTo(n, q, now, Saves));
      && net'.nodes.Keys == net.nodes.Keys && (forall m :: m in net.nodes && m != n ==> net'.nodes[m] == net.nodes[m])
      && var node := net'.nodes[n];
         && node.worker == Posting(id, q, r) && !node.store.broken && node.store.live == node.store.disk
         && node.store.live.keys == map[id := SentOn(r, q, now)]
  {
    var w := Working(net.nodes[n].store.live);
    assert w.keys[id := SentOn(r, q, now)] == map[id := SentOn(r, q, now)];
    hide ExtendPath, MaySend;
  }

  lemma PostRests(cs: Policies, net: Net, n: Peer, id: KeyID, q: Peer, r: Record)
    requires n in cs && n in net.nodes && net.nodes[n].worker == Posting(id, q, r)
    ensures var net' := Apply(cs, net, PostTransfer(n));
      && TransferMsg(n, q, TransferOf(cs[n], id, q, r)) in net'.sent
        && net'.nodes == net.nodes[n := net.nodes[n].(worker := Idle)]
  {
    hide TransferOf;
  }

  lemma DeliverRests(cs: Policies, net: Net, m: Msg, at: Time)
    requires m in net.sent && m.to in net.nodes && m.to in cs && !net.nodes[m.to].store.broken
      && Handle(cs[m.to], net.nodes[m.to].store.live, m, at).Ok?
    ensures var net' := Apply(cs, net, Deliver(m, at, Saves));
      var s' := Handle(cs[m.to], net.nodes[m.to].store.live, m, at).value;
      net'.nodes == net.nodes[m.to := net.nodes[m.to].(store := Durable(s', s', false))]
  {
    hide Handle, ExtendPath;
  }

  /** A resting node may send its record to the next node of the line, which rests without it. */
  ghost predicate Passes(cs: Policies, a: Association, hops: Hops, net: Net, n: Peer, q: Peer, id: KeyID, r: Record,
        now: Time) {
    && Wired(cs, a, hops) && ValidID(id) && n in cs && n in hops && q in cs && n != q && cs[n].Route(a.slave) == [q]
    && Rests(net, n, id, Some(r)) && Rests(net, q, id, None)
    && r.retry <= now < r.expires && MaySend(r, q) && r.pair == a && |r.material| == KEY_BYTES && r.keyExt == map[]
      && r.optional == map[]
  }

  lemma PickRests(cs: Policies, net: Net, n: Peer, id: KeyID, r: Record, now: Time)
    requires n in cs && Rests(net, n, id, Some(r)) && r.retry <= now
    ensures Apply(cs, net, Pick(n, id, now)).nodes == net.nodes[n := net.nodes[n].(worker := Picked(id, r))]
  {
    PickStep(cs, net, n, id, now);
    hide Apply;
  }

  /** The first three calls put the transfer on its way; only the sender's record and worker changed. */
  ghost predicate OnItsWay(cs: Policies, net: Net, net3: Net, n: Peer, q: Peer, id: KeyID, r: Record, now: Time) {
    && n in cs && TransferMsg(n, q, TransferOf(cs[n], id, q, r)) in net3.sent && net3.nodes.Keys == net.nodes.Keys
    && Rests(net3, n, id, Some(SentOn(r, q, now))) && forall m :: m in net.nodes && m != n ==>
      m in net3.nodes && net3.nodes[m] == net.nodes[m]
  }

  lemma PassSends(cs: Policies, a: Association, hops: Hops, net: Net, n: Peer, q: Peer, id: KeyID, r: Record, now: Time)
    requires Passes(cs, a, hops, net, n, q, id, r, now)
    ensures OnItsWay(cs, net, Apply(cs, Apply(cs, Apply(cs, net, Pick(n, id, now)), CommitTo(n, q, now, Saves)),
      PostTransfer(n)), n, q, id, r, now)
  {
    hide Wired, ValidID, Apply, TransferOf, MaySend, Policy.Route;
    PickRests(cs, net, n, id, r, now);
    var net1 := Apply(cs, net, Pick(n, id, now));
    CommitRests(cs, net1, n, id, r, q, now);
    var net2 := Apply(cs, net1, CommitTo(n, q, now, Saves));
    PostRests(cs, net2, n, id, q, r);
  }

  lemma PassAccepted(cs: Policies, a: Association, hops: Hops, net: Net, n: Peer, q: Peer, id: KeyID, r: Record,
        now: Time, at: Time)
    requires Passes(cs, a, hops, net, n, q, id, r, now) && (!cs[q].Local(a.slave) ==> |cs[q].Route(a.slave)| == 1)
    ensures var tr := TransferOf(cs[n], id, q, r); var outcome := Accept(cs[q], net.nodes[q].store.live, n, tr, at);
      outcome.Ok? && outcome.value.keys == map[id := Taken(cs[q], a, n, tr, at)]
  {
    var tr := TransferOf(cs[n], id, q, r);
    assert WiredNode(cs, a, hops, n) && Linked(cs, n, q) && a in cs[q].allowed && cs[q].capacity >= 1;
    OfferedPair(cs[n], a, id, q, r);
    TransferAccepted(cs, a, hops, n, q, net.nodes[q].store.live, id, r, at);
    hide Wired, ValidID, TransferPair, Accept, MaySend;
    assert AcceptGuard(cs[q], n, tr) == Ok(a);
    TakenRecord(cs, a, n, q, net.nodes[q].store.live, id, tr, at);
  }

  lemma PassStage(cs: Policies, a: Association, hops: Hops, net: Net, n: Peer, q: Peer, id: KeyID, r: Record,
        now: Time, at: Time)
    requires Passes(cs, a, hops, net, n, q, id, r, now) && (!cs[q].Local(a.slave) ==> |cs[q].Route(a.slave)| == 1)
    ensures var net' := Calls(cs, net, SendCalls(cs[n], n, id, r, q, now, at));
      && Rests(net', n, id, Some(SentOn(r, q, now)))
        && Rests(net', q, id, Some(Taken(cs[q], a, n, TransferOf(cs[n], id, q, r), at)))
      && forall m :: m in net.nodes && m != n && m != q ==> m in net'.nodes && net'.nodes[m] == net.nodes[m]
  {
    assert |TransferOf(cs[n], id, q, r).keys| == 1;
    hide Wired, ValidID, Apply, TransferOf, MaySend, Policy.Route, Accept, Taken, Calls;
    PassSends(cs, a, hops, net, n, q, id, r, now);
    PassAccepted(cs, a, hops, net, n, q, id, r, now, at);
    var net3 := Apply(cs, Apply(cs, Apply(cs, net, Pick(n, id, now)), CommitTo(n, q, now, Saves)), PostTransfer(n));
    PassEnds(cs, a, net, net3, n, q, id, SentOn(r, q, now), TransferOf(cs[n], id, q, r), at);
    FourCalls(cs, net, SendCalls(cs[n], n, id, r, q, now, at));
  }

  lemma PassEnds(cs: Policies, a: Association, net: Net, net3: Net, n: Peer, q: Peer, id: KeyID, r: Record,
        tr: Transfer, at: Time)
    requires q in cs && n != q && TransferMsg(n, q, tr) in net3.sent && net3.nodes.Keys == net.nodes.Keys
      && |tr.keys| == 1
    requires Rests(net3, n, id, Some(r)) && Rests(net, q, id, None) && forall m :: m in net.nodes && m != n ==>
      m in net3.nodes && net3.nodes[m] == net.nodes[m]
    requires var outcome := Accept(cs[q], net.nodes[q].store.live, n, tr, at);
      outcome.Ok? && outcome.value.keys == map[id := Taken(cs[q], a, n, tr, at)]
    ensures var net' := Apply(cs, net3, Deliver(TransferMsg(n, q, tr), at, Saves));
      && Rests(net', n, id, Some(r)) && Rests(net', q, id, Some(Taken(cs[q], a, n, tr, at)))
      && forall m :: m in net.nodes && m != n && m != q ==> m in net'.nodes && net'.nodes[m] == net.nodes[m]
  {
    hide Apply, Accept, Taken;
    DeliverRests(cs, net3, TransferMsg(n, q, tr), at);
  }

  lemma ConsumeStage(cs: Policies, a: Association, net: Net, t: Peer, id: KeyID, r: Record, now: Time)
    requires t in cs && Rests(net, t, id, Some(r)) && ValidID(id) && a in cs[t].allowed && cs[t].Local(a.slave)
    requires r.pair == a && r.role == Target && Usable(r, now)
    ensures var net' := Apply(cs, net, ConsumePeerKeys(t, a, [id], now, Saves));
      && Rests(net', t, id, Some(Spent(r))) && |net'.log| == |net.log| + 1
        && net'.log[|net.log|] == Release(t, Target, id, r.material, now)
      && forall m :: m in net.nodes && m != t ==> m in net'.nodes && net'.nodes[m] == net.nodes[m]
  {
    var s := net.nodes[t].store.live;
    var w := Working(s);
    assert PeerGuard([id]) == Ok(()) by { assert ValidID([id][0]); }
    hide ValidID, Usable;
    assert PeerCheck(w, a, [id], 0, now) == Ok(());
    assert ConsumePeer(cs[t], s, a, [id], now) == Ok((DeliverAll(w, [id]), Deliveries(w, [id])));
    assert DeliverAll(w, [id]).keys == map[id := Spent(r)];
    hide ConsumePeer, ExtendPath, DeliverAll;
  }

  // The run.

  lemma SourcePasses(cs: Policies, a: Association, p: Peer, n: Peer, t: Peer, net: Net, k: Key, now: Time)
    requires Line(cs, a, p, n, t) && k.Valid(now) && k.pair == a
      && Stage(net, p, n, t, k.id, Some(SourceRecord(k, [n])), None, None)
    ensures p in cs && n in cs && Passes(cs, a, map[p := 2, n := 1, t := 0], net, p, n, k.id, SourceRecord(k, [n]), now)
    ensures !cs[n].Local(a.slave) && |cs[n].Route(a.slave)| == 1
  {
    InLine(cs, a, p, n, t);
    hide Wired, ValidID, Rests;
  }

  /** The relay's record before it sends the key on. */
  function RelayHas(cs: Policies, a: Association, p: Peer, n: Peer, k: Key, now: Time): Record
    requires p in cs && n in cs
  {
    Taken(cs[n], a, p, TransferOf(cs[p], k.id, n, SourceRecord(k, [n])), now)
  }

  function TargetHas(cs: Policies, a: Association, p: Peer, n: Peer, t: Peer, k: Key, now: Time): Record
    requires p in cs && n in cs && t in cs
  {
    Taken(cs[t], a, n, TransferOf(cs[n], k.id, t, RelayHas(cs, a, p, n, k, now)), now)
  }

  lemma RelayRecord(cs: Policies, a: Association, p: Peer, n: Peer, t: Peer, k: Key, now: Time)
    requires Line(cs, a, p, n, t) && k.pair == a && p in cs && n in cs
    ensures var r := RelayHas(cs, a, p, n, k, now);
      && r.role == Relay && r.sender == p && r.candidates == [t] && r.pair == a && r.material == k.material
        && r.keyExt == map[] && r.optional == map[]
      && r.retry == 0 && r.expires == now + HOUR && !r.voiding && !r.ready && !r.delivered && !r.sent && !r.unknown
  {
    assert Without([t], p) == [t] + Without([t][1..], p);
    hide Wired;
  }

  lemma TargetRecord(cs: Policies, a: Association, p: Peer, n: Peer, t: Peer, k: Key, now: Time)
    requires Line(cs, a, p, n, t) && k.pair == a && p in cs && n in cs && t in cs
    ensures var r := TargetHas(cs, a, p, n, t, k, now);
      && r.role == Target && r.sender == n && r.pair == a && r.material == k.material
      && r.ready && r.expires == now + HOUR && !r.voiding && !r.delivered && !r.sent
  {
    assert WiredNode(cs, a, map[p := 2, n := 1, t := 0], t);
    RelayRecord(cs, a, p, n, t, k, now);
    hide Wired, RelayHas;
  }

  lemma RelayPasses(cs: Policies, a: Association, p: Peer, n: Peer, t: Peer, net: Net, k: Key, now: Time)
    requires Line(cs, a, p, n, t) && k.Valid(now) && k.pair == a && p in cs && n in cs && t in cs
    requires Rests(net, n, k.id, Some(RelayHas(cs, a, p, n, k, now))) && Rests(net, t, k.id, None)
    ensures Passes(cs, a, map[p := 2, n := 1, t := 0], net, n, t, k.id, RelayHas(cs, a, p, n, k, now), now)
      && cs[t].Local(a.slave) && a in cs[t].allowed
  {
    assert WiredNode(cs, a, map[p := 2, n := 1, t := 0], t);
    RelayRecord(cs, a, p, n, t, k, now);
    hide Wired, ValidID, Rests, RelayHas;
  }

  /** Stored and passed on twice. */
  function LinePath(cs: Policies, a: Association, p: Peer, n: Peer, t: Peer, k: Key, now: Time): seq<Label>
    requires p in cs && n in cs
  {
    [Store(p, k, now, Saves)] + SendCalls(cs[p], p, k.id, SourceRecord(k, [n]), n, now, now)
      + SendCalls(cs[n], n, k.id, RelayHas(cs, a, p, n, k, now), t, now, now)
  }

  /** And consumed at the target. */
  function LineRun(cs: Policies, a: Association, p: Peer, n: Peer, t: Peer, k: Key, now: Time): seq<Label>
    requires p in cs && n in cs
  {
    LinePath(cs, a, p, n, t, k, now) + [ConsumePeerKeys(t, a, [k.id], now, Saves)]
  }

  lemma LineArrives(cs: Policies, a: Association, p: Peer, n: Peer, t: Peer, k: Key, now: Time)
    requires Line(cs, a, p, n, t) && k.Valid(now) && k.pair == a && p in cs && n in cs && t in cs
    ensures var rn, rt := RelayHas(cs, a, p, n, k, now), TargetHas(cs, a, p, n, t, k, now);
      Stage(Run(cs, LinePath(cs, a, p, n, t, k, now)), p, n, t, k.id, Some(SentOn(SourceRecord(k, [n]), n, now)),
        Some(SentOn(rn, t, now)), Some(rt))
    ensures a in cs[t].allowed && cs[t].Local(a.slave)
  {
    hide Line, Key.Valid, Passes, Apply, SourceRecord, RelayHas, TargetHas, Taken, Calls, Rests, SendCalls, Run;
    var hops, r0, rn, rt := map[p := 2, n := 1, t := 0], SourceRecord(k, [n]), RelayHas(cs, a, p, n, k, now),
      TargetHas(cs, a, p, n, t, k, now);
    var first, second := SendCalls(cs[p], p, k.id, r0, n, now, now), SendCalls(cs[n], n, k.id, rn, t, now, now);
    InLine(cs, a, p, n, t);
    StoreStage(cs, a, p, n, t, k, now);
    var net1 := Apply(cs, Init(cs), Store(p, k, now, Saves));
    SourcePasses(cs, a, p, n, t, net1, k, now);
    PassStage(cs, a, hops, net1, p, n, k.id, r0, now, now);
    var net2 := Calls(cs, net1, first);
    Unchanged(net1, net2, t, k.id, None);
    ItsRecords(cs, a, p, n, t, k, now);
    RelayPasses(cs, a, p, n, t, net2, k, now);
    PassStage(cs, a, hops, net2, n, t, k.id, rn, now, now);
    var net3 := Calls(cs, net2, second);
    Unchanged(net2, net3, p, k.id, Some(SentOn(r0, n, now)));
    RunIs(cs, a, p, n, t, k, now);
  }

  /** Consuming at the target changes nothing elsewhere. */
  lemma LineStages(cs: Policies, a: Association, p: Peer, n: Peer, t: Peer, k: Key, now: Time)
    requires Line(cs, a, p, n, t) && k.Valid(now) && k.pair == a && p in cs && n in cs && t in cs
    ensures var rn, rt := RelayHas(cs, a, p, n, k, now), TargetHas(cs, a, p, n, t, k, now);
      var net, net' := Run(cs, LinePath(cs, a, p, n, t, k, now)), Run(cs, LineRun(cs, a, p, n, t, k, now));
      && Stage(net', p, n, t, k.id, Some(SentOn(SourceRecord(k, [n]), n, now)), Some(SentOn(rn, t, now)),
        Some(Spent(rt)))
      && n in net.nodes && n in net'.nodes && net'.nodes[n] == net.nodes[n]
      && exists i :: 0 <= i < |net'.log| && net'.log[i] == Release(t, Target, k.id, k.material, now)
  {
    hide Line, Key.Valid, Apply, SourceRecord, RelayHas, TargetHas, Run, LinePath;
    var rn, rt := RelayHas(cs, a, p, n, k, now), TargetHas(cs, a, p, n, t, k, now);
    var net, net' := Run(cs, LinePath(cs, a, p, n, t, k, now)), Run(cs, LineRun(cs, a, p, n, t, k, now));
    InLine(cs, a, p, n, t);
    LineArrives(cs, a, p, n, t, k, now);
    TargetUsable(cs, a, p, n, t, k, now);
    hide Rests;
    ConsumeStage(cs, a, net, t, k.id, rt, now);
    RunEnds(cs, LinePath(cs, a, p, n, t, k, now), ConsumePeerKeys(t, a, [k.id], now, Saves));
    Unchanged(net, net', p, k.id, Some(SentOn(SourceRecord(k, [n]), n, now)));
    Unchanged(net, net', n, k.id, Some(SentOn(rn, t, now)));
    StageNodes(net, n, k.id, Some(SentOn(rn, t, now)));
  }

  lemma StageNodes(net: Net, n: Peer, id: KeyID, r: Option<Record>)
    requires Rests(net, n, id, r)
    ensures n in net.nodes
  {
  }

  lemma RunEnds(cs: Policies, labels: seq<Label>, l: Label)
    ensures Run(cs, labels + [l]) == Apply(cs, Run(cs, labels), l)
  {
    hide Apply;
    assert (labels + [l])[..|labels|] == labels;
  }

  /** What a node not involved in a step holds stays as it is. */
  lemma Unchanged(net: Net, net': Net, m: Peer, id: KeyID, r: Option<Record>)
    requires Rests(net, m, id, r) && (m in net.nodes ==> m in net'.nodes && net'.nodes[m] == net.nodes[m])
    ensures Rests(net', m, id, r)
  {
  }

  lemma ItsRecords(cs: Policies, a: Association, p: Peer, n: Peer, t: Peer, k: Key, now: Time)
    requires p in cs && n in cs && t in cs
    ensures Taken(cs[n], a, p, TransferOf(cs[p], k.id, n, SourceRecord(k, [n])), now) == RelayHas(cs, a, p, n, k, now)
    ensures Taken(cs[t], a, n, TransferOf(cs[n], k.id, t, RelayHas(cs, a, p, n, k, now)), now) ==
      TargetHas(cs, a, p, n, t, k, now)
  {
  }

  lemma TargetUsable(cs: Policies, a: Association, p: Peer, n: Peer, t: Peer, k: Key, now: Time)
    requires Line(cs, a, p, n, t) && k.Valid(now) && k.pair == a && p in cs && n in cs && t in cs
    ensures var rt := TargetHas(cs, a, p, n, t, k, now);
      Usable(rt, now) && rt.pair == a && rt.role == Target && rt.material == k.material && ValidID(k.id)
  {
    TargetRecord(cs, a, p, n, t, k, now);
    hide Line, ValidID, TargetHas;
  }

  lemma RunIs(cs: Policies, a: Association, p: Peer, n: Peer, t: Peer, k: Key, now: Time)
    requires p in cs && n in cs
    ensures var net2 := Calls(cs, Apply(cs, Init(cs), Store(p, k, now, Saves)),
      SendCalls(cs[p], p, k.id, SourceRecord(k, [n]), n, now, now));
        Run(cs, LinePath(cs, a, p, n, t, k, now)) ==
          Calls(cs, net2, SendCalls(cs[n], n, k.id, RelayHas(cs, a, p, n, k, now), t, now, now))
  {
    hide Apply, SourceRecord, RelayHas, SendCalls;
    var l1 := [Store(p, k, now, Saves)];
    var first, second := SendCalls(cs[p], p, k.id, SourceRecord(k, [n]), n, now, now),
      SendCalls(cs[n], n, k.id, RelayHas(cs, a, p, n, k, now), t, now, now);
    assert l1[..0] == [];
    assert Run(cs, l1) == Apply(cs, Init(cs), Store(p, k, now, Saves));
    CallsRun(cs, l1, first);
    CallsRun(cs, l1 + first, second);
  }

  /** Three nodes of the line at rest after the key has passed. */
  ghost predicate LineRests(cs: Policies, a: Association, p: Peer, n: Peer, t: Peer, net: Net, id: KeyID, rp: Record,
        rn: Record, rt: Record) {
    && Line(cs, a, p, n, t) && ValidID(id) && p in cs && n in cs && t in cs
    && Stage(net, p, n, t, id, Some(rp), Some(rn), Some(rt))
    && rp.pair == a && rp.sent && rp.next == n && !rp.voiding
    && rn.pair == a && rn.role == Relay && rn.sender == p && rn.sent && rn.next == t && !rn.voiding
    && rt.pair == a && rt.role == Target && rt.sender == n && !rt.voiding
  }

  lemma LineAfter(cs: Policies, a: Association, p: Peer, n: Peer, t: Peer, net: Net, k: Key, now: Time, rt: Record)
    requires Line(cs, a, p, n, t) && ValidID(k.id) && k.pair == a && p in cs && n in cs && t in cs
    requires rt == TargetHas(cs, a, p, n, t, k, now) || rt == Spent(TargetHas(cs, a, p, n, t, k, now))
    requires Stage(net, p, n, t, k.id, Some(SentOn(SourceRecord(k, [n]), n, now)),
      Some(SentOn(RelayHas(cs, a, p, n, k, now), t, now)), Some(rt))
    ensures LineRests(cs, a, p, n, t, net, k.id, SentOn(SourceRecord(k, [n]), n, now),
      SentOn(RelayHas(cs, a, p, n, k, now), t, now), rt)
  {
    hide Line, ValidID, Rests, RelayHas, TargetHas;
    RelayRecord(cs, a, p, n, t, k, now);
    TargetRecord(cs, a, p, n, t, k, now);
  }

  lemma LineMayVoid(cs: Policies, a: Association, p: Peer, n: Peer, t: Peer, net: Net, id: KeyID, rp: Record,
        rn: Record, rt: Record)
    requires LineRests(cs, a, p, n, t, net, id, rp, rn, rt)
    ensures MayVoid(cs, net, t, n, id) && MayVoid(cs, net, p, n, id) && p != "" && t != ""
  {
    var hops := map[p := 2, n := 1, t := 0];
    assert WiredNode(cs, a, hops, p) && a in cs[n].allowed && cs[n].capacity >= 1;
    assert Linked(cs, p, n);
    PeerNamed(cs[n], p);
    PeerNamed(cs[n], t);
    hide Wired, WiredNode, ValidID, Policy.OwnCallback, Policy.CallbackOf;
  }

  lemma LinePassed(cs: Policies, a: Association, p: Peer, n: Peer, t: Peer, net: Net, id: KeyID, rp: Record,
        rn: Record, rt: Record)
    requires LineRests(cs, a, p, n, t, net, id, rp, rn, rt) && p != "" && t != ""
    ensures Passed(cs, net, p, n, t, id)
  {
    InLine(cs, a, p, n, t);
    hide Line, ValidID;
  }

  lemma StartsFrom(cs: Policies, net: Net, f: Peer, n: Peer, id: KeyID, rf: Record, rn: Record)
    requires f in cs && n in cs && f != n && Rests(net, f, id, Some(rf)) && Rests(net, n, id, Some(rn))
    requires rf.pair == rn.pair && !rf.voiding && n in Neighbours(rf)
    ensures Starts(cs, net, f, n, id)
  {
    hide Neighbours;
  }

  lemma LineStarts(cs: Policies, a: Association, p: Peer, n: Peer, t: Peer, net: Net, id: KeyID, rp: Record,
        rn: Record, rt: Record)
    requires LineRests(cs, a, p, n, t, net, id, rp, rn, rt)
    ensures Starts(cs, net, t, n, id) && Starts(cs, net, p, n, id)
  {
    hide Line, ValidID, Rests, Starts;
    InLine(cs, a, p, n, t);
    LineNames(cs, a, p, n, t);
    StartsFrom(cs, net, t, n, id, rt, rn);
    StartsFrom(cs, net, p, n, id, rp, rn);
  }

  lemma LineNames(cs: Policies, a: Association, p: Peer, n: Peer, t: Peer)
    requires Line(cs, a, p, n, t)
    ensures n != "" && ValidPolicies(cs)
  {
    InLine(cs, a, p, n, t);
    assert WiredNode(cs, a, map[p := 2, n := 1, t := 0], n) && Linked(cs, n, t);
    PeerNamed(cs[t], n);
  }

  lemma LineCanAsk(cs: Policies, a: Association, p: Peer, n: Peer, t: Peer, net: Net, id: KeyID, rp: Record,
        rn: Record, rt: Record)
    requires LineRests(cs, a, p, n, t, net, id, rp, rn, rt)
    ensures CanAsk(cs, net, p, n, t, id)
  {
    assert ValidID(id);
    hide LineRests, Passed, Starts, MayVoid, ValidID;
    LineMayVoid(cs, a, p, n, t, net, id, rp, rn, rt);
    LinePassed(cs, a, p, n, t, net, id, rp, rn, rt);
    LineStarts(cs, a, p, n, t, net, id, rp, rn, rt);
  }

  lemma LineReaches(cs: Policies, a: Association, p: Peer, n: Peer, t: Peer, net: Net, k: Key, now: Time, rt: Record)
    requires Line(cs, a, p, n, t) && k.Valid(now) && k.pair == a && p in cs && n in cs && t in cs
    requires rt == TargetHas(cs, a, p, n, t, k, now) || rt == Spent(TargetHas(cs, a, p, n, t, k, now))
    requires Stage(net, p, n, t, k.id, Some(SentOn(SourceRecord(k, [n]), n, now)),
      Some(SentOn(RelayHas(cs, a, p, n, k, now), t, now)), Some(rt))
    ensures CanAsk(cs, net, p, n, t, k.id) && Has(net, t, k.id) && Rec(net, t, k.id) == rt
  {
    assert ValidID(k.id);
    hide Line, Key.Valid, CanAsk, ValidID, SourceRecord, RelayHas, TargetHas;
    LineAfter(cs, a, p, n, t, net, k, now, rt);
    hide LineRests;
    LineCanAsk(cs, a, p, n, t, net, k.id, SentOn(SourceRecord(k, [n]), n, now),
      SentOn(RelayHas(cs, a, p, n, k, now), t, now), rt);
  }

  /** With and without the consumption the relay is in the same state. */
  lemma LineTwins(cs: Policies, a: Association, p: Peer, n: Peer, t: Peer, k: Key, now: Time)
    requires Line(cs, a, p, n, t) && k.Valid(now) && k.pair == a && p in cs && n in cs && t in cs
    ensures var net, net' := Run(cs, LinePath(cs, a, p, n, t, k, now)), Run(cs, LineRun(cs, a, p, n, t, k, now));
      && CanAsk(cs, net, p, n, t, k.id) && CanAsk(cs, net', p, n, t, k.id)
      && Has(net, t, k.id) && Has(net', t, k.id) && !Rec(net, t, k.id).delivered && Rec(net', t, k.id).delivered
      && n in net.nodes && n in net'.nodes && Disk(net, n) == Disk(net', n)
  {
    hide Line, Key.Valid, CanAsk, Run, LineRun, LinePath, Stage, SourceRecord, RelayHas, TargetHas;
    var rt := TargetHas(cs, a, p, n, t, k, now);
    TargetRecord(cs, a, p, n, t, k, now);
    LineStages(cs, a, p, n, t, k, now);
    LineArrives(cs, a, p, n, t, k, now);
    LineReaches(cs, a, p, n, t, Run(cs, LineRun(cs, a, p, n, t, k, now)), k, now, Spent(rt));
    LineReaches(cs, a, p, n, t, Run(cs, LinePath(cs, a, p, n, t, k, now)), k, now, rt);
  }

  /** On every line of three nodes and for every valid key of its pair there are two runs that end in the same
      journal of the relay, which owes the source "voided": in one the target delivered the key, in the other it
      voided it. */
  lemma LineMisleads(cs: Policies, a: Association, p: Peer, n: Peer, t: Peer, k: Key, now: Time)
    requires Line(cs, a, p, n, t) && k.Valid(now) && k.pair == a
    ensures exists one: seq<Label>, two: seq<Label> :: Twins(Run(cs, one), Run(cs, two), p, n, t, k.id)
  {
    hide Line, Key.Valid, CanAsk, Run, Twins, LineRun, LinePath, ValidPolicies;
    InLine(cs, a, p, n, t);
    LineNames(cs, a, p, n, t);
    LineTwins(cs, a, p, n, t, k, now);
    BothWays(cs, LineRun(cs, a, p, n, t, k, now), LinePath(cs, a, p, n, t, k, now), p, n, t, k.id);
  }

  lemma BothWays(cs: Policies, labels: seq<Label>, other: seq<Label>, p: Peer, n: Peer, t: Peer, id: KeyID)
    requires ValidPolicies(cs) && CanAsk(cs, Run(cs, labels), p, n, t, id) && CanAsk(cs, Run(cs, other), p, n, t, id)
    requires Rec(Run(cs, labels), t, id).delivered && !Rec(Run(cs, other), t, id).delivered
    requires Disk(Run(cs, labels), n) == Disk(Run(cs, other), n)
    ensures exists one: seq<Label>, two: seq<Label> :: Twins(Run(cs, one), Run(cs, two), p, n, t, id)
  {
    hide CanAsk, Run, Twins;
    RelayCannotTell(cs, labels, other, p, n, t, id);
    var more: seq<Label>, rest: seq<Label> :| Twins(Run(cs, labels + more), Run(cs, other + rest), p, n, t, id);
    var one, two := labels + more, other + rest;
    assert Twins(Run(cs, one), Run(cs, two), p, n, t, id);
  }

  // Such a line.

  const PAIR: Association := Association("LU", "GR")

  const SOURCE: Policy := Policy(Config("https://p", "urn:p", ["LU"],
    map["n" := PeerInfo("https://n", "urn:n", LabRelay, true)], map["GR" := ["n"]]), {PAIR}, 8)

  const MIDDLE: Policy := Policy(
    Config("https://n", "urn:n", [],
           map["p" := PeerInfo("https://p", "urn:p", LabRelay, true),
             "t" := PeerInfo("https://t", "urn:t", LabRelay, true)],
           map["GR" := ["t"]]),
    {PAIR}, 8)

  const TARGET: Policy := Policy(Config("https://t", "urn:t", ["GR"],
    map["n" := PeerInfo("https://n", "urn:n", LabRelay, true)], map[]), {PAIR}, 8)

  const THREE: Policies := map["p" := SOURCE, "n" := MIDDLE, "t" := TARGET]

  lemma Literals()
    ensures "urn:p"[..4] == "urn:" && "urn:n"[..4] == "urn:" && "urn:t"[..4] == "urn:"
    ensures "urn:p" != "urn:n" && "urn:n" != "urn:t" && "urn:p" != "urn:t"
    ensures "https://p" != "https://n" && "https://n" != "https://t" && "https://p" != "https://t"
    ensures "p" != "n" && "n" != "t" && "p" != "t" && "LU" != "GR"
  {
    assert "urn:p"[4] == 'p' && "urn:n"[4] == 'n' && "urn:t"[4] == 't';
    assert "https://p"[8] == 'p' && "https://n"[8] == 'n' && "https://t"[8] == 't';
    assert "p"[0] == 'p' && "n"[0] == 'n' && "t"[0] == 't' && "LU"[0] == 'L' && "GR"[0] == 'G';
  }

  lemma PairValid()
    ensures PAIR.Valid() && Pair(PAIR.master, [PAIR.slave]) == Ok(PAIR)
  {
    Literals();
  }

  lemma SourceValid()
    ensures SOURCE.Valid()
  {
    hide Pair, Association.Valid;
    Literals();
    PairValid();
    assert GoodRoute(SOURCE.cfg, "GR");
    assert DistinctPeers(SOURCE.cfg, SOURCE.cfg.peers.Keys);
    assert "n" in SOURCE.cfg.peers && WellFormed(SOURCE.cfg);
  }

  lemma MiddleValid()
    ensures MIDDLE.Valid()
  {
    hide Pair, Association.Valid;
    Literals();
    PairValid();
    assert GoodRoute(MIDDLE.cfg, "GR");
    assert DistinctPeers(MIDDLE.cfg, MIDDLE.cfg.peers.Keys);
    assert "p" in MIDDLE.cfg.peers && WellFormed(MIDDLE.cfg);
  }

  lemma TargetValid()
    ensures TARGET.Valid()
  {
    Literals();
    PairValid();
    assert DistinctPeers(TARGET.cfg, TARGET.cfg.peers.Keys);
    assert "n" in TARGET.cfg.peers && WellFormed(TARGET.cfg);
  }

  const HOPS: Hops := map["p" := 2, "n" := 1, "t" := 0]

  lemma ThreeLinked()
    ensures Linked(THREE, "p", "n") && Linked(THREE, "n", "t")
  {
    Literals();
    assert "GR" in SOURCE.cfg.routes && "GR" in MIDDLE.cfg.routes;
  }

  lemma ThreeWired()
    ensures forall p :: p in THREE ==> WiredNode(THREE, PAIR, HOPS, p)
  {
    Literals();
    ThreeLinked();
    assert "GR" in SOURCE.cfg.routes && "GR" in MIDDLE.cfg.routes;
    hide Linked;
    assert WiredNode(THREE, PAIR, HOPS, "p") && WiredNode(THREE, PAIR, HOPS, "n") && WiredNode(THREE, PAIR, HOPS, "t");
  }

  lemma ThreeValid()
    ensures ValidPolicies(THREE) && forall p :: p in THREE ==> PAIR in THREE[p].allowed
  {
    SourceValid();
    MiddleValid();
    TargetValid();
    hide Policy.Valid;
  }

  /** There is such a line. */
  lemma ThreeInLine()
    ensures Line(THREE, PAIR, "p", "n", "t")
  {
    Literals();
    PairValid();
    ThreeValid();
    ThreeWired();
    ThreeLinked();
    hide Policy.Valid, Association.Valid, Pair, WiredNode, ValidPolicies;
    assert "GR" in SOURCE.cfg.routes && "GR" in MIDDLE.cfg.routes;
  }
}
