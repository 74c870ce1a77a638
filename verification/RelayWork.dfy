/** How much of a key's way, forth to its target and back with the acknowledgement, is left. */
module RelayWork {
  import opened Core
  import opened Uuid
  import opened Peering
  import opened Etsi020
  import opened RelayState
  import opened RelayInvariant
  import opened RelayHandlers
  import opened RelayNetwork
  import opened RelayTrace
  import opened RelayMoves
  import opened RelayRuns
  import opened RelayTheorems
  import opened RelayWiring

  // Acknowledged results took effect.

  ghost predicate NotVoided(net: Net, id: KeyID) { forall n :: Has(net, n, id) ==> !Rec(net, n, id).voiding }

  /** A node that committed "relayed" for a key has a ready record of it, unless it is being voided. */
  ghost predicate Heard(net: Net) {
    forall m, id :: m in net.processed && m.AckMsg? && m.ack.status == Relayed && m.ack.ids == [id] ==>
      Has(net, m.to, id) && (Rec(net, m.to, id).ready || Rec(net, m.to, id).voiding)
  }

  ghost predicate Good(cs: Policies, net: Net) { NetInv(cs, net) && Heard(net) }

  lemma HeardStays(net: Net, net': Net)
    requires Heard(net) && Grows(net, net') && net'.processed == net.processed
    ensures Heard(net')
  {
    forall m, id | m in net'.processed && m.AckMsg? && m.ack.status == Relayed && m.ack.ids == [id]
      ensures Has(net', m.to, id) && (Rec(net', m.to, id).ready || Rec(net', m.to, id).voiding) {
      assert Has(net, m.to, id);
      assert Later(Rec(net, m.to, id), Rec(net', m.to, id));
    }
  }

  /** Committing "relayed" for a single key makes its record ready, or finds it voided. */
  lemma RelayedTakesEffect(c: Policy, s: State, peer: Peer, ack: Ack, id: KeyID, now: Time)
    requires ack.ids == [id] && ack.status == Relayed && Acknowledge(c, s, peer, [ack], now).Ok?
    ensures var s' := Acknowledge(c, s, peer, [ack], now).value;
      id in s'.keys && (s'.keys[id].ready || s'.keys[id].voiding)
  {
    var w := Working(s);
    assert AckCheck(w, peer, [ack], 0, 0).Ok?;
    assert id in w.keys;
    assert AckKeys(w, peer, [ack], 0, 0, now) == AckKeys(AckKey(w, peer, Relayed, id, now), peer, [ack], 0, 1, now);
    assert AckKeys(AckKey(w, peer, Relayed, id, now), peer, [ack], 0, 1, now) == AckKey(w, peer, Relayed, id, now);
    AckKeyEffect(w, peer, id, now);
  }

  lemma AckKeyEffect(s: State, peer: Peer, id: KeyID, now: Time)
    requires id in s.keys
    ensures var s' := AckKey(s, peer, Relayed, id, now); id in s'.keys && (s'.keys[id].ready || s'.keys[id].voiding)
  {
    hide WithoutKey, VoidStatus, OwedPeers;
  }

  lemma DeliverHeard(cs: Policies, net: Net, m: Msg, now: Time, f: Fault)
    requires ValidPolicies(cs) && Good(cs, net)
    ensures Heard(ApplyDeliver(cs, net, m, now, f))
  {
    hide NetInv;
    var net' := ApplyDeliver(cs, net, m, now, f);
    DeliverKeeps(cs, net, m, now, f);
    forall k, id | k in net'.processed && k.AckMsg? && k.ack.status == Relayed && k.ack.ids == [id]
      ensures Has(net', k.to, id) && (Rec(net', k.to, id).ready || Rec(net', k.to, id).voiding) {
      if k in net.processed {
        assert Has(net, k.to, id);
        assert Later(Rec(net, k.to, id), Rec(net', k.to, id));
      } else {
        hide Acknowledge, Later, Grows;
        RelayedTakesEffect(cs[m.to], net.nodes[m.to].store.live, k.from, k.ack, id, now);
      }
    }
  }

  lemma SameProcessed(cs: Policies, net: Net, l: Label)
    requires !l.Deliver?
    ensures Apply(cs, net, l).processed == net.processed
  {
    hide StoreBody, Reserve, ConsumeReservation, ConsumePeer, Invalidate, Expire, CommitSend, Defer, AckSent,
      AckFailed, ExtendPath, Transact;
  }

  lemma GoodStep(cs: Policies, net: Net, l: Label)
    requires ValidPolicies(cs) && Good(cs, net)
    ensures Good(cs, Apply(cs, net, l)) && Grows(net, Apply(cs, net, l))
  {
    StepKeeps(cs, net, l);
    if l.Deliver? { DeliverHeard(cs, net, l.m, l.now, l.f); }
    else {
      SameProcessed(cs, net, l);
      hide NetInv, Heard, Grows, Apply;
      HeardStays(net, Apply(cs, net, l));
    }
  }

  lemma {:induction false} GoodRun(cs: Policies, labels: seq<Label>)
    requires ValidPolicies(cs)
    ensures Good(cs, Run(cs, labels))
  {
    hide Good, Grows, Apply;
    if labels == [] {
      InitInv(cs);
      assert Good(cs, Init(cs)) by { InitGood(cs); }
    } else {
      GoodRun(cs, labels[..|labels| - 1]);
      GoodStep(cs, Run(cs, labels[..|labels| - 1]), labels[|labels| - 1]);
    }
  }

  lemma InitGood(cs: Policies)
    requires NetInv(cs, Init(cs))
    ensures Good(cs, Init(cs))
  {
  }

  // The path of a key.

  /** The key travels for the wired pair, from a node that has a distance. */
  ghost predicate Travels(cs: Policies, a: Association, hops: Hops, net: Net, id: KeyID) {
    && Wired(cs, a, hops) && Good(cs, net) && NotVoided(net, id)
    && id in net.path && id in net.origin && net.origin[id].pair == a && ValidID(id)
    && net.path[id] != [] && net.path[id][0] in hops
  }

  lemma Facts(cs: Policies, a: Association, hops: Hops, net: Net, id: KeyID, n: Peer)
    requires Travels(cs, a, hops, net, id) && Has(net, n, id)
    ensures n in cs && n in net.nodes && RecInv(cs[n], id, Rec(net, n, id)) && Rec(net, n, id).pair == a
    ensures n in net.path[id] && (Rec(net, n, id).ready ==> Reached(net, id))
    ensures var r := Rec(net, n, id);
      !r.voiding && !r.unknown && (Holds(r) ==> r.material == net.origin[id].bytes) && r.keyExt == map[]
        && r.optional == map[] && |net.origin[id].bytes| == KEY_BYTES
  {
    RecordFacts(cs, net, n, id);
  }

  lemma HopAt(cs: Policies, a: Association, hops: Hops, net: Net, id: KeyID, i: nat)
    requires Travels(cs, a, hops, net, id) && i < |net.path[id]|
    ensures Hop(net, id, i) && |net.path[id]| > 0
  {
    HopOf(cs, net, id, i);
  }

  /** The node of a path has a distance if the one before has; it is smaller by one or more. */
  lemma HopWired(cs: Policies, a: Association, hops: Hops, net: Net, id: KeyID, i: nat)
    requires Travels(cs, a, hops, net, id) && i + 1 < |net.path[id]| && net.path[id][i] in hops
    ensures var p := net.path[id];
      p[i] in hops && p[i + 1] in hops && hops[p[i + 1]] < hops[p[i]] && Linked(cs, p[i], p[i + 1])
  {
    HopAt(cs, a, hops, net, id, i);
    Facts(cs, a, hops, net, id, net.path[id][i]);
    hide Good, NotVoided, Linked;
    assert WiredNode(cs, a, hops, net.path[id][i]);
  }

  lemma {:induction false} PathWired(cs: Policies, a: Association, hops: Hops, net: Net, id: KeyID, i: nat)
    requires Travels(cs, a, hops, net, id) && i < |net.path[id]|
    ensures net.path[id][i] in hops
  {
    hide Wired, Good, NotVoided, Linked, ValidID;
    if i > 0 {
      PathWired(cs, a, hops, net, id, i - 1);
      hide Travels;
      HopWired(cs, a, hops, net, id, i - 1);
    }
  }

  /** Each hop leads closer to the target. */
  lemma Descends(cs: Policies, a: Association, hops: Hops, net: Net, id: KeyID, i: nat)
    requires Travels(cs, a, hops, net, id) && i + 1 < |net.path[id]|
    ensures var p := net.path[id];
      p[i] in hops && p[i + 1] in hops && hops[p[i + 1]] < hops[p[i]] && Linked(cs, p[i], p[i + 1])
  {
    PathWired(cs, a, hops, net, id, i);
    HopWired(cs, a, hops, net, id, i);
    hide Travels;
  }

  lemma {:induction false} DescendsFar(cs: Policies, a: Association, hops: Hops, net: Net, id: KeyID, i: nat, j: nat)
    requires Travels(cs, a, hops, net, id) && i <= j < |net.path[id]|
    ensures var p := net.path[id]; p[i] in hops && p[j] in hops && hops[p[j]] + (j - i) <= hops[p[i]]
    decreases j - i
  {
    hide Travels;
    if i < j {
      assert Travels(cs, a, hops, net, id);
      Descends(cs, a, hops, net, id, i);
      DescendsFar(cs, a, hops, net, id, i + 1, j);
    } else {
      PathWired(cs, a, hops, net, id, i);
    }
  }

  lemma OnPathKnown(cs: Policies, a: Association, hops: Hops, net: Net, id: KeyID, i: nat)
    requires Travels(cs, a, hops, net, id) && i < |net.path[id]|
    ensures Has(net, net.path[id][i], id) && net.path[id][i] in cs && net.path[id][i] in hops
  {
    HopAt(cs, a, hops, net, id, i);
    Facts(cs, a, hops, net, id, net.path[id][i]);
    PathWired(cs, a, hops, net, id, i);
    hide Travels;
  }

  function Last(net: Net, id: KeyID): Peer
    requires id in net.path && net.path[id] != []
  {
    net.path[id][|net.path[id]| - 1]
  }

  /** The target has the key. */
  ghost predicate Arrived(net: Net, id: KeyID) {
    id in net.path && net.path[id] != [] && Has(net, Last(net, id), id) && Rec(net, Last(net, id), id).role == Target
  }

  lemma PathStays(net: Net, net': Net, id: KeyID)
    requires Grows(net, net') && id in net.path
    ensures id in net'.path && net.path[id] <= net'.path[id]
  {
  }

  lemma RoleStays(net: Net, net': Net, n: Peer, id: KeyID)
    requires Grows(net, net') && Has(net, n, id)
    ensures Has(net', n, id) && Rec(net', n, id).role == Rec(net, n, id).role
  {
    assert Later(Rec(net, n, id), Rec(net', n, id));
  }

  lemma ArrivedStays(cs: Policies, a: Association, hops: Hops, net: Net, net': Net, id: KeyID)
    requires Travels(cs, a, hops, net, id) && Travels(cs, a, hops, net', id) && Grows(net, net') && Arrived(net, id)
    ensures Arrived(net', id) && net'.path[id] == net.path[id]
  {
    hide Wired, Grows, NotVoided, Heard, Later, NetInv;
    PathStays(net, net', id);
    RoleStays(net, net', Last(net, id), id);
    TargetIsLast(cs, net', id, |net.path[id]| - 1);
  }

  lemma NonEmptyPath(cs: Policies, a: Association, hops: Hops, net: Net, id: KeyID)
    requires Travels(cs, a, hops, net, id)
    ensures net.path[id] != []
  {
  }

  /** Not there yet: the last node serves no recipient of the key and is still hops away. */
  lemma StillAway(cs: Policies, a: Association, hops: Hops, net: Net, id: KeyID)
    requires Travels(cs, a, hops, net, id) && net.path[id] != [] && !Arrived(net, id)
    ensures Last(net, id) in hops && hops[Last(net, id)] > 0 && Has(net, Last(net, id), id)
      && Rec(net, Last(net, id), id).role != Target
  {
    OnPathKnown(cs, a, hops, net, id, |net.path[id]| - 1);
    Facts(cs, a, hops, net, id, Last(net, id));
    assert WiredNode(cs, a, hops, Last(net, id));
    hide Good, NotVoided;
  }

  lemma NotReadyYet(cs: Policies, a: Association, hops: Hops, net: Net, id: KeyID)
    requires Travels(cs, a, hops, net, id) && net.path[id] != [] && !Arrived(net, id)
    ensures Has(net, Last(net, id), id) && !Rec(net, Last(net, id), id).ready
  {
    var n := Last(net, id);
    StillAway(cs, a, hops, net, id);
    Facts(cs, a, hops, net, id, n);
    hide Travels, Arrived, Reached, RecInv;
    if Rec(net, n, id).ready { EndReached(cs, a, hops, net, id); }
  }

  /** A target that has the key ends its path. */
  lemma EndReached(cs: Policies, a: Association, hops: Hops, net: Net, id: KeyID)
    requires Travels(cs, a, hops, net, id) && net.path[id] != [] && Reached(net, id)
    ensures Arrived(net, id)
  {
    hide Wired, NotVoided, Heard;
    var t :| Has(net, t, id) && Rec(net, t, id).role == Target && !Rec(net, t, id).unknown;
    Facts(cs, a, hops, net, id, t);
    var j :| 0 <= j < |net.path[id]| && net.path[id][j] == t;
    TargetIsLast(cs, net, id, j);
  }

  /** A node closer to the target than the last one is not on the path. */
  lemma NotBack(cs: Policies, a: Association, hops: Hops, net: Net, id: KeyID, to: Peer)
    requires Travels(cs, a, hops, net, id) && net.path[id] != [] && Last(net, id) in cs
      && to in cs[Last(net, id)].Route(a.slave)
    ensures to in cs && to in hops && to != Last(net, id) && to !in net.path[id] && !Has(net, to, id)
  {
    PathWired(cs, a, hops, net, id, |net.path[id]| - 1);
    assert WiredNode(cs, a, hops, Last(net, id));
    if i :| 0 <= i < |net.path[id]| && net.path[id][i] == to {
      DescendsFar(cs, a, hops, net, id, i, |net.path[id]| - 1);
    }
    if Has(net, to, id) { Facts(cs, a, hops, net, id, to); }
  }

  lemma Lengthens(cs: Policies, a: Association, hops: Hops, net: Net, net': Net, id: KeyID, to: Peer)
    requires Travels(cs, a, hops, net, id) && Travels(cs, a, hops, net', id) && Grows(net, net') && !Has(net, to, id)
      && Has(net', to, id)
    ensures |net'.path[id]| > |net.path[id]|
  {
    PathStays(net, net', id);
    Facts(cs, a, hops, net', id, to);
    var i :| 0 <= i < |net'.path[id]| && net'.path[id][i] == to;
    if i < |net.path[id]| { OnPathKnown(cs, a, hops, net, id, i); }
  }

  lemma Between(cs: Policies, a: Association, hops: Hops, net: Net, net1: Net, net2: Net, id: KeyID)
    requires Travels(cs, a, hops, net, id) && Grows(net, net1) && Good(cs, net1) && Grows(net1, net2)
      && NotVoided(net2, id)
    ensures Travels(cs, a, hops, net1, id)
  {
    forall n | Has(net1, n, id) ensures !Rec(net1, n, id).voiding { assert Later(Rec(net1, n, id), Rec(net2, n, id)); }
    PathStays(net, net1, id);
  }

  lemma EndsNotVoided(net: Net, net': Net, id: KeyID)
    requires Grows(net, net') && NotVoided(net', id)
    ensures NotVoided(net, id)
  {
    forall n | Has(net, n, id) ensures !Rec(net, n, id).voiding { assert Later(Rec(net, n, id), Rec(net', n, id)); }
  }

  // The work left.

  ghost predicate ReadyAt(net: Net, id: KeyID, i: nat) {
    id in net.path && i < |net.path[id]| && Has(net, net.path[id][i], id) && Rec(net, net.path[id][i], id).ready
  }

  /** The first ready position of the path from i on. */
  ghost function FirstReady(net: Net, id: KeyID, i: nat): (k: nat)
    requires id in net.path && i < |net.path[id]| && ReadyAt(net, id, |net.path[id]| - 1)
    ensures i <= k < |net.path[id]| && ReadyAt(net, id, k) && forall j :: i <= j < k ==> !ReadyAt(net, id, j)
    decreases |net.path[id]| - i
  {
    if ReadyAt(net, id, i) then i else FirstReady(net, id, i + 1)
  }

  lemma TargetReady(cs: Policies, a: Association, hops: Hops, net: Net, id: KeyID)
    requires Travels(cs, a, hops, net, id) && Arrived(net, id)
    ensures ReadyAt(net, id, |net.path[id]| - 1)
  {
    hide Good, Wired, NotVoided, Reached;
    Facts(cs, a, hops, net, id, Last(net, id));
  }

  /** Hops the key still has to go, forth and back. */
  ghost function Work(cs: Policies, a: Association, hops: Hops, net: Net, id: KeyID): nat
    requires Travels(cs, a, hops, net, id)
  {
    assert net.path[id] != [] by { PathHas(net, id); }
    OnPathKnown(cs, a, hops, net, id, |net.path[id]| - 1);
    if Arrived(net, id) then
      TargetReady(cs, a, hops, net, id);
      FirstReady(net, id, 0)
    else |net.path[id]| - 1 + 2 * hops[Last(net, id)]
  }

  /** Whose worker step does the next piece of it. */
  ghost function Responsible(cs: Policies, a: Association, hops: Hops, net: Net, id: KeyID): Peer
    requires Travels(cs, a, hops, net, id)
  {
    assert net.path[id] != [] by { PathHas(net, id); }
    OnPathKnown(cs, a, hops, net, id, |net.path[id]| - 1);
    if Arrived(net, id) then
      TargetReady(cs, a, hops, net, id);
      net.path[id][FirstReady(net, id, 0)]
    else Last(net, id)
  }

  lemma ReadyStays(net: Net, net': Net, id: KeyID, i: nat)
    requires Grows(net, net') && NotVoided(net', id) && ReadyAt(net, id, i)
    ensures ReadyAt(net', id, i)
  {
    var n := net.path[id][i];
    assert Has(net', n, id) && Later(Rec(net, n, id), Rec(net', n, id));
    PathStays(net, net', id);
  }

  /** The work never grows; while it stays the same, so does whose turn it is. */
  lemma WorkShrinks(cs: Policies, a: Association, hops: Hops, net: Net, net': Net, id: KeyID)
    requires Travels(cs, a, hops, net, id) && Travels(cs, a, hops, net', id) && Grows(net, net')
    ensures Work(cs, a, hops, net', id) <= Work(cs, a, hops, net, id)
    ensures Work(cs, a, hops, net', id) == Work(cs, a, hops, net, id) ==>
      Responsible(cs, a, hops, net', id) == Responsible(cs, a, hops, net, id)
    ensures !Arrived(net, id) && |net'.path[id]| > |net.path[id]| ==>
      Work(cs, a, hops, net', id) < Work(cs, a, hops, net, id)
  {
    if Arrived(net, id) { WorkBack(cs, a, hops, net, net', id); } else { WorkForth(cs, a, hops, net, net', id); }
  }

  lemma WorkBack(cs: Policies, a: Association, hops: Hops, net: Net, net': Net, id: KeyID)
    requires Travels(cs, a, hops, net, id) && Travels(cs, a, hops, net', id) && Grows(net, net') && Arrived(net, id)
    ensures Work(cs, a, hops, net', id) <= Work(cs, a, hops, net, id)
    ensures Work(cs, a, hops, net', id) == Work(cs, a, hops, net, id) ==>
      Responsible(cs, a, hops, net', id) == Responsible(cs, a, hops, net, id)
  {
    NonEmptyPath(cs, a, hops, net, id);
    ArrivedStays(cs, a, hops, net, net', id);
    TargetReady(cs, a, hops, net, id);
    TargetReady(cs, a, hops, net', id);
    var k := FirstReady(net, id, 0);
    assert NotVoided(net', id);
    hide Travels, Arrived, ReadyAt, Grows, NotVoided;
    ReadyStays(net, net', id, k);
    assert FirstReady(net', id, 0) <= k;
  }

  lemma WorkAway(cs: Policies, a: Association, hops: Hops, net: Net, id: KeyID)
    requires Travels(cs, a, hops, net, id)
    ensures net.path[id] != [] && Last(net, id) in hops
    ensures !Arrived(net, id) ==>
      Work(cs, a, hops, net, id) == |net.path[id]| - 1 + 2 * hops[Last(net, id)]
      && Responsible(cs, a, hops, net, id) == Last(net, id)
    ensures Arrived(net, id) ==> Work(cs, a, hops, net, id) <= |net.path[id]| - 1
  {
    NonEmptyPath(cs, a, hops, net, id);
    OnPathKnown(cs, a, hops, net, id, |net.path[id]| - 1);
    hide Travels;
  }

  lemma WorkForth(cs: Policies, a: Association, hops: Hops, net: Net, net': Net, id: KeyID)
    requires Travels(cs, a, hops, net, id) && Travels(cs, a, hops, net', id) && Grows(net, net') && !Arrived(net, id)
    ensures Work(cs, a, hops, net', id) <= Work(cs, a, hops, net, id)
    ensures Work(cs, a, hops, net', id) == Work(cs, a, hops, net, id) ==>
      Responsible(cs, a, hops, net', id) == Responsible(cs, a, hops, net, id)
    ensures |net'.path[id]| > |net.path[id]| ==> Work(cs, a, hops, net', id) < Work(cs, a, hops, net, id)
  {
    hide Arrived, ReadyAt, Grows, Work, Responsible, Wired, Good, NotVoided;
    WorkAway(cs, a, hops, net, id);
    WorkAway(cs, a, hops, net', id);
    StillAway(cs, a, hops, net, id);
    PathStays(net, net', id);
    DescendsFar(cs, a, hops, net', id, |net.path[id]| - 1, |net'.path[id]| - 1);
  }

  lemma WorkDone(cs: Policies, a: Association, hops: Hops, net: Net, id: KeyID)
    requires Travels(cs, a, hops, net, id) && Work(cs, a, hops, net, id) == 0
    ensures ReadyAt(net, id, 0)
  {
    NonEmptyPath(cs, a, hops, net, id);
    if !Arrived(net, id) { StillAway(cs, a, hops, net, id); }
  }

  lemma ResponsibleKnown(cs: Policies, a: Association, hops: Hops, net: Net, id: KeyID)
    requires Travels(cs, a, hops, net, id)
    ensures Responsible(cs, a, hops, net, id) in cs && Responsible(cs, a, hops, net, id) in hops
  {
    NonEmptyPath(cs, a, hops, net, id);
    OnPathKnown(cs, a, hops, net, id, |net.path[id]| - 1);
    if Arrived(net, id) {
      TargetReady(cs, a, hops, net, id);
      OnPathKnown(cs, a, hops, net, id, FirstReady(net, id, 0));
    }
    hide Travels;
  }

  lemma WorkBounded(cs: Policies, a: Association, hops: Hops, net: Net, id: KeyID, h: nat)
    requires Travels(cs, a, hops, net, id) && net.path[id] != [] && net.path[id][0] in hops
      && hops[net.path[id][0]] <= h
    ensures Work(cs, a, hops, net, id) <= 2 * h
  {
    hide Good, Wired, NotVoided;
    assert id in net.path;
    hide Travels, Arrived, ReadyAt, Work;
    WorkAway(cs, a, hops, net, id);
    DescendsFar(cs, a, hops, net, id, 0, |net.path[id]| - 1);
  }

  lemma OriginKnown(cs: Policies, labels: seq<Label>, src: Peer, id: KeyID)
    requires ValidPolicies(cs) && Good(cs, Run(cs, labels)) && Has(Run(cs, labels), src, id)
    ensures var net := Run(cs, labels);
      id in net.path && id in net.origin && net.origin[id].pair == Rec(net, src, id).pair && ValidID(id)
  {
    RecordFacts(cs, Run(cs, labels), src, id);
    PathsOf(cs, Run(cs, labels));
    hide NetInv, ValidID;
    OriginSized(cs, labels, id);
  }

  lemma SourceStarts(cs: Policies, net: Net, id: KeyID, src: Peer)
    requires NetInv(cs, net) && id in net.path && Has(net, src, id) && Rec(net, src, id).role == Source
    ensures net.path[id] != [] && net.path[id][0] == src
  {
    PathsOf(cs, net);
    HopOf(cs, net, id, 0);
    RecordFacts(cs, net, src, id);
    RecordFacts(cs, net, net.path[id][0], id);
    hide NetInv;
  }

  // What the next node before owes.

  /** Node n has the key ready and got it from node q, which sent it there. */
  ghost predicate Downstream(cs: Policies, a: Association, net: Net, id: KeyID, n: Peer, q: Peer) {
    && n in cs && q in cs && n in net.nodes && q in net.nodes && Has(net, n, id) && Has(net, q, id)
      && Rec(net, n, id).sender == q && q != ""
    && OwedPeers(Rec(net, n, id)) == {q} && CurrentStatus(Rec(net, n, id)) == Relayed && Rec(net, n, id).pair == a
    && Rec(net, q, id).sent && Rec(net, q, id).next == n && Rec(net, q, id).pair == a && Linked(cs, q, n)
  }

  lemma Upstream(cs: Policies, a: Association, hops: Hops, net: Net, id: KeyID, i: nat)
    requires Travels(cs, a, hops, net, id) && 0 < i < |net.path[id]| && ReadyAt(net, id, i)
    ensures Downstream(cs, a, net, id, net.path[id][i], net.path[id][i - 1])
  {
    hide Wired, Good, NotVoided, Linked, RecInv, Reached;
    var n, q := net.path[id][i], net.path[id][i - 1];
    HopAt(cs, a, hops, net, id, i);
    HopAt(cs, a, hops, net, id, i - 1);
    Facts(cs, a, hops, net, id, n);
    Facts(cs, a, hops, net, id, q);
    Descends(cs, a, hops, net, id, i - 1);
    SenderNamed(cs, a, hops, net, id, n);
  }

  lemma SenderNamed(cs: Policies, a: Association, hops: Hops, net: Net, id: KeyID, n: Peer)
    requires Travels(cs, a, hops, net, id) && Has(net, n, id) && Rec(net, n, id).role != Source
    ensures Rec(net, n, id).sender != ""
  {
    Facts(cs, a, hops, net, id, n);
    hide Good, NotVoided;
    PeerNamed(cs[n], Rec(net, n, id).sender);
  }

  lemma OwedOrAcked(cs: Policies, net: Net, n: Peer, id: KeyID, p: Peer)
    requires NetInv(cs, net) && Has(net, n, id) && p in OwedPeers(Rec(net, n, id))
    ensures ResultGood(net, n, id, p)
  {
  }

  lemma AckedReady(cs: Policies, net: Net, id: KeyID, n: Peer, q: Peer)
    requires Good(cs, net) && Acked(net, n, q, id, Relayed)
    ensures Has(net, q, id) && (Rec(net, q, id).ready || Rec(net, q, id).voiding)
  {
    hide NetInv, Claim, Reached;
    var m :| m in net.processed && m.AckMsg? && m.from == n && m.to == q && m.ack.status == Relayed && id in m.ack.ids;
    ProcessedGood(cs, net, m);
    assert m.ack.ids == [id];
  }

  lemma ProcessedGood(cs: Policies, net: Net, m: Msg)
    requires NetInv(cs, net) && m in net.processed
    ensures MsgGood(net, m)
  {
  }

  lemma JobOf(c: Policy, s: State, j: JobID)
    requires Inv(c, s) && j in s.acks
    ensures JobInv(c, s, j)
  {
  }

  lemma KeysNamed(c: Policy, s: State, id: KeyID)
    requires Inv(c, s) && id in s.keys
    ensures id != ""
  {
  }

  lemma AckAccepted(cs: Policies, a: Association, q: Peer, n: Peer, s: State, id: KeyID, at: Time)
    requires Linked(cs, q, n) && Pair(a.master, [a.slave]).Ok? && ValidID(id)
    requires id in s.keys && s.keys[id].pair == a && s.keys[id].sent && s.keys[id].next == n
    ensures var outcome := Acknowledge(cs[q], s, n, [Ack([id], Relayed, a.master, [a.slave])], at);
      outcome.Ok? && id in outcome.value.keys && (outcome.value.keys[id].ready || outcome.value.keys[id].voiding)
  {
    var ack := Ack([id], Relayed, a.master, [a.slave]);
    OneAckValid(ack, id);
    assert AckCheck(Working(s), n, [ack], 0, 0) == Ok(()) by {
      hide ValidAcks, ValidID;
      OneAckChecked(Working(s), n, ack, id);
    }
    hide ValidAcks, ValidID, Linked, AckCheck, AckKeys;
    assert AckGuard(cs[q], n, [ack]) == Ok(());
    RelayedTakesEffect(cs[q], s, n, ack, id, at);
  }

  lemma OneAckValid(ack: Ack, id: KeyID)
    requires ack.ids == [id] && ValidID(id) && Pair(ack.initiator, ack.targets).Ok?
    ensures ValidAcks([ack])
  {
    hide ValidID;
    assert [ack][1..] == [];
    assert AckIDs([ack]) == [id] + AckIDs([]);
  }

  lemma OneAckChecked(s: State, peer: Peer, ack: Ack, id: KeyID)
    requires ack.ids == [id] && |ack.targets| == 1 && MayAck(s, peer, ack, id)
    ensures AckCheck(s, peer, [ack], 0, 0) == Ok(())
  {
    assert AckCheck(s, peer, [ack], 0, 1) == AckCheck(s, peer, [ack], 1, 0);
  }
}
