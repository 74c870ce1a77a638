/** A void that moves upstream hides what happened downstream: the neighbour that asks counts as having
    confirmed, so a node may tell its sender "voided" although the target has delivered the key. */
module RelayVoidGap {
  import opened Core
  import opened Uuid
  import opened Peering
  import opened Etsi020
  import opened RelayState
  import opened RelayInvariant
  import opened RelayNetwork
  import opened RelayTrace
  import opened RelayRuns
  import opened RelayTheorems
  import opened RelayWiring

  // One node's part of a void.

  /** A neighbour that exchanged the key may ask to void it. */
  ghost predicate MayVoid(cs: Policies, net: Net, from: Peer, n: Peer, id: KeyID) {
    && from in cs && n in cs && Has(net, n, id) && from in cs[n].cfg.peers
      && cs[from].OwnCallback(n) == cs[n].CallbackOf(from)
    && 1 <= |cs[from].OwnCallback(n)| <= 1024
    && (Rec(net, n, id).sender == from || Rec(net, n, id).next == from)
    && Pair(Rec(net, n, id).pair.master, [Rec(net, n, id).pair.slave]).Ok? && Rec(net, n, id).pair in cs[n].allowed
    && |Disk(net, n).keys| <= cs[n].capacity
  }

  lemma InvalidateOutcome(s: State, id: KeyID)
    requires id in s.keys
    ensures Invalidate(s, id).Ok? && Invalidate(s, id).value.keys == s.keys[id := Voiding(s.keys[id], "")]
  {
    hide Owe, WithoutKey, Voiding, VoidStatus;
    assert StartVoid(Working(s), id, "").keys == s.keys[id := Voiding(s.keys[id], "")];
    OweKeys(StartVoid(Working(s), id, ""), id);
  }

  lemma OweKeys(s: State, id: KeyID)
    requires id in s.keys
    ensures FinishVoid(s, id).keys == s.keys
  {
  }

  lemma InvalidateStep(cs: Policies, net: Net, n: Peer, id: KeyID)
    requires NetInv(cs, net) && n in cs && Has(net, n, id) && !net.nodes[n].store.broken && !Rec(net, n, id).voiding
    ensures var net' := Apply(cs, net, InvalidateKey(n, id, Saves));
      && net'.nodes.Keys == net.nodes.Keys && Has(net', n, id) && Rec(net', n, id) == Voiding(Rec(net, n, id), "")
      && net'.nodes[n].worker == net.nodes[n].worker && !net'.nodes[n].store.broken
        && net'.nodes[n].store.live == Disk(net', n)
      && net'.sent == net.sent && forall m :: m in net.nodes && m != n ==> net'.nodes[m] == net.nodes[m]
  {
    hide NetInv, Inv, Invalidate, ExtendPath, Voiding, StartVoid, FinishVoid;
    LiveInv(cs, net, n);
    InvalidateOutcome(net.nodes[n].store.live, id);
  }

  lemma PostVoidStep(cs: Policies, net: Net, n: Peer, to: Peer, id: KeyID, r: Record)
    requires n in cs && n in net.nodes && net.nodes[n].worker == Picked(id, r) && r.voiding && to in r.voidPending
    ensures var net' := Apply(cs, net, PostVoid(n, to));
      net'.nodes == net.nodes && VoidMsg(n, to, VoidOf(cs[n], id, to, r)) in net'.sent
  {
    hide VoidOf;
  }

  /** What a void request from a neighbour does to the record. */
  lemma VoidAccepted(cs: Policies, net: Net, from: Peer, n: Peer, id: KeyID, r: Record, at: Time)
    requires MayVoid(cs, net, from, n, id) && ValidID(id) && r.pair == Rec(net, n, id).pair
    ensures var s := Disk(net, n);
      VoidRequest(cs[n], s, from, VoidOf(cs[from], id, n, r), at) == Ok(FinishVoid(StartVoid(Working(s), id, from), id))
  {
    hide ValidID, Pair, StartVoid, FinishVoid;
    var s, v, c := Disk(net, n), VoidOf(cs[from], id, n, r), cs[n];
    var w, a := Working(s), Rec(net, n, id).pair;
    assert VoidGuard(c, from, v) == Ok(a) by { OneVoidValid(v, id); }
    hide VoidGuard;
    assert VoidCheck(w, c.cfg.peers[from].incoming, from, a, [id], 0, 0) == Ok(0);
    assert VoidKeys(c, w, from, a, [id], 0, at) == VoidKey(c, w, from, a, id, at);
  }

  lemma OneVoidValid(v: Void, id: KeyID)
    requires v.ids == [id] && ValidID(id) && Pair(v.initiator, v.targets).Ok? && 1 <= |v.callback| <= 1024 && !v.all
    ensures VoidPair(v).Ok?
  {
    hide ValidID;
  }

  /** Node f voids the key on its operator's request and tells its neighbour n, which commits. */
  function VoidCalls(cs: Policies, f: Peer, n: Peer, id: KeyID, r: Record, at: Time): seq<Label>
    requires f in cs
  {
    [InvalidateKey(f, id, Saves), Pick(f, id, 0), PostVoid(f, n),
      Deliver(VoidMsg(f, n, VoidOf(cs[f], id, n, Voiding(r, ""))), at, Saves)]
  }

  ghost predicate Starts(cs: Policies, net: Net, f: Peer, n: Peer, id: KeyID) {
    && f != n && f in cs && n in cs && Has(net, f, id) && Has(net, n, id)
    && !net.nodes[f].store.broken && !net.nodes[n].store.broken && net.nodes[f].worker == Idle
    && !Rec(net, f, id).voiding && n in Neighbours(Rec(net, f, id)) && Rec(net, f, id).pair == Rec(net, n, id).pair
  }

  /** The first three calls put the request on its way and leave other nodes alone. */
  lemma AskPosts(cs: Policies, net: Net, f: Peer, n: Peer, id: KeyID)
    requires NetInv(cs, net) && Starts(cs, net, f, n, id)
    ensures var r1 := Voiding(Rec(net, f, id), "");
      var net3 := Apply(cs, Apply(cs, Apply(cs, net, InvalidateKey(f, id, Saves)), Pick(f, id, 0)), PostVoid(f, n));
      && VoidMsg(f, n, VoidOf(cs[f], id, n, r1)) in net3.sent
      && Has(net3, f, id) && Rec(net3, f, id) == r1
      && forall m :: m in net.nodes && m != f ==> m in net3.nodes && net3.nodes[m] == net.nodes[m]
  {
    var r := Rec(net, f, id);
    assert Voiding(r, "").voiding && n in Voiding(r, "").voidPending && Voiding(r, "").retry == 0;
    InvalidateStep(cs, net, f, id);
    hide NetInv, Apply, VoidOf, Voiding, Neighbours;
    var net1 := Apply(cs, net, InvalidateKey(f, id, Saves));
    PickStep(cs, net1, f, id, 0);
    var net2 := Apply(cs, net1, Pick(f, id, 0));
    PostVoidStep(cs, net2, f, n, id, Voiding(r, ""));
  }

  /** A node's state once a neighbour's request to void a key it knows is committed. */
  function Asked(s: State, id: KeyID, f: Peer): (s': State)
    requires id in s.keys
    ensures id in s'.keys
  {
    FinishVoid(StartVoid(Working(s), id, f), id)
  }

  lemma AsksToVoid(cs: Policies, net: Net, f: Peer, n: Peer, id: KeyID, at: Time)
    requires NetInv(cs, net) && ValidID(id) && Starts(cs, net, f, n, id) && MayVoid(cs, net, f, n, id)
    ensures var net' := Calls(cs, net, VoidCalls(cs, f, n, id, Rec(net, f, id), at));
      && n in net'.nodes && Disk(net', n) == Asked(Disk(net, n), id, f)
      && Has(net', f, id) && Rec(net', f, id) == Voiding(Rec(net, f, id), "")
      && !net'.nodes[n].store.broken && forall m :: m in net.nodes && m != n && m != f ==>
        m in net'.nodes && net'.nodes[m] == net.nodes[m]
  {
    hide NetInv, Inv, Apply, VoidOf, VoidRequest, ValidID, StartVoid, FinishVoid, MayVoid, Neighbours, Calls;
    var r := Rec(net, f, id);
    var r1 := Voiding(r, "");
    assert r1.pair == r.pair;
    hide Voiding;
    AskPosts(cs, net, f, n, id);
    LiveInv(cs, net, n);
    VoidAccepted(cs, net, f, n, id, r1, at);
    var net3 := Apply(cs, Apply(cs, Apply(cs, net, InvalidateKey(f, id, Saves)), Pick(f, id, 0)), PostVoid(f, n));
    VoidDelivered(cs, net3, VoidMsg(f, n, VoidOf(cs[f], id, n, r1)), at);
    FourCalls(cs, net, VoidCalls(cs, f, n, id, r, at));
  }

  lemma VoidDelivered(cs: Policies, net: Net, m: Msg, at: Time)
    requires m in net.sent && m.to in net.nodes && m.to in cs && !net.nodes[m.to].store.broken
    requires Handle(cs[m.to], net.nodes[m.to].store.live, m, at).Ok?
    ensures var net' := Apply(cs, net, Deliver(m, at, Saves));
      && m.to in net'.nodes && Disk(net', m.to) == Handle(cs[m.to], net.nodes[m.to].store.live, m, at).value
      && !net'.nodes[m.to].store.broken && forall k :: k in net.nodes && k != m.to ==>
        k in net'.nodes && net'.nodes[k] == net.nodes[k]
  {
    hide Handle, ExtendPath;
  }

  // The gap.

  /** The key went from p over the relay n to the target t; nobody is voiding it. */
  ghost predicate Passed(cs: Policies, net: Net, p: Peer, n: Peer, t: Peer, id: KeyID) {
    && Has(net, p, id) && Has(net, n, id) && Has(net, t, id) && p in cs && n in cs && t in cs
    && p != n && n != t && p != t && p != "" && t != ""
    && Rec(net, t, id).role == Target && Rec(net, t, id).sender == n
    && Rec(net, n, id).role == Relay && Rec(net, n, id).sender == p
    && Rec(net, n, id).sent && Rec(net, n, id).next == t
    && Rec(net, p, id).sent && Rec(net, p, id).next == n
    && !Rec(net, p, id).voiding && !Rec(net, n, id).voiding && !Rec(net, t, id).voiding
    && Rec(net, p, id).pair == Rec(net, n, id).pair && Rec(net, t, id).pair == Rec(net, n, id).pair
  }

  /** First the target asks: the relay forgets that it has to hear from it and waits for its sender only. */
  lemma TargetAsks(cs: Policies, net: Net, p: Peer, n: Peer, t: Peer, id: KeyID)
    requires NetInv(cs, net) && Passed(cs, net, p, n, t, id)
    ensures var r := Rec(net, n, id); var s' := Asked(Disk(net, n), id, t);
      && s' == StartVoid(Working(Disk(net, n)), id, t) && s'.keys == Disk(net, n).keys[id := Voiding(r, t)]
      && Voiding(r, t).voidPending == {p} && !r.delivered
  {
    hide NetInv, RecGood, Policy.Valid, ValidPolicies;
    RecordFacts(cs, net, n, id);
  }

  /** Then the sender asks: nothing is outstanding, and both are told that the key is voided. */
  lemma SenderTold(cs: Policies, c: Policy, s: State, r: Record, id: KeyID, p: Peer, t: Peer)
    requires Inv(c, s) && id in s.keys && s.keys[id] == Voiding(r, t) && Voiding(r, t).voidPending == {p}
    requires !r.voiding && !r.delivered && !r.unknown && p != "" && t != ""
    ensures var s' := Asked(s, id, p);
      Owed(s'.acks, p, id, Voided) && id in s'.keys && p in s'.keys[id].voidRequests
  {
    var w := Working(s);
    var s1 := StartVoid(w, id, p);
    var r1 := s1.keys[id];
    assert r1.voidPending == {} && r1.voidRequests == {t, p} && VoidStatus(r1) == Voided;
    WorkingInv(c, s);
    Shapely(c, w);
    OwePays(s1, id, r1.pair, r1.voidRequests, Voided, p);
  }

  /** The relay waits only for its sender p, and will say "voided". */
  ghost predicate HalfVoided(cs: Policies, net: Net, p: Peer, n: Peer, t: Peer, id: KeyID, r: Record) {
    && Starts(cs, net, p, n, id) && MayVoid(cs, net, p, n, id) && Rec(net, n, id) == Voiding(r, t)
    && Voiding(r, t).voidPending == {p} && !r.voiding && !r.delivered && !r.unknown && p != "" && t != ""
  }

  /** The key has passed the relay, both its neighbours may ask to void it, and their workers are free. */
  ghost predicate CanAsk(cs: Policies, net: Net, p: Peer, n: Peer, t: Peer, id: KeyID) {
    && Passed(cs, net, p, n, t, id) && ValidID(id)
    && Starts(cs, net, t, n, id) && MayVoid(cs, net, t, n, id)
    && Starts(cs, net, p, n, id) && MayVoid(cs, net, p, n, id)
  }

  lemma FirstAsk(cs: Policies, net: Net, p: Peer, n: Peer, t: Peer, id: KeyID, at: Time)
    requires NetInv(cs, net) && CanAsk(cs, net, p, n, t, id)
    ensures Has(net, t, id) && Has(net, n, id) && t in cs
    ensures var net1 := Calls(cs, net, VoidCalls(cs, t, n, id, Rec(net, t, id), at));
      && HalfVoided(cs, net1, p, n, t, id, Rec(net, n, id)) && n in net1.nodes
      && Disk(net1, n) == Asked(Disk(net, n), id, t)
      && Has(net1, t, id) && Rec(net1, t, id) == Voiding(Rec(net, t, id), "")
  {
    hide NetInv, StartVoid, FinishVoid, ValidID, VoidCalls, Voiding, Calls, MayVoid, Neighbours;
    var net1 := Calls(cs, net, VoidCalls(cs, t, n, id, Rec(net, t, id), at));
    TargetAsks(cs, net, p, n, t, id);
    NotUnknown(cs, net, n, id);
    VoidingKeeps(Rec(net, n, id), t);
    AsksToVoid(cs, net, t, n, id, at);
    SameRequest(cs, net, net1, p, n, id);
  }

  lemma VoidingKeeps(r: Record, from: Peer)
    ensures var r' := Voiding(r, from); r'.pair == r.pair && r'.sender == r.sender && r'.next == r.next
  {
    if r.voiding {} else if from == "" {}
  }

  lemma NotUnknown(cs: Policies, net: Net, n: Peer, id: KeyID)
    requires NetInv(cs, net) && Has(net, n, id) && !Rec(net, n, id).voiding
    ensures !Rec(net, n, id).unknown
  {
    RecordFacts(cs, net, n, id);
    hide NetInv;
  }

  lemma SecondAsk(cs: Policies, net: Net, p: Peer, n: Peer, t: Peer, id: KeyID, r: Record, at: Time)
    requires NetInv(cs, net) && ValidID(id) && HalfVoided(cs, net, p, n, t, id, r)
    ensures var net' := Calls(cs, net, VoidCalls(cs, p, n, id, Rec(net, p, id), at));
      n in net'.nodes && Owed(Disk(net', n).acks, p, id, Voided) && Disk(net', n) == Asked(Disk(net, n), id, p)
  {
    hide NetInv, StartVoid, FinishVoid, ValidID, VoidCalls, Voiding, Calls, MayVoid, Owed;
    AsksToVoid(cs, net, p, n, id, at);
    LiveInv(cs, net, n);
    SenderTold(cs, cs[n], Disk(net, n), r, id, p, t);
  }

  /** The relay n has told or owes its sender p that the key is voided, and the target t has delivered it. */
  ghost predicate Misled(net: Net, p: Peer, n: Peer, t: Peer, id: KeyID) {
    && n in net.nodes && Owed(Disk(net, n).acks, p, id, Voided) && SaysGone(net, n, id)
    && Has(net, t, id) && Rec(net, t, id).role == Target && Rec(net, t, id).delivered
  }

  /** First the target asks to void the key, then the sender: whatever the target did with the key, the relay
      ends up owing "voided", in a state that depends on nothing but its state before. */
  lemma AskTwice(cs: Policies, labels: seq<Label>, p: Peer, n: Peer, t: Peer, id: KeyID) returns (more: seq<Label>)
    requires ValidPolicies(cs) && CanAsk(cs, Run(cs, labels), p, n, t, id)
    ensures var net, net' := Run(cs, labels), Run(cs, labels + more);
      && Has(net, n, id) && n in net'.nodes && Disk(net', n) == Asked(Asked(Disk(net, n), id, t), id, p)
      && Owed(Disk(net', n).acks, p, id, Voided) && SaysGone(net', n, id)
      && Has(net, t, id) && Has(net', t, id) && Rec(net', t, id).role == Target && Rec(net', t, id).voiding
      && Rec(net', t, id).delivered == Rec(net, t, id).delivered
  {
    hide NetInv, Grows, Run, VoidCalls, Calls, HalfVoided, Apply, CanAsk, SaysGone, Owed, ValidPolicies, Asked, Voiding;
    var net := Run(cs, labels);
    RunKeeps(cs, labels);
    FirstAsk(cs, net, p, n, t, id, 0);
    var first := VoidCalls(cs, t, n, id, Rec(net, t, id), 0);
    CallsRun(cs, labels, first);
    var net1 := Run(cs, labels + first);
    RunKeeps(cs, labels + first);
    HalfStarts(cs, net1, p, n, t, id, Rec(net, n, id));
    var second := VoidCalls(cs, p, n, id, Rec(net1, p, id), 0);
    CallsRun(cs, labels + first, second);
    AskedID(cs, net, p, n, t, id);
    SecondAsk(cs, net1, p, n, t, id, Rec(net, n, id), 0);
    more := first + second;
    Regroup(labels, first, second);
    RunGrows(cs, labels + first, second);
    TargetStays(net, net1, Run(cs, labels + more), t, id);
    OwesGone(cs, labels + more, n, p, id);
  }

  lemma Regroup(a: seq<Label>, b: seq<Label>, d: seq<Label>)
    ensures a + (b + d) == a + b + d
  {
  }

  lemma TargetStays(net: Net, net1: Net, net2: Net, t: Peer, id: KeyID)
    requires Has(net, t, id) && Has(net1, t, id) && Rec(net1, t, id) == Voiding(Rec(net, t, id), "")
    requires Grows(net1, net2)
    ensures Has(net2, t, id) && Rec(net2, t, id).voiding && Rec(net2, t, id).role == Rec(net, t, id).role
    ensures Rec(net2, t, id).delivered == Rec(net, t, id).delivered
  {
    assert Later(Rec(net1, t, id), Rec(net2, t, id));
  }

  /** Whenever a relay has brought a key to a target that delivered it, two void requests, the first from the
      target, make the relay owe its sender "voided". */
  lemma UpwardVoidHidesDelivery(cs: Policies, labels: seq<Label>, p: Peer, n: Peer, t: Peer, id: KeyID)
    requires ValidPolicies(cs) && CanAsk(cs, Run(cs, labels), p, n, t, id) && Rec(Run(cs, labels), t, id).delivered
    ensures exists more: seq<Label> :: Misled(Run(cs, labels + more), p, n, t, id)
  {
    hide CanAsk, Run, SaysGone, Owed;
    var more := AskTwice(cs, labels, p, n, t, id);
    assert Misled(Run(cs, labels + more), p, n, t, id);
  }

  /** The relay has told or owes its sender that the key is voided, and it is: the target never delivers it. */
  ghost predicate Truthful(net: Net, p: Peer, n: Peer, t: Peer, id: KeyID) {
    && n in net.nodes && Owed(Disk(net, n).acks, p, id, Voided) && SaysGone(net, n, id)
    && Has(net, t, id) && Rec(net, t, id).role == Target && Rec(net, t, id).voiding && !Rec(net, t, id).delivered
  }

  /** One relay is misled, the other truthful, and their journals are the same. */
  ghost predicate Twins(one: Net, two: Net, p: Peer, n: Peer, t: Peer, id: KeyID) {
    Misled(one, p, n, t, id) && Truthful(two, p, n, t, id) && Disk(one, n) == Disk(two, n)
  }

  /** Two runs that differ, for all the relay knows, in nothing, though the target delivered the key in one only:
      they go on to the same journal of the relay, misled in one run and truthful in the other. So nothing a node
      could read from its own state tells when its next hop's request did confirm the void. */
  lemma RelayCannotTell(cs: Policies, labels: seq<Label>, other: seq<Label>, p: Peer, n: Peer, t: Peer, id: KeyID)
    requires ValidPolicies(cs) && CanAsk(cs, Run(cs, labels), p, n, t, id) && CanAsk(cs, Run(cs, other), p, n, t, id)
    requires Rec(Run(cs, labels), t, id).delivered && !Rec(Run(cs, other), t, id).delivered
    requires Disk(Run(cs, labels), n) == Disk(Run(cs, other), n)
    ensures exists more: seq<Label>, rest: seq<Label> ::
      Twins(Run(cs, labels + more), Run(cs, other + rest), p, n, t, id)
  {
    hide CanAsk, Run, SaysGone, Owed, Asked;
    var more := AskTwice(cs, labels, p, n, t, id);
    var rest := AskTwice(cs, other, p, n, t, id);
    assert Twins(Run(cs, labels + more), Run(cs, other + rest), p, n, t, id);
  }

  lemma AskedID(cs: Policies, net: Net, p: Peer, n: Peer, t: Peer, id: KeyID)
    requires CanAsk(cs, net, p, n, t, id)
    ensures ValidID(id) && id != "" && Has(net, t, id) && Rec(net, t, id).role == Target
  {
  }

  lemma HalfStarts(cs: Policies, net: Net, p: Peer, n: Peer, t: Peer, id: KeyID, r: Record)
    requires HalfVoided(cs, net, p, n, t, id, r)
    ensures Starts(cs, net, p, n, id)
  {
  }

  lemma OwesGone(cs: Policies, labels: seq<Label>, n: Peer, p: Peer, id: KeyID)
    requires ValidPolicies(cs) && n in Run(cs, labels).nodes && Owed(Disk(Run(cs, labels), n).acks, p, id, Voided)
      && id != ""
    ensures SaysGone(Run(cs, labels), n, id)
  {
    var d := Disk(Run(cs, labels), n);
    var j :| j in d.acks && Matches(d.acks[j], p, id) && d.acks[j].ack.status == Voided;
    assert id in d.acks[j].ack.ids;
  }

  lemma SameRequest(cs: Policies, net: Net, net1: Net, p: Peer, n: Peer, id: KeyID)
    requires MayVoid(cs, net, p, n, id) && Has(net1, n, id)
      && Disk(net1, n).keys == Disk(net, n).keys[id := Rec(net1, n, id)]
    requires Rec(net1, n, id).pair == Rec(net, n, id).pair && Rec(net1, n, id).sender == Rec(net, n, id).sender
      && Rec(net1, n, id).next == Rec(net, n, id).next
    ensures MayVoid(cs, net1, p, n, id)
  {
    assert Disk(net1, n).keys.Keys == Disk(net, n).keys.Keys;
    assert |Disk(net1, n).keys| == |Disk(net1, n).keys.Keys| && |Disk(net, n).keys| == |Disk(net, n).keys.Keys|;
  }
}
