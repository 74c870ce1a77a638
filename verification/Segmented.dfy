/** The segmented service: a memory repository as provider, a master site that allocates from it and a slave
    site that retrieves from it. Requests and replies may be lost at any point, saves fail, sites crash and
    reopen, and anybody else may use the provider in between. */
module Segmented {
  import opened Core
  import opened Tokens
  import opened IngestState
  import opened IngestRuns
  import opened IngestBytes
  import opened Client014
  import M = MemoryLedger
  import H = MemoryHistory

  /** How far the provider got with a site's request. */
  datatype Errand =
    | Nothing
    | Allocating(n: nat)
    | Booked(token: KeyID)
    | Retrieving(ids: seq<KeyID>)
    | Answered(reply: Result<seq<WireValue>>)

  /** The provider's capacity and the pair it knows the gateways by; the two sites' profiles. */
  datatype Setup = Setup(capacity: nat, gateways: Association, master: Profile, slave: Profile) {
    predicate Valid() { master.role == MasterSite && slave.role == SlaveSite }
  }

  datatype World = World(provider: H.Trace, master: Node, slave: Node, allocation: Errand, retrieval: Errand)

  datatype Event =
    | ProviderCall(call: M.Call)
    | ServeReserve(now: Time, draw: nat -> KeyID)
    | ServeConsume(now: Time)
    | ServeRetrieve(now: Time)
    | MasterStep(l: Label)
    | MasterReply(received: bool, now: Time, f: Fault)
    | SlaveStep(l: Label)
    | SlaveReply(received: bool, now: Time, f: Fault)
  {
    ghost predicate Fresh() {
      match this
      case ProviderCall(call) => call.Fresh()
      case ServeReserve(_, draw) => Injective(draw)
      case MasterStep(l) => l.Fresh() && !l.FinishReserve? && !l.FinishRetrieve?
      case SlaveStep(l) => l.Fresh() && !l.FinishReserve? && !l.FinishRetrieve?
      case _ => true
    }
  }

  const GENESIS: World := World(H.Trace(M.NOTHING, map[], []), START, START, Nothing, Nothing)

  function Wire(ds: seq<Delivery>): (r: seq<WireValue>)
    ensures |r| == |ds| && forall i :: 0 <= i < |ds| ==> r[i] == WireValue(ds[i].id, Some(ds[i].material))
  {
    seq(|ds|, i requires 0 <= i < |ds| => WireValue(ds[i].id, Some(ds[i].material)))
  }

  function Sent(r: Result<seq<Delivery>>): Result<seq<WireValue>> {
    match r case Ok(ds) => Ok(Wire(ds)) case Err(e) => Err(e)
  }

  /** What the client hands the site: the validated reply, or an error when it was lost or refused. */
  function Replied(received: bool, errand: Errand, count: nat, ids: Option<seq<KeyID>>): Result<seq<Delivery>> {
    if !received || !errand.Answered? || errand.reply.Err? then Err(Unavailable)
      else Validated(errand.reply.value, count, ids)
  }

  function Asking(n: Node): Request
    requires n.calling.Some? && n.calling.value in n.site.s.requests
  {
    n.site.s.requests[n.calling.value]
  }

  predicate InCall(n: Node) { n.calling.Some? && n.calling.value in n.site.s.requests }

  function Provide(su: Setup, w: World, call: M.Call): World
    requires M.Indexed(w.provider.l) && call.Fresh()
  {
    w.(provider := H.After(su.capacity, w.provider, call))
  }

  /** The provider's answer to a call, before it acts. */
  function Answer(su: Setup, w: World, call: M.Call): M.Reply
    requires M.Indexed(w.provider.l) && call.Fresh()
  {
    M.Step(su.capacity, w.provider.l, call).1
  }

  function ApplyProvider(su: Setup, w: World, e: Event): World
    requires M.Indexed(w.provider.l) && e.Fresh()
    requires e.ProviderCall? || e.ServeReserve? || e.ServeConsume? || e.ServeRetrieve?
  {
    match e
    case ProviderCall(call) => Provide(su, w, call)
    case ServeReserve(now, draw) =>
      if !w.allocation.Allocating? then w
      else
        var call := M.ReserveKeys(su.gateways, w.allocation.n, now, draw);
        var r := Answer(su, w, call).booked;
        Provide(su, w, call).(allocation := if r.Ok? then Booked(r.value.token) else Answered(Err(r.error)))
    case ServeConsume(now) =>
      if !w.allocation.Booked? then w
      else
        var call := M.ConsumeReservation(su.gateways, w.allocation.token, now);
        Provide(su, w, call).(allocation := Answered(Sent(Answer(su, w, call).delivered)))
    case ServeRetrieve(now) =>
      if !w.retrieval.Retrieving? then w
      else
        var call := M.ConsumePeerKeys(su.gateways, w.retrieval.ids, now);
        Provide(su, w, call).(retrieval := Answered(Sent(Answer(su, w, call).delivered)))
  }

  function ApplySites(su: Setup, w: World, e: Event): World
    requires e.Fresh() && (e.MasterStep? || e.MasterReply? || e.SlaveStep? || e.SlaveReply?)
  {
    match e
    case MasterStep(l) =>
      var n := Apply(su.master, w.master, l);
      w.(master := n, allocation := if n.calling == w.master.calling then w.allocation else if InCall(n)
        then Allocating(Asking(n).count) else Nothing)
    case MasterReply(received, now, f) =>
      if !InCall(w.master) then w
      else w.(master := Apply(su.master, w.master,
        FinishReserve(Replied(received, w.allocation, Asking(w.master).count, None), now, f)), allocation := Nothing)
    case SlaveStep(l) =>
      var n := Apply(su.slave, w.slave, l);
      w.(slave := n, retrieval := if n.calling == w.slave.calling then w.retrieval else if InCall(n)
        then Retrieving(Asking(n).ids) else Nothing)
    case SlaveReply(received, now, f) =>
      if !InCall(w.slave) then w
      else
        var q := Asking(w.slave);
        w.(slave := Apply(su.slave, w.slave, FinishRetrieve(Replied(received, w.retrieval, |q.ids|, Some(q.ids)), now,
          f)), retrieval := Nothing)
  }

  function Happen(su: Setup, w: World, e: Event): World
    requires M.Indexed(w.provider.l) && e.Fresh()
  {
    if e.MasterStep? || e.MasterReply? || e.SlaveStep? || e.SlaveReply? then ApplySites(su, w, e)
      else ApplyProvider(su, w, e)
  }

  lemma HappenIndexed(su: Setup, w: World, e: Event)
    requires M.Indexed(w.provider.l) && e.Fresh()
    ensures M.Indexed(Happen(su, w, e).provider.l)
  {
    hide M.Indexed, M.Step, Apply, Replied;
    match e
    case ProviderCall(call) => M.StepIndexed(su.capacity, w.provider.l, call);
    case ServeReserve(now, draw) => if w.allocation.Allocating? {
      M.StepIndexed(su.capacity, w.provider.l, M.ReserveKeys(su.gateways, w.allocation.n, now, draw));
    }
    case ServeConsume(now) => if w.allocation.Booked? {
      M.StepIndexed(su.capacity, w.provider.l, M.ConsumeReservation(su.gateways, w.allocation.token, now));
    }
    case ServeRetrieve(now) => if w.retrieval.Retrieving? {
      M.StepIndexed(su.capacity, w.provider.l, M.ConsumePeerKeys(su.gateways, w.retrieval.ids, now));
    }
    case _ =>
  }

  /** The world after a sequence of events. */
  function After(su: Setup, events: seq<Event>): (w: World)
    requires forall i :: 0 <= i < |events| ==> events[i].Fresh()
    ensures M.Indexed(w.provider.l)
  {
    if events == [] then GENESIS
    else
      var w := After(su, events[..|events| - 1]);
      HappenIndexed(su, w, events[|events| - 1]);
      Happen(su, w, events[|events| - 1])
  }

  // Where bytes come from.

  /** The provider released the stored bytes of a key to one of its sides. */
  predicate Vouched(t: H.Trace, side: H.Side, d: Delivery) {
    d.id in t.stored && t.stored[d.id].material == d.material && H.Was(t.log, |t.log|, side, d.id)
  }

  predicate AllVouched(t: H.Trace, side: H.Side, ds: seq<Delivery>) {
    forall i :: 0 <= i < |ds| ==> Vouched(t, side, ds[i])
  }

  predicate ErrandGood(t: H.Trace, side: H.Side, e: Errand) {
    e.Answered? && e.reply.Ok? ==> forall i :: 0 <= i < |e.reply.value| ==>
      Vouched(t, side, DeliveryOf(e.reply.value[i]))
  }

  /** The bytes a master site keeps were released to it. */
  predicate KeepsVouched(t: H.Trace, s: State) {
    forall id :: id in s.keys && s.keys[id].material != [] ==>
      Vouched(t, H.MasterSide, Delivery(id, s.keys[id].material))
  }

  ghost predicate WorldGood(su: Setup, w: World) {
    && H.TraceGood(w.provider) && NodeGood(su.master, w.master) && NodeGood(su.slave, w.slave)
    && KeepsVouched(w.provider, w.master.site.disk)
    && AllVouched(w.provider, H.MasterSide, w.master.log) && AllVouched(w.provider, H.SlaveSide, w.slave.log)
    && ErrandGood(w.provider, H.MasterSide, w.allocation) && ErrandGood(w.provider, H.SlaveSide, w.retrieval)
  }

  // The provider only gains.

  predicate Gains(t: H.Trace, t': H.Trace) {
    (forall id :: id in t.stored ==> id in t'.stored && t'.stored[id] == t.stored[id]) && t.log <= t'.log
  }

  lemma VouchedStays(t: H.Trace, t': H.Trace, side: H.Side, d: Delivery)
    requires Gains(t, t') && Vouched(t, side, d)
    ensures Vouched(t', side, d)
  {
    var i :| 0 <= i < |t.log| && t.log[i].side == side && t.log[i].id == d.id;
    assert t'.log[i] == t.log[i];
  }

  lemma AllStay(su: Setup, w: World, t': H.Trace)
    requires WorldGood(su, w) && Gains(w.provider, t')
    ensures KeepsVouched(t', w.master.site.disk)
    ensures AllVouched(t', H.MasterSide, w.master.log) && AllVouched(t', H.SlaveSide, w.slave.log)
    ensures ErrandGood(t', H.MasterSide, w.allocation) && ErrandGood(t', H.SlaveSide, w.retrieval)
  {
    hide H.TraceGood, NodeGood, Vouched, Gains;
    forall side, d | Vouched(w.provider, side, d) ensures Vouched(t', side, d) {
      VouchedStays(w.provider, t', side, d);
    }
  }

  lemma ProviderGains(su: Setup, t: H.Trace, call: M.Call)
    requires H.TraceGood(t) && call.Fresh()
    ensures M.Indexed(t.l) && H.TraceGood(H.After(su.capacity, t, call)) && Gains(t, H.After(su.capacity, t, call))
  {
    H.AfterGood(su.capacity, t, call);
    StoredGains(su, t, call);
    hide H.TraceGood, M.Step;
  }

  lemma StoredGains(su: Setup, t: H.Trace, call: M.Call)
    requires H.TraceGood(t) && call.Fresh() && M.Indexed(t.l)
    ensures call.Store? && M.Step(su.capacity, t.l, call).1 == M.Done(Ok(())) ==> call.key.id !in t.stored
  {
    H.StoredKeys(t);
  }

  lemma HandedLogged(su: Setup, t: H.Trace, call: M.Call, ds: seq<Delivery>)
    requires call.Fresh() && M.Indexed(t.l) && (call.ConsumeReservation? || call.ConsumePeerKeys?)
    requires M.Step(su.capacity, t.l, call).1 == M.Delivered(Ok(ds))
    ensures H.After(su.capacity, t, call).log == t.log
      + H.Handed(if call.ConsumeReservation? then H.MasterSide else H.SlaveSide, ds)
  {
    hide M.Step, M.Indexed;
  }

  /** What a delivering call hands out is vouched for from then on. */
  lemma HandedVouched(su: Setup, t: H.Trace, call: M.Call, ds: seq<Delivery>)
    requires H.TraceGood(t) && call.Fresh() && M.Indexed(t.l) && (call.ConsumeReservation? || call.ConsumePeerKeys?)
    requires M.Step(su.capacity, t.l, call).1 == M.Delivered(Ok(ds))
    ensures AllVouched(H.After(su.capacity, t, call), if call.ConsumeReservation? then H.MasterSide
      else H.SlaveSide, ds)
  {
    hide M.Step, H.After, H.TraceGood, M.Indexed;
    var t' := H.After(su.capacity, t, call);
    var side := if call.ConsumeReservation? then H.MasterSide else H.SlaveSide;
    H.AfterGood(su.capacity, t, call);
    HandedLogged(su, t, call, ds);
    forall i | 0 <= i < |ds| ensures Vouched(t', side, ds[i]) {
      var k := |t.log| + i;
      assert t'.log[k] == H.Release(side, ds[i].id, ds[i].material);
      assert H.ReleaseGood(t', k) by { LogOf(t'); }
    }
  }

  lemma LogOf(t: H.Trace)
    requires H.TraceGood(t)
    ensures H.LogGood(t)
  {
  }

  // Every event.

  lemma ProvideKeeps(su: Setup, w: World, call: M.Call)
    requires WorldGood(su, w) && call.Fresh()
    ensures M.Indexed(w.provider.l) && WorldGood(su, Provide(su, w, call))
  {
    ProviderGains(su, w.provider, call);
    AllStay(su, w, H.After(su.capacity, w.provider, call));
    hide H.TraceGood, NodeGood, KeepsVouched, AllVouched, ErrandGood, Gains, H.After, M.Indexed;
  }

  /** A reply on the wire is as good as the delivery it carries. */
  lemma WireVouched(t: H.Trace, side: H.Side, r: Result<seq<Delivery>>)
    requires r.Ok? ==> AllVouched(t, side, r.value)
    ensures ErrandGood(t, side, Answered(Sent(r)))
  {
    if r.Ok? {
      forall i | 0 <= i < |r.value| ensures Vouched(t, side, DeliveryOf(Wire(r.value)[i])) {
        assert Vouched(t, side, r.value[i]);
      }
    }
  }

  lemma ServeKeeps(su: Setup, w: World, call: M.Call)
    requires WorldGood(su, w) && call.Fresh() && M.Indexed(w.provider.l)
      && (call.ConsumeReservation? || call.ConsumePeerKeys?)
    ensures M.Step(su.capacity, w.provider.l, call).1.Delivered?
    ensures ErrandGood(Provide(su, w, call).provider, if call.ConsumeReservation? then H.MasterSide else H.SlaveSide,
      Answered(Sent(M.Step(su.capacity, w.provider.l, call).1.delivered)))
  {
    var r := M.Step(su.capacity, w.provider.l, call).1.delivered;
    if r.Ok? { HandedVouched(su, w.provider, call, r.value); }
    hide WorldGood, M.Step, H.After;
    WireVouched(Provide(su, w, call).provider, if call.ConsumeReservation? then H.MasterSide else H.SlaveSide, r);
  }

  lemma ProviderKeeps(su: Setup, w: World, e: Event)
    requires WorldGood(su, w) && e.Fresh() && M.Indexed(w.provider.l)
    requires e.ProviderCall? || e.ServeReserve? || e.ServeConsume? || e.ServeRetrieve?
    ensures WorldGood(su, ApplyProvider(su, w, e))
  {
    hide H.TraceGood, NodeGood, KeepsVouched, AllVouched, Vouched, M.Step, M.Indexed, H.After;
    match e
    case ProviderCall(call) => ProvideKeeps(su, w, call);
    case ServeReserve(now, draw) =>
      if w.allocation.Allocating? { ProvideKeeps(su, w, M.ReserveKeys(su.gateways, w.allocation.n, now, draw)); }
    case ServeConsume(now) =>
      if w.allocation.Booked? {
        ProvideKeeps(su, w, M.ConsumeReservation(su.gateways, w.allocation.token, now));
        ServeKeeps(su, w, M.ConsumeReservation(su.gateways, w.allocation.token, now));
      }
    case ServeRetrieve(now) =>
      if w.retrieval.Retrieving? {
        ProvideKeeps(su, w, M.ConsumePeerKeys(su.gateways, w.retrieval.ids, now));
        ServeKeeps(su, w, M.ConsumePeerKeys(su.gateways, w.retrieval.ids, now));
      }
  }

  lemma ReplyVouched(t: H.Trace, side: H.Side, received: bool, errand: Errand, count: nat, ids: Option<seq<KeyID>>)
    requires ErrandGood(t, side, errand)
    ensures var r := Replied(received, errand, count, ids); r.Ok? ==> forall x :: x in r.value ==> Vouched(t, side, x)
  {
    hide Vouched;
  }

  /** A master's step, when the reply it takes, if any, is vouched for. */
  lemma MasterKeeps(su: Setup, w: World, l: Label)
    requires su.Valid() && WorldGood(su, w) && l.Fresh()
    requires ReplyOf(l).Ok? ==> forall x :: x in ReplyOf(l).value ==> Vouched(w.provider, H.MasterSide, x)
    ensures var n := Apply(su.master, w.master, l);
      NodeGood(su.master, n) && KeepsVouched(w.provider, n.site.disk) && AllVouched(w.provider, H.MasterSide, n.log)
  {
    var n := Apply(su.master, w.master, l);
    StepKeeps(su.master, w.master, l);
    BytesFromReply(su.master, w.master, l);
    LogExtends(su.master, w.master, l);
    hide H.TraceGood, NodeGood, Vouched, Apply;
    forall i | 0 <= i < |n.log| ensures Vouched(w.provider, H.MasterSide, n.log[i]) {
      if i >= |w.master.log| { LoggedFrom(su.master, w.master, l, i); } else { assert n.log[i] == w.master.log[i]; }
    }
  }

  lemma LogExtends(p: Profile, n: Node, l: Label)
    requires l.Fresh()
    ensures n.log <= Apply(p, n, l).log
  {
    hide StartReserve, StartRetrieve, EndReserve, EndRetrieve, Open, Consume, Invalidate, Expire;
  }

  lemma SlaveKeeps(su: Setup, w: World, l: Label)
    requires su.Valid() && WorldGood(su, w) && l.Fresh()
    requires l.FinishRetrieve? && l.reply.Ok? ==> forall x :: x in l.reply.value ==> Vouched(w.provider, H.SlaveSide, x)
    ensures var n := Apply(su.slave, w.slave, l); NodeGood(su.slave, n) && AllVouched(w.provider, H.SlaveSide, n.log)
  {
    var n := Apply(su.slave, w.slave, l);
    StepKeeps(su.slave, w.slave, l);
    LogExtends(su.slave, w.slave, l);
    hide H.TraceGood, NodeGood, Vouched, Apply;
    forall i | 0 <= i < |n.log| ensures Vouched(w.provider, H.SlaveSide, n.log[i]) {
      if i >= |w.slave.log| { LoggedFrom(su.slave, w.slave, l, i); } else { assert n.log[i] == w.slave.log[i]; }
    }
  }

  lemma SitesKeep(su: Setup, w: World, e: Event)
    requires su.Valid() && WorldGood(su, w) && e.Fresh()
      && (e.MasterStep? || e.MasterReply? || e.SlaveStep? || e.SlaveReply?)
    ensures WorldGood(su, ApplySites(su, w, e))
  {
    hide H.TraceGood, NodeGood, KeepsVouched, AllVouched, Vouched, Apply, Replied;
    match e
    case MasterStep(l) => MasterKeeps(su, w, l);
    case MasterReply(received, now, f) =>
      if InCall(w.master) {
        var n := Asking(w.master).count;
        ReplyVouched(w.provider, H.MasterSide, received, w.allocation, n, None);
        MasterKeeps(su, w, FinishReserve(Replied(received, w.allocation, n, None), now, f));
      }
    case SlaveStep(l) => SlaveKeeps(su, w, l);
    case SlaveReply(received, now, f) =>
      if InCall(w.slave) {
        var q := Asking(w.slave);
        ReplyVouched(w.provider, H.SlaveSide, received, w.retrieval, |q.ids|, Some(q.ids));
        SlaveKeeps(su, w, FinishRetrieve(Replied(received, w.retrieval, |q.ids|, Some(q.ids)), now, f));
      }
  }

  lemma GenesisGood(su: Setup)
    ensures WorldGood(su, GENESIS)
  {
    H.EmptyGood();
    StartGood(su.master);
    StartGood(su.slave);
  }

  lemma {:induction false} WorldKeeps(su: Setup, events: seq<Event>)
    requires su.Valid() && forall i :: 0 <= i < |events| ==> events[i].Fresh()
    ensures WorldGood(su, After(su, events))
  {
    hide WorldGood, ApplyProvider, ApplySites;
    if events == [] {
      GenesisGood(su);
    } else {
      var before, e := events[..|events| - 1], events[|events| - 1];
      WorldKeeps(su, before);
      if e.MasterStep? || e.MasterReply? || e.SlaveStep? || e.SlaveReply? {
        SitesKeep(su, After(su, before), e);
      } else {
        ProviderKeeps(su, After(su, before), e);
      }
    }
  }

  // The composition.

  /** However requests and replies are lost, saves fail and sites crash: a key delivered at both sites has
      the same bytes there, namely those stored at the provider. */
  lemma SitesAgree(su: Setup, events: seq<Event>, i: nat, j: nat)
    requires su.Valid() && forall k :: 0 <= k < |events| ==> events[k].Fresh()
    requires var w := After(su, events);
      i < |w.master.log| && j < |w.slave.log| && w.master.log[i].id == w.slave.log[j].id
    ensures var w := After(su, events);
      && w.master.log[i].material == w.slave.log[j].material
      && w.master.log[i].id in w.provider.stored
      && w.provider.stored[w.master.log[i].id].material == w.master.log[i].material
  {
    WorldKeeps(su, events);
    var w := After(su, events);
    assert Vouched(w.provider, H.MasterSide, w.master.log[i]) && Vouched(w.provider, H.SlaveSide, w.slave.log[j]);
  }

  /** Each site delivers a key at most once, and no key is passed to the provider's retrieval twice. */
  lemma OncePerSite(su: Setup, events: seq<Event>)
    requires su.Valid() && forall k :: 0 <= k < |events| ==> events[k].Fresh()
    ensures var w := After(su, events);
      && (forall i, j :: 0 <= i < j < |w.master.log| ==> w.master.log[i].id != w.master.log[j].id)
      && (forall i, j :: 0 <= i < j < |w.slave.log| ==> w.slave.log[i].id != w.slave.log[j].id)
      && Distinct(w.slave.asked)
  {
    WorldKeeps(su, events);
  }

  /** The slave site delivers only keys that the provider had released to the master side before it released
      them to the slave side. */
  lemma SlaveFollowsMaster(su: Setup, events: seq<Event>, j: nat)
    requires su.Valid() && forall k :: 0 <= k < |events| ==> events[k].Fresh()
    requires j < |After(su, events).slave.log|
    ensures var w := After(su, events);
      var id := w.slave.log[j].id;
      exists m, n :: 0 <= m < n < |w.provider.log|
        && w.provider.log[m] == H.Release(H.MasterSide, id, w.slave.log[j].material)
        && w.provider.log[n] == H.Release(H.SlaveSide, id, w.slave.log[j].material)
  {
    WorldKeeps(su, events);
    var w := After(su, events);
    var t, id := w.provider, w.slave.log[j].id;
    assert Vouched(t, H.SlaveSide, w.slave.log[j]);
    LogOf(t);
    ReleasedBoth(t, w.slave.log[j]);
  }

  lemma ReleasedBoth(t: H.Trace, d: Delivery)
    requires H.LogGood(t) && Vouched(t, H.SlaveSide, d)
    ensures exists m, n :: 0 <= m < n < |t.log| && t.log[m] == H.Release(H.MasterSide, d.id,
      d.material) && t.log[n] == H.Release(H.SlaveSide, d.id, d.material)
  {
    var id := d.id;
    var n :| 0 <= n < |t.log| && t.log[n].side == H.SlaveSide && t.log[n].id == id;
    assert H.Was(t.log, n, H.MasterSide, id);
    var m :| 0 <= m < n && t.log[m].side == H.MasterSide && t.log[m].id == id;
    assert H.ReleaseGood(t, m) && H.ReleaseGood(t, n);
  }
}
