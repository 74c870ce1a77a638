/** Where the bytes at a site come from: only from the reply to its own reservation, and what it hands out is
    what it kept or what the reply to its retrieval held. */
module IngestBytes {
  import opened Core
  import opened Tokens
  import opened IngestState
  import opened IngestInvariant
  import opened IngestRuns

  /** Records new in s' hold no bytes. */
  predicate NewEmpty(s: State, s': State) {
    forall id :: id in s'.keys && id !in s.keys ==> s'.keys[id].material == []
  }

  predicate SameKeys(s: State, s': State) { s'.keys.Keys == s.keys.Keys }

  lemma ExpireNew(p: Profile, site: Site, now: Time, f: Fault)
    requires SiteGood(p, site, None) && !site.broken
    ensures SameKeys(site.disk, Expire(site, now, f).disk)
  {
    hide Inv;
  }

  lemma CheckNew(p: Profile, site: Site, a: Association, role: SiteRole, now: Time, f: Fault)
    requires SiteGood(p, site, None)
    ensures SameKeys(site.disk, Check(p, site, a, role, now, f).0.disk)
  {
    if !site.broken { ExpireNew(p, site, now, f); }
    hide SiteGood, Expire;
  }

  lemma OpenNew(p: Profile, d: State, now: Time, fe: Fault, f: Fault)
    ensures SameKeys(d, Open(p, d, now, fe, f).disk)
  {
    assert SameKeys(d, Recovered(d)) && SameKeys(d, Expiring(Recovered(d), now));
    hide Recovered, Expiring, AnyDue;
  }

  lemma BeginNew(p: Profile, site: Site, n: int, ids: seq<KeyID>, now: Time, draw: nat -> KeyID, f: Fault)
    requires SiteGood(p, site, None) && !site.broken && Injective(draw)
    ensures NewEmpty(site.disk, Begin(p, site, n, ids, now, draw, f).0.disk)
  {
    hide Inv;
  }

  lemma SlaveNew(p: Profile, site: Site, token: KeyID, reply: Result<seq<Delivery>>, now: Time, f: Fault)
    requires SiteGood(p, site, Some(token)) && token in site.s.requests
    ensures SameKeys(site.disk, EndRetrieve(site, token, reply, now, f).0.disk)
  {
    hide Inv, Acceptable;
    assert SameKeys(site.s, Doubted(site.s, token)) && SameKeys(site.s, Retrieved(site.s, token));
    hide Doubted, Retrieved;
  }

  lemma ReserveNew(p: Profile, site: Site, token: KeyID, reply: Result<seq<Delivery>>, now: Time, f: Fault)
    requires SiteGood(p, site, Some(token)) && token in site.s.requests
    ensures FromReply(site.disk, EndReserve(site, token, reply, now, f).0.disk, reply)
  {
    assert SameKeys(site.s, Doubted(site.s, token));
    if reply.Ok? && Acceptable(site.s, site.s.requests[token], reply.value, false, now) {
      var s' := IngestState.Kept(site.s, token, reply.value);
      assert NewKeys(site.s, reply.value);
      forall id | id in s'.keys && id !in site.s.keys
        ensures s'.keys[id].material == [] || Delivery(id, s'.keys[id].material) in reply.value {
        IDsOf(reply.value, id);
        KeptKey(site.s, token, reply.value, id);
      }
      hide IngestState.Kept, Inv, Acceptable;
    } else {
      hide Inv, Acceptable, Doubted;
    }
  }

  /** Bytes of records new in s' were in the reply. */
  predicate FromReply(s: State, s': State, reply: Result<seq<Delivery>>) {
    forall id :: id in s'.keys && id !in s.keys ==>
      s'.keys[id].material == [] || (reply.Ok? && Delivery(id, s'.keys[id].material) in reply.value)
  }

  lemma ConsumeNew(p: Profile, site: Site, a: Association, token: KeyID, t0: Time, fe: Fault, t1: Time, f: Fault)
    requires SiteGood(p, site, None)
    ensures SameKeys(site.disk, Consume(p, site, a, token, t0, fe, t1, f).0.disk)
  {
    CheckNew(p, site, a, MasterSite, t0, fe);
    CheckKeeps(p, site, a, MasterSite, t0, fe);
    hide Check, Inv, Ready;
  }

  lemma StartNew(p: Profile, site: Site, a: Association, n: int, t0: Time, fe: Fault, t1: Time, draw: nat -> KeyID,
        f: Fault)
    requires SiteGood(p, site, None) && Injective(draw)
    ensures NewEmpty(site.disk, StartReserve(p, site, a, n, t0, fe, t1, draw, f).0.disk)
  {
    CheckNew(p, site, a, MasterSite, t0, fe);
    CheckKeeps(p, site, a, MasterSite, t0, fe);
    hide Check, Begin, SiteGood, Forward;
    var (site1, ok) := Check(p, site, a, MasterSite, t0, fe);
    if ok.Ok? { BeginNew(p, site1, n, [], t1, draw, f); }
  }

  lemma StartRetrieveNew(p: Profile, site: Site, a: Association, ids: seq<KeyID>, t0: Time, fe: Fault, t1: Time,
        draw: nat -> KeyID, f: Fault)
    requires SiteGood(p, site, None) && Injective(draw)
    ensures NewEmpty(site.disk, StartRetrieve(p, site, a, ids, t0, fe, t1, draw, f).0.disk)
  {
    CheckNew(p, site, a, SlaveSite, t0, fe);
    CheckKeeps(p, site, a, SlaveSite, t0, fe);
    hide Check, Begin, SiteGood, Forward, Asked;
    var (site1, ok) := Check(p, site, a, SlaveSite, t0, fe);
    if ok.Ok? && 1 <= |ids| <= MAX_BATCH { BeginNew(p, site1, |ids|, ids, t1, draw, f); }
  }

  lemma InvalidateNew(p: Profile, site: Site, id: KeyID, f: Fault)
    requires SiteGood(p, site, None)
    ensures SameKeys(site.disk, Invalidate(site, id, f).0.disk)
  {
    hide Inv;
  }

  lemma IdleNew(p: Profile, n: Node, l: Label)
    requires NodeGood(p, n) && n.calling == None && l.Fresh() && !l.Reopen? && !l.FinishReserve? && !l.FinishRetrieve?
    ensures NewEmpty(n.site.disk, ApplyIdle(p, n, l).site.disk)
  {
    hide SiteGood, LogGood, AskedGood, StartReserve, StartRetrieve, Consume, Invalidate, Expire;
    match l {
      case BeginReserve(a, count, t0, fe, t1, draw, f) => StartNew(p, n.site, a, count, t0, fe, t1, draw, f);
      case BeginRetrieve(a, ids, t0, fe, t1, draw, f) => StartRetrieveNew(p, n.site, a, ids, t0, fe, t1, draw, f);
      case ConsumeReserved(a, token, t0, fe, t1, f) => ConsumeNew(p, n.site, a, token, t0, fe, t1, f);
      case InvalidateKey(id, f) => InvalidateNew(p, n.site, id, f);
      case Tick(now, f) => if !n.site.broken { ExpireNew(p, n.site, now, f); }
    }
  }

  function ReplyOf(l: Label): Result<seq<Delivery>> { if l.FinishReserve? then l.reply else Err(Unavailable) }

  /** One step brings in no bytes but those of the reply to the site's reservation. */
  lemma BytesFromReply(p: Profile, n: Node, l: Label)
    requires NodeGood(p, n) && l.Fresh()
    ensures var d, d' := n.site.disk, Apply(p, n, l).site.disk;
      forall id :: id in d'.keys && d'.keys[id].material != [] ==>
        || (id in d.keys && d.keys[id].material == d'.keys[id].material)
        || (ReplyOf(l).Ok? && Delivery(id, d'.keys[id].material) in ReplyOf(l).value)
  {
    var d, d' := n.site.disk, Apply(p, n, l).site.disk;
    StepKeeps(p, n, l);
    StepFromReply(p, n, l);
    forall id | id in d'.keys && d'.keys[id].material != [] && id in d.keys
      ensures d.keys[id].material == d'.keys[id].material {
      assert KeyOnward(d.keys[id], d'.keys[id]);
    }
    hide NodeGood, Forward, Apply;
  }

  lemma StepFromReply(p: Profile, n: Node, l: Label)
    requires NodeGood(p, n) && l.Fresh()
    ensures FromReply(n.site.disk, Apply(p, n, l).site.disk, ReplyOf(l))
  {
    if n.calling.Some? { CallKnown(p, n); }
    hide SiteGood, LogGood, AskedGood, EndReserve, EndRetrieve, Open, ApplyIdle;
    match l {
      case Reopen(now, fe, f) => OpenNew(p, n.site.disk, now, fe, f);
      case FinishReserve(reply, now, f) => if n.calling.Some? && p.role == MasterSite {
        ReserveNew(p, n.site, n.calling.value, reply, now, f);
      }
      case FinishRetrieve(reply, now, f) => if n.calling.Some? && p.role == SlaveSite {
        SlaveNew(p, n.site, n.calling.value, reply, now, f);
      }
      case _ => if n.calling == None { IdleNew(p, n, l); }
    }
  }

  /** A master hands out bytes it kept. */
  predicate KeptThere(d: State, x: Delivery) {
    x.id in d.keys && d.keys[x.id].material == x.material && x.material != []
  }

  lemma ConsumeHandsKept(p: Profile, site: Site, a: Association, token: KeyID, t0: Time, fe: Fault, t1: Time, f: Fault)
    requires SiteGood(p, site, None)
    ensures var r := Consume(p, site, a, token, t0, fe, t1, f).1;
      r.Ok? ==> forall i :: 0 <= i < |r.value| ==> KeptThere(site.disk, r.value[i])
  {
    var (site1, ok) := Check(p, site, a, MasterSite, t0, fe);
    CheckNew(p, site, a, MasterSite, t0, fe);
    CheckKeeps(p, site, a, MasterSite, t0, fe);
    var r := Consume(p, site, a, token, t0, fe, t1, f).1;
    if r.Ok? {
      var ids := site1.s.requests[token].ids;
      assert site1.s == site1.disk;
      hide Check, Inv, OnlyCall;
      forall i | 0 <= i < |r.value| ensures KeptThere(site.disk, r.value[i]) {
        assert Ready(site1.s, ids[i]);
        assert KeyOnward(site.disk.keys[ids[i]], site1.disk.keys[ids[i]]);
      }
    }
  }

  /** What a step adds to the log: a master's bytes were kept before, a slave's were in the reply. */
  lemma LoggedFrom(p: Profile, n: Node, l: Label, i: nat)
    requires NodeGood(p, n) && l.Fresh() && |n.log| <= i < |Apply(p, n, l).log|
    ensures var x := Apply(p, n, l).log[i];
      if p.role == MasterSite then KeptThere(n.site.disk, x) else l.FinishRetrieve? && l.reply.Ok? && x in l.reply.value
  {
    if n.calling.Some? { CallKnown(p, n); }
    match l
    case ConsumeReserved(a, token, t0, fe, t1, f) =>
      ConsumeHandsKept(p, n.site, a, token, t0, fe, t1, f);
      CheckKeeps(p, n.site, a, MasterSite, t0, fe);
      hide NodeGood, Check;
    case FinishRetrieve(reply, now, f) =>
      RetrieveHandsReply(p, n.site, n.calling.value, reply, now, f);
      hide NodeGood, EndRetrieve;
    case _ => hide NodeGood, StartReserve, StartRetrieve, EndReserve, Open; assert false;
  }

  lemma RetrieveHandsReply(p: Profile, site: Site, token: KeyID, reply: Result<seq<Delivery>>, now: Time, f: Fault)
    requires SiteGood(p, site, Some(token)) && p.role == SlaveSite && token in site.s.requests
    ensures var r := EndRetrieve(site, token, reply, now, f).1;
      r.Ok? ==> reply.Ok? && forall i :: 0 <= i < |r.value| ==> r.value[i] in reply.value
  {
    if reply.Ok? && Acceptable(site.s, site.s.requests[token], reply.value, true, now) {
      PendingSlave(p, site.s, token);
      hide Inv;
      RetrievalMatches(site.s, site.s.requests[token], reply.value, now);
    }
  }
}
