/** A site over whole runs: any replies from the provider, failing saves, crashes and reopening. */
module IngestRuns {
  import opened Core
  import opened Lifecycle
  import opened Tokens
  import opened Counting
  import opened IngestState
  import opened IngestInvariant

  /** A site with the provider call it is waiting for, if any; `log` is what it handed to its recipient and
      `asked` every identifier it passed to the provider's retrieval. */
  datatype Node = Node(site: Site, calling: Option<KeyID>, log: seq<Delivery>, asked: seq<KeyID>)

  datatype Label =
    | Reopen(now: Time, fe: Fault, f: Fault)
    | BeginReserve(a: Association, n: int, t0: Time, fe: Fault, t1: Time, draw: nat -> KeyID, f: Fault)
    | FinishReserve(reply: Result<seq<Delivery>>, now: Time, f: Fault)
    | ConsumeReserved(a: Association, token: KeyID, t0: Time, fe: Fault, t1: Time, f: Fault)
    | BeginRetrieve(a: Association, ids: seq<KeyID>, t0: Time, fe: Fault, t1: Time, draw: nat -> KeyID, f: Fault)
    | FinishRetrieve(reply: Result<seq<Delivery>>, now: Time, f: Fault)
    | InvalidateKey(id: KeyID, f: Fault)
    | Tick(now: Time, f: Fault)
  {
    ghost predicate Fresh() { (BeginReserve? || BeginRetrieve?) ==> Injective(draw) }
  }

  const START: Node := Node(Site(FRESH, FRESH, false), None, [], [])

  function Token(r: Result<KeyID>): Option<KeyID> { match r case Ok(t) => Some(t) case Err(_) => None }

  function Logged(log: seq<Delivery>, r: Result<seq<Delivery>>): seq<Delivery> { if r.Ok? then log + r.value else log }

  /** One step. While a call is under way the site's lock is held: only its reply, or a crash, gets through. */
  function Apply(p: Profile, n: Node, l: Label): Node
    requires l.Fresh()
  {
    match l
    case Reopen(now, fe, f) => n.(site := Open(p, n.site.disk, now, fe, f), calling := None)
    case FinishReserve(reply, now, f) =>
      if n.calling == None || n.calling.value !in n.site.s.requests || p.role != MasterSite then n
      else n.(site := EndReserve(n.site, n.calling.value, reply, now, f).0, calling := None)
    case FinishRetrieve(reply, now, f) =>
      if n.calling == None || n.calling.value !in n.site.s.requests || p.role != SlaveSite then n
      else
        var (site1, r) := EndRetrieve(n.site, n.calling.value, reply, now, f);
        n.(site := site1, calling := None, log := Logged(n.log, r))
    case _ => if n.calling == None then ApplyIdle(p, n, l) else n
  }

  function ApplyIdle(p: Profile, n: Node, l: Label): Node
    requires l.Fresh() && !l.Reopen? && !l.FinishReserve? && !l.FinishRetrieve?
  {
    match l
    case BeginReserve(a, count, t0, fe, t1, draw, f) =>
      var (site1, r) := StartReserve(p, n.site, a, count, t0, fe, t1, draw, f);
      n.(site := site1, calling := Token(r))
    case BeginRetrieve(a, ids, t0, fe, t1, draw, f) =>
      var (site1, r) := StartRetrieve(p, n.site, a, ids, t0, fe, t1, draw, f);
      n.(site := site1, calling := Token(r), asked := if r.Ok? then n.asked + ids else n.asked)
    case ConsumeReserved(a, token, t0, fe, t1, f) =>
      var (site1, r) := Consume(p, n.site, a, token, t0, fe, t1, f);
      n.(site := site1, log := Logged(n.log, r))
    case InvalidateKey(id, f) => n.(site := Invalidate(n.site, id, f).0)
    case Tick(now, f) => if n.site.broken then n else n.(site := Expire(n.site, now, f))
  }

  function Run(p: Profile, labels: seq<Label>): Node
    requires forall i :: 0 <= i < |labels| ==> labels[i].Fresh()
  {
    if labels == [] then START else Apply(p, Run(p, labels[..|labels| - 1]), labels[|labels| - 1])
  }

  // What holds of every reachable site.

  /** Only the call under way is pending. */
  predicate OnlyCall(s: State, calling: Option<KeyID>) {
    match calling
    case None => NonePending(s)
    case Some(t) => t in s.requests && s.requests[t].phase == Phase.Pending && NonePending(s.(requests :=
      s.requests - {t}))
  }

  ghost predicate SiteGood(p: Profile, site: Site, calling: Option<KeyID>) {
    && Inv(p, site.disk)
    && (!site.broken ==> site.s == site.disk && OnlyCall(site.s, calling))
    && (calling.Some? ==> !site.broken)
  }

  predicate Delivered(s: State, d: Delivery) {
    d.id in s.keys && s.keys[d.id].state == KeyState.Consumed && |d.material| == KEY_BYTES
  }

  predicate LogGood(s: State, log: seq<Delivery>) {
    && (forall i :: 0 <= i < |log| ==> Delivered(s, log[i]))
    && forall i, j :: 0 <= i < j < |log| ==> log[i].id != log[j].id
  }

  predicate AskedGood(s: State, asked: seq<KeyID>) {
    Distinct(asked) && forall i :: 0 <= i < |asked| ==> asked[i] in s.keys
  }

  ghost predicate NodeGood(p: Profile, n: Node) {
    SiteGood(p, n.site, n.calling) && LogGood(n.site.disk, n.log) && AskedGood(n.site.disk, n.asked)
  }

  lemma LogKept(s: State, s': State, log: seq<Delivery>)
    requires LogGood(s, log) && Forward(s, s')
    ensures LogGood(s', log)
  {
    forall i | 0 <= i < |log| ensures Delivered(s', log[i]) {
      assert Delivered(s, log[i]) && KeyOnward(s.keys[log[i].id], s'.keys[log[i].id]);
    }
  }

  lemma AskedKept(s: State, s': State, asked: seq<KeyID>)
    requires AskedGood(s, asked) && Forward(s, s')
    ensures AskedGood(s', asked)
  {
  }

  /** Saving a good successor, however the save ends. */
  lemma SaveKeeps(p: Profile, site: Site, s': State, f: Fault, calling: Option<KeyID>)
    requires Inv(p, site.disk) && !site.broken
    requires Inv(p, s') && Forward(site.disk, s') && OnlyCall(s', calling)
    ensures var site' := Save(site.(s := s'), f);
      && SiteGood(p, site', if f == Saves then calling else None) && Forward(site.disk, site'.disk)
      && (f == Saves ==> site'.s == s' && site'.disk == s') && (f != Saves ==> site'.broken)
  {
    ForwardRefl(site.disk);
    hide Inv, Forward, OnlyCall;
  }

  lemma ExpireKeeps(p: Profile, site: Site, now: Time, f: Fault)
    requires SiteGood(p, site, None) && !site.broken
    ensures var site' := Expire(site, now, f); SiteGood(p, site', None) && Forward(site.disk, site'.disk)
  {
    ForwardRefl(site.disk);
    ExpiringKeeps(p, site.s, now);
    SaveKeeps(p, site, Expiring(site.s, now), f, None);
    hide Inv, Forward, Expiring;
  }

  lemma CheckKeeps(p: Profile, site: Site, a: Association, role: SiteRole, now: Time, f: Fault)
    requires SiteGood(p, site, None)
    ensures var (site', r) := Check(p, site, a, role, now, f);
      && SiteGood(p, site', None) && Forward(site.disk, site'.disk) && (r.Ok? ==> !site'.broken && p.role == role)
  {
    ForwardRefl(site.disk);
    if !site.broken { ExpireKeeps(p, site, now, f); }
    hide SiteGood, Forward, Expire;
  }

  lemma OpenKeeps(p: Profile, d: State, now: Time, fe: Fault, f: Fault)
    requires Inv(p, d)
    ensures var site' := Open(p, d, now, fe, f); SiteGood(p, site', None) && Forward(d, site'.disk)
  {
    RecoveredKeeps(p, d);
    var s := Recovered(d);
    ExpiringKeeps(p, s, now);
    ForwardTrans(d, s, Expiring(s, now));
    ForwardRefl(d);
    SaveKeeps(p, Site(s, d, false), Expiring(s, now), fe, None);
    hide Inv, Forward, Expiring, Recovered, NonePending;
    var site1 := Expire(Site(s, d, false), now, fe);
    assert !site1.broken ==> Inv(p, site1.s) && Forward(d, site1.s) && NonePending(site1.s);
    if d.attempts <= p.capacity && !site1.broken {
      OpenedSaved(p, d, site1, f);
    }
  }

  /** The save that ends opening. */
  lemma OpenedSaved(p: Profile, d: State, site: Site, f: Fault)
    requires !site.broken && Inv(p, site.disk) && (site.disk == d || site.disk == site.s)
    requires Inv(p, site.s) && Forward(d, site.s) && NonePending(site.s)
    ensures var site' := Save(site, f); SiteGood(p, site', None) && Forward(d, site'.disk)
  {
    hide Inv, Forward, NonePending;
    ForwardRefl(site.s);
    ForwardRefl(d);
    SaveKeeps(p, site, site.s, f, None);
  }

  lemma PendingAdded(p: Profile, s: State, n: nat, ids: seq<KeyID>, now: Time, token: KeyID)
    requires NonePending(s) && token !in s.requests
    ensures OnlyCall(Intended(p, s, n, ids, now, token), Some(token))
  {
  }

  lemma BeginKeeps(p: Profile, site: Site, n: int, ids: seq<KeyID>, now: Time, draw: nat -> KeyID, f: Fault)
    requires SiteGood(p, site, None) && !site.broken && Injective(draw)
    requires Distinct(ids) && (forall i :: 0 <= i < |ids| ==> ids[i] !in site.s.keys)
    requires if p.role == MasterSite then ids == [] else |ids| == n
    ensures var (site', r) := Begin(p, site, n, ids, now, draw, f);
      && SiteGood(p, site', Token(r)) && Forward(site.disk, site'.disk)
      && (r.Ok? ==> site'.disk.keys.Keys == site.disk.keys.Keys + Elements(ids))
  {
    ForwardRefl(site.disk);
    if 1 <= n <= MAX_BATCH && site.s.attempts + n <= p.capacity {
      var token := FirstFree(site.s.requests.Keys, draw, 0);
      IntendedKeeps(p, site.s, n, ids, now, token);
      PendingAdded(p, site.s, n, ids, now, token);
      assert Intended(p, site.s, n, ids, now, token).keys.Keys == site.s.keys.Keys + Elements(ids);
      hide Inv, Forward, Intended, NonePending, OnlyCall;
      SaveKeeps(p, site, Intended(p, site.s, n, ids, now, token), f, Some(token));
    }
  }

  lemma DoubtKeeps(p: Profile, site: Site, token: KeyID, f: Fault)
    requires SiteGood(p, site, Some(token))
    ensures var (site', e) := Doubt(site, token, f); SiteGood(p, site', None) && Forward(site.disk, site'.disk)
  {
    DoubtedKeeps(p, site.s, token);
    hide Inv, Forward, Doubted, NonePending;
    SaveKeeps(p, site, Doubted(site.s, token), f, None);
  }

  lemma EndReserveKeeps(p: Profile, site: Site, token: KeyID, reply: Result<seq<Delivery>>, now: Time, f: Fault)
    requires SiteGood(p, site, Some(token)) && p.role == MasterSite
    ensures var (site', r) := EndReserve(site, token, reply, now, f);
      SiteGood(p, site', None) && Forward(site.disk, site'.disk)
  {
    if reply.Err? || !Acceptable(site.s, site.s.requests[token], reply.value, false, now) {
      DoubtKeeps(p, site, token, f);
    } else {
      assert NewKeys(site.s, reply.value);
      KeptKeeps(p, site.s, token, reply.value);
      hide Inv, Forward, IngestState.Kept, NonePending, Acceptable;
      SaveKeeps(p, site, IngestState.Kept(site.s, token, reply.value), f, None);
    }
  }

  lemma EndRetrieveKeeps(p: Profile, site: Site, token: KeyID, reply: Result<seq<Delivery>>, now: Time, f: Fault)
    requires SiteGood(p, site, Some(token)) && p.role == SlaveSite
    ensures var (site', r) := EndRetrieve(site, token, reply, now, f);
      SiteGood(p, site', None) && Forward(site.disk, site'.disk)
  {
    if reply.Err? || !Acceptable(site.s, site.s.requests[token], reply.value, true, now) {
      DoubtKeeps(p, site, token, f);
    } else {
      RetrievedKeeps(p, site.s, token);
      hide Inv, Forward, Retrieved, NonePending, Acceptable;
      SaveKeeps(p, site, Retrieved(site.s, token), f, None);
    }
  }

  lemma BatchKeeps(p: Profile, site: Site, token: KeyID, now: Time, f: Fault)
    requires SiteGood(p, site, None) && !site.broken
    ensures var (site', r) := ConsumeBatch(site, token, now, f);
      SiteGood(p, site', None) && Forward(site.disk, site'.disk)
  {
    ForwardRefl(site.disk);
    if token in site.s.requests && site.s.requests[token].phase == Phase.Stored
      && (forall i :: 0 <= i < |site.s.requests[token].ids| ==> Ready(site.s, site.s.requests[token].ids[i])) {
      ConsumedKeeps(p, site.s, token);
      hide AllConsumed, NonePending, Ready, Inv, Forward;
      SaveKeeps(p, site, AllConsumed(site.s, token), f, None);
    } else {
      hide AllConsumed, NonePending, Inv, Forward;
    }
  }

  lemma ConsumeKeeps(p: Profile, site: Site, a: Association, token: KeyID, t0: Time, fe: Fault, t1: Time, f: Fault)
    requires SiteGood(p, site, None)
    ensures var (site', r) := Consume(p, site, a, token, t0, fe, t1, f);
      SiteGood(p, site', None) && Forward(site.disk, site'.disk)
  {
    hide SiteGood, Check, Forward, ConsumeBatch;
    var (site1, ok) := Check(p, site, a, MasterSite, t0, fe);
    CheckKeeps(p, site, a, MasterSite, t0, fe);
    if ok.Ok? {
      BatchKeeps(p, site1, token, t1, f);
      ForwardTrans(site.disk, site1.disk, ConsumeBatch(site1, token, t1, f).0.disk);
    }
  }

  lemma InvalidateKeeps(p: Profile, site: Site, id: KeyID, f: Fault)
    requires SiteGood(p, site, None)
    ensures var (site', r) := Invalidate(site, id, f); SiteGood(p, site', None) && Forward(site.disk, site'.disk)
  {
    ForwardRefl(site.disk);
    if !site.broken && id in site.s.keys && !site.s.keys[id].state.Terminal() {
      InvalidatedKeeps(p, site.s, id);
      hide Inv, Forward, NonePending;
      SaveKeeps(p, site, Invalidated(site.s, id), f, None);
    }
  }

  // What is handed out and asked.

  /** Deliverable just before: known keys that are not consumed yet, each once, with full-length bytes. */
  predicate Handing(d: State, ds: seq<Delivery>) {
    && Distincts(ds)
    && forall i :: 0 <= i < |ds| ==>
      ds[i].id in d.keys && d.keys[ds[i].id].state == KeyState.Reserved && |ds[i].material| == KEY_BYTES
  }

  lemma LogAppends(d: State, d': State, log: seq<Delivery>, ds: seq<Delivery>)
    requires LogGood(d, log) && Forward(d, d') && Handing(d, ds)
    requires forall i :: 0 <= i < |ds| ==> ds[i].id in d'.keys && d'.keys[ds[i].id].state == KeyState.Consumed
    ensures LogGood(d', log + ds)
  {
    LogKept(d, d', log);
    var all := log + ds;
    forall i | 0 <= i < |all| ensures Delivered(d', all[i]) { if i >= |log| { assert all[i] == ds[i - |log|]; } }
    forall i, j | 0 <= i < j < |all| ensures all[i].id != all[j].id {
      if i < |log| { assert Delivered(d, log[i]); }
      if j >= |log| { assert all[j] == ds[j - |log|]; }
    }
  }

  lemma HeldDistinct(p: Profile, s: State, token: KeyID)
    requires ListsGood(p, s) && token in s.requests && forall i :: 0 <= i < |s.requests[token].ids| ==>
      Ready(s, s.requests[token].ids[i])
    ensures forall i :: 0 <= i < |s.requests[token].ids| ==> s.requests[token].ids[i] in s.keys
    ensures Handing(s, Held(s, s.requests[token].ids))
  {
    assert RequestGood(p, s.requests[token]);
  }

  lemma ConsumeHands(p: Profile, site: Site, a: Association, token: KeyID, t0: Time, fe: Fault, t1: Time, f: Fault,
        log: seq<Delivery>)
    requires SiteGood(p, site, None) && LogGood(site.disk, log)
    ensures var (site', r) := Consume(p, site, a, token, t0, fe, t1, f); LogGood(site'.disk, Logged(log, r))
  {
    var (site1, ok) := Check(p, site, a, MasterSite, t0, fe);
    var (site', r) := Consume(p, site, a, token, t0, fe, t1, f);
    CheckKeeps(p, site, a, MasterSite, t0, fe);
    ConsumeKeeps(p, site, a, token, t0, fe, t1, f);
    LogKept(site.disk, site'.disk, log);
    if r.Ok? {
      LogKept(site.disk, site1.disk, log);
      HeldDistinct(p, site1.s, token);
      ConsumedFrom(p, site1, token);
      hide Check, Inv, Forward, LogGood;
      LogAppends(site1.disk, site'.disk, log, r.value);
    }
  }

  lemma ConsumedFrom(p: Profile, site: Site, token: KeyID)
    requires SiteGood(p, site, None) && !site.broken && token in site.s.requests
      && site.s.requests[token].phase == Phase.Stored
    requires forall i :: 0 <= i < |site.s.requests[token].ids| ==> Ready(site.s, site.s.requests[token].ids[i])
    ensures Forward(site.disk, AllConsumed(site.s, token))
  {
    ConsumedForward(site.s, token);
  }

  /** Matching by counting: an accepted reply to a retrieval answers every identifier asked for, with the
      bytes the provider bound to it, in the order asked. */
  lemma RetrievalMatches(s: State, q: Request, keys: seq<Delivery>, now: Time)
    requires Distinct(q.ids) && |q.ids| == q.count && Acceptable(s, q, keys, true, now)
    ensures multiset(IDs(keys)) == multiset(q.ids)
    ensures forall i :: 0 <= i < |q.ids| ==> Matched(q.ids, keys)[i] in keys && Matched(q.ids, keys)[i].id == q.ids[i]
  {
    SameLengthCovers(q.ids, IDs(keys));
    forall i | 0 <= i < |q.ids| ensures Matched(q.ids, keys)[i] in keys {
      IDsOf(keys, q.ids[i]);
      var k :| 0 <= k < |keys| && keys[k].id == q.ids[i];
      BytesFound(keys, k);
      assert Matched(q.ids, keys)[i] == keys[k];
    }
  }

  lemma PendingSlave(p: Profile, s: State, token: KeyID)
    requires Inv(p, s) && p.role == SlaveSite && token in s.requests && s.requests[token].phase == Phase.Pending
    ensures var q := s.requests[token]; Distinct(q.ids) && |q.ids| == q.count
    ensures forall i :: 0 <= i < |s.requests[token].ids| ==>
      s.requests[token].ids[i] in s.keys && s.keys[s.requests[token].ids[i]].state == KeyState.Reserved
  {
    assert RequestGood(p, s.requests[token]);
    forall i | 0 <= i < |s.requests[token].ids| ensures s.requests[token].ids[i] in s.keys
      && s.keys[s.requests[token].ids[i]].state == KeyState.Reserved {
      assert Names(s, token, s.requests[token].ids[i]);
      NamedKnown(s, token, s.requests[token].ids[i]);
    }
  }

  lemma MatchedHands(p: Profile, s: State, token: KeyID, keys: seq<Delivery>, now: Time)
    requires Inv(p, s) && p.role == SlaveSite && token in s.requests && s.requests[token].phase == Phase.Pending
    requires Acceptable(s, s.requests[token], keys, true, now)
    ensures Handing(s, Matched(s.requests[token].ids, keys))
  {
    PendingSlave(p, s, token);
    var q := s.requests[token];
    RetrievalMatches(s, q, keys, now);
    hide Inv;
    forall i | 0 <= i < |q.ids| ensures |Matched(q.ids, keys)[i].material| == KEY_BYTES {
      var k :| 0 <= k < |keys| && keys[k] == Matched(q.ids, keys)[i];
    }
  }

  lemma RetrieveHands(p: Profile, site: Site, token: KeyID, reply: Result<seq<Delivery>>, now: Time, f: Fault,
        log: seq<Delivery>)
    requires SiteGood(p, site, Some(token)) && p.role == SlaveSite && LogGood(site.disk, log)
    ensures var (site', r) := EndRetrieve(site, token, reply, now, f); LogGood(site'.disk, Logged(log, r))
  {
    hide Inv, Forward, LogGood;
    var (site', r) := EndRetrieve(site, token, reply, now, f);
    EndRetrieveKeeps(p, site, token, reply, now, f);
    LogKept(site.disk, site'.disk, log);
    if r.Ok? {
      MatchedHands(p, site.s, token, reply.value, now);
      PendingSlave(p, site.s, token);
      hide Acceptable;
      LogAppends(site.disk, site'.disk, log, r.value);
    }
  }

  lemma {:induction false} AskedNew(s: State, ids: seq<KeyID>, i: nat)
    requires i <= |ids| && Asked(s, ids, i).Ok? && Distinct(ids[..i])
    ensures Distinct(ids) && forall k :: i <= k < |ids| ==> ids[k] !in s.keys
    decreases |ids| - i
  {
    if i < |ids| {
      assert ids[..i + 1] == ids[..i] + [ids[i]];
      AskedNew(s, ids, i + 1);
    } else {
      assert ids[..i] == ids;
    }
  }

  lemma StartReserveKeeps(p: Profile, site: Site, a: Association, n: int, t0: Time, fe: Fault, t1: Time,
        draw: nat -> KeyID, f: Fault)
    requires SiteGood(p, site, None) && Injective(draw)
    ensures var (site', r) := StartReserve(p, site, a, n, t0, fe, t1, draw, f);
      SiteGood(p, site', Token(r)) && Forward(site.disk, site'.disk)
  {
    CheckKeeps(p, site, a, MasterSite, t0, fe);
    hide Check, Begin, Forward, SiteGood;
    var (site1, ok) := Check(p, site, a, MasterSite, t0, fe);
    if ok.Ok? {
      BeginKeeps(p, site1, n, [], t1, draw, f);
      ForwardTrans(site.disk, site1.disk, Begin(p, site1, n, [], t1, draw, f).0.disk);
    }
  }

  lemma StartRetrieveKeeps(p: Profile, site: Site, a: Association, ids: seq<KeyID>, t0: Time, fe: Fault, t1: Time,
        draw: nat -> KeyID, f: Fault)
    requires SiteGood(p, site, None) && Injective(draw)
    ensures var (site', r) := StartRetrieve(p, site, a, ids, t0, fe, t1, draw, f);
      && SiteGood(p, site', Token(r)) && Forward(site.disk, site'.disk)
      && (r.Ok? ==> Distinct(ids) && forall i :: 0 <= i < |ids| ==>
        ids[i] !in site.disk.keys && ids[i] in site'.disk.keys)
  {
    CheckKeeps(p, site, a, SlaveSite, t0, fe);
    var (site1, ok) := Check(p, site, a, SlaveSite, t0, fe);
    if ok.Ok? && 1 <= |ids| <= MAX_BATCH && Asked(site1.s, ids, 0).Ok? {
      AskedNew(site1.s, ids, 0);
      assert site1.s == site1.disk;
      hide Check, Begin, Inv, OnlyCall, Asked;
      BeginKeeps(p, site1, |ids|, ids, t1, draw, f);
      ForwardTrans(site.disk, site1.disk, Begin(p, site1, |ids|, ids, t1, draw, f).0.disk);
    } else {
      hide Check, Begin, Inv, OnlyCall, Asked;
    }
  }

  lemma AskedAppends(d: State, d': State, asked: seq<KeyID>, ids: seq<KeyID>)
    requires AskedGood(d, asked) && Forward(d, d') && Distinct(ids)
    requires forall i :: 0 <= i < |ids| ==> ids[i] !in d.keys && ids[i] in d'.keys
    ensures AskedGood(d', asked + ids)
  {
  }

  // Every step.

  lemma IdleKeeps(p: Profile, n: Node, l: Label)
    requires NodeGood(p, n) && n.calling == None && l.Fresh() && !l.Reopen? && !l.FinishReserve? && !l.FinishRetrieve?
    ensures NodeGood(p, ApplyIdle(p, n, l)) && Forward(n.site.disk, ApplyIdle(p, n, l).site.disk)
  {
    var n' := ApplyIdle(p, n, l);
    ForwardRefl(n.site.disk);
    hide SiteGood, Forward, LogGood, AskedGood, StartReserve, StartRetrieve, Consume, Invalidate, Expire;
    match l {
      case BeginReserve(a, count, t0, fe, t1, draw, f) => StartReserveKeeps(p, n.site, a, count, t0, fe, t1, draw, f);
      case BeginRetrieve(a, ids, t0, fe, t1, draw, f) => StartRetrieveKeeps(p, n.site, a, ids, t0, fe, t1, draw, f);
      case ConsumeReserved(a, token, t0, fe, t1, f) => ConsumeKeeps(p, n.site, a, token, t0, fe, t1, f);
      case InvalidateKey(id, f) => InvalidateKeeps(p, n.site, id, f);
      case Tick(now, f) => if !n.site.broken { ExpireKeeps(p, n.site, now, f); }
    }
    LogKept(n.site.disk, n'.site.disk, n.log);
    AskedKept(n.site.disk, n'.site.disk, n.asked);
    if l.ConsumeReserved? { ConsumeHands(p, n.site, l.a, l.token, l.t0, l.fe, l.t1, l.f, n.log); }
    if l.BeginRetrieve? && StartRetrieve(p, n.site, l.a, l.ids, l.t0, l.fe, l.t1, l.draw, l.f).1.Ok? {
      AskedAppends(n.site.disk, n'.site.disk, n.asked, l.ids);
    }
  }

  lemma CallKnown(p: Profile, n: Node)
    requires NodeGood(p, n) && n.calling.Some?
    ensures n.calling.value in n.site.s.requests
  {
  }

  lemma StepKeeps(p: Profile, n: Node, l: Label)
    requires NodeGood(p, n) && l.Fresh()
    ensures NodeGood(p, Apply(p, n, l)) && Forward(n.site.disk, Apply(p, n, l).site.disk)
  {
    var n' := Apply(p, n, l);
    ForwardRefl(n.site.disk);
    if n.calling.Some? { CallKnown(p, n); }
    assert Inv(p, n.site.disk);
    hide SiteGood, Forward, LogGood, AskedGood, EndReserve, EndRetrieve, Open, ApplyIdle, Inv;
    match l {
      case Reopen(now, fe, f) => OpenKeeps(p, n.site.disk, now, fe, f);
      case FinishReserve(reply, now, f) => if n.calling.Some? && p.role == MasterSite {
        EndReserveKeeps(p, n.site, n.calling.value, reply, now, f);
      }
      case FinishRetrieve(reply, now, f) => if n.calling.Some? && p.role == SlaveSite {
        EndRetrieveKeeps(p, n.site, n.calling.value, reply, now, f);
        RetrieveHands(p, n.site, n.calling.value, reply, now, f, n.log);
      }
      case _ => if n.calling == None { IdleKeeps(p, n, l); }
    }
    LogKept(n.site.disk, n'.site.disk, n.log);
    AskedKept(n.site.disk, n'.site.disk, n.asked);
  }

  lemma StartGood(p: Profile)
    ensures NodeGood(p, START)
  {
  }

  lemma {:induction false} RunKeeps(p: Profile, labels: seq<Label>)
    requires forall i :: 0 <= i < |labels| ==> labels[i].Fresh()
    ensures NodeGood(p, Run(p, labels))
  {
    hide NodeGood, Apply;
    if labels == [] { StartGood(p); } else {
      RunKeeps(p, labels[..|labels| - 1]);
      StepKeeps(p, Run(p, labels[..|labels| - 1]), labels[|labels| - 1]);
    }
  }

  // Theorems about a site, whatever its provider does.

  /** Across crashes and failing saves the journal only moves forward: attempts grow, no request or key is
      forgotten, phases and key states never go back, bytes once gone stay gone. */
  lemma {:induction false} JournalMovesForward(p: Profile, labels: seq<Label>, more: seq<Label>)
    requires forall i :: 0 <= i < |labels + more| ==> (labels + more)[i].Fresh()
    requires forall i :: 0 <= i < |labels| ==> labels[i].Fresh()
    ensures Forward(Run(p, labels).site.disk, Run(p, labels + more).site.disk)
  {
    hide Forward, NodeGood, Apply;
    var all := labels + more;
    if more == [] {
      assert all == labels;
      ForwardRefl(Run(p, labels).site.disk);
    } else {
      var m := more[..|more| - 1];
      assert all[..|all| - 1] == labels + m;
      JournalMovesForward(p, labels, m);
      RunKeeps(p, labels + m);
      StepKeeps(p, Run(p, labels + m), all[|all| - 1]);
      ForwardTrans(Run(p, labels).site.disk, Run(p, labels + m).site.disk, Run(p, all).site.disk);
    }
  }

  /** At every moment of every run the journal's books balance. */
  lemma Accounting(p: Profile, labels: seq<Label>)
    requires forall i :: 0 <= i < |labels| ==> labels[i].Fresh()
    ensures var d := Run(p, labels).site.disk;
      && |d.keys| <= d.attempts == Total(d.requests) && d.attempts <= p.capacity
      && (forall t, u, id :: Names(d, t, id) && Names(d, u, id) ==> t == u)
      && (forall id :: id in d.keys <==> exists t :: Names(d, t, id))
      && (forall id :: id in d.keys && d.keys[id].material != [] ==>
            d.keys[id].state == KeyState.Reserved && exists t :: Names(d, t, id) && d.requests[t].phase == Phase.Stored)
    ensures var n := Run(p, labels); !n.site.broken ==> n.site.s == n.site.disk
  {
    RunKeeps(p, labels);
    Books(p, Run(p, labels).site.disk);
  }

  /** A site hands each key to its recipient at most once, and asks the provider for a named key at most once. */
  lemma OnceEach(p: Profile, labels: seq<Label>)
    requires forall i :: 0 <= i < |labels| ==> labels[i].Fresh()
    ensures var log := Run(p, labels).log; forall i, j :: 0 <= i < j < |log| ==> log[i].id != log[j].id
    ensures Distinct(Run(p, labels).asked)
  {
    RunKeeps(p, labels);
  }

  /** What is handed out is what the journal lists for the request. */
  lemma ConsumedList(p: Profile, site: Site, a: Association, token: KeyID, t0: Time, fe: Fault, t1: Time, f: Fault)
    requires SiteGood(p, site, None) && Consume(p, site, a, token, t0, fe, t1, f).1.Ok?
    ensures token in site.disk.requests
    ensures var ds := Consume(p, site, a, token, t0, fe, t1, f).1.value;
      |ds| == |site.disk.requests[token].ids| && forall i :: 0 <= i < |ds| ==>
        ds[i].id == site.disk.requests[token].ids[i]
  {
    assert !site.broken ==> site.s == site.disk;
    hide SiteGood, AnyDue, Ready;
    assert Check(p, site, a, MasterSite, t0, fe).0.s.requests == site.s.requests;
  }

  lemma GrantedStored(site: Site, token: KeyID, reply: Result<seq<Delivery>>, now: Time)
    requires token in site.s.requests && EndReserve(site, token, reply, now, Saves).1.Ok?
    ensures var (site', r) := EndReserve(site, token, reply, now, Saves);
      r.value.token == token && token in site'.disk.requests && site'.disk.requests[token].phase == Phase.Stored
        && site'.disk.requests[token].ids == r.value.ids
  {
    hide Acceptable;
  }

  lemma ListKept(d: State, d': State, token: KeyID)
    requires Forward(d, d') && token in d.requests && d.requests[token].phase != Phase.Pending
    ensures token in d'.requests && d'.requests[token].ids == d.requests[token].ids
  {
    assert RequestOnward(d.requests[token], d'.requests[token]);
  }

  /** A reservation granted at this node. */
  ghost predicate Grants(p: Profile, n: Node, reply: Result<seq<Delivery>>, now: Time, res: Reservation) {
    && p.role == MasterSite && n.calling.Some? && n.calling.value in n.site.s.requests
    && EndReserve(n.site, n.calling.value, reply, now, Saves).1 == Ok(res)
  }

  lemma GrantRun(p: Profile, labels: seq<Label>, reply: Result<seq<Delivery>>, now: Time, res: Reservation)
    requires (forall i :: 0 <= i < |labels| ==> labels[i].Fresh()) && Grants(p, Run(p, labels), reply, now, res)
    ensures var d := Run(p, labels + [FinishReserve(reply, now, Saves)]).site.disk;
      res.token in d.requests && d.requests[res.token].phase == Phase.Stored && d.requests[res.token].ids == res.ids
  {
    var n := Run(p, labels);
    var before := labels + [FinishReserve(reply, now, Saves)];
    assert before[..|labels|] == labels;
    hide Run, EndReserve;
    assert Run(p, before) == Apply(p, n, FinishReserve(reply, now, Saves)) by {
      LastStep(p, labels, FinishReserve(reply, now, Saves));
    }
    GrantedStored(n.site, n.calling.value, reply, now);
  }

  lemma LastStep(p: Profile, labels: seq<Label>, l: Label)
    requires (forall i :: 0 <= i < |labels| ==> labels[i].Fresh()) && l.Fresh()
    ensures Run(p, labels + [l]) == Apply(p, Run(p, labels), l)
  {
    hide Apply;
    assert (labels + [l])[..|labels|] == labels;
  }

  /** Consuming a reservation hands out exactly the keys it listed when it was granted, in that order, across
      any crashes and failing saves in between. */
  lemma ReservationHandsItsBatch(p: Profile, labels: seq<Label>, reply: Result<seq<Delivery>>, now: Time,
        res: Reservation, more: seq<Label>, a: Association, t0: Time, fe: Fault, t1: Time, f: Fault)
    requires (forall i :: 0 <= i < |labels| ==> labels[i].Fresh()) && forall i :: 0 <= i < |more| ==> more[i].Fresh()
    requires Grants(p, Run(p, labels), reply, now, res)
    requires var n := Run(p, labels + [FinishReserve(reply, now, Saves)] + more);
      n.calling == None && Consume(p, n.site, a, res.token, t0, fe, t1, f).1.Ok?
    ensures var ds := Consume(p, Run(p, labels + [FinishReserve(reply, now, Saves)] + more).site, a, res.token, t0, fe,
      t1, f).1.value;
      |ds| == |res.ids| && forall i :: 0 <= i < |ds| ==> ds[i].id == res.ids[i]
  {
    hide Run, Apply, Consume, Forward, Grants, SiteGood;
    var before := labels + [FinishReserve(reply, now, Saves)];
    GrantRun(p, labels, reply, now, res);
    RunKeeps(p, before + more);
    JournalMovesForward(p, before, more);
    ListKept(Run(p, before).site.disk, Run(p, before + more).site.disk, res.token);
    ConsumedList(p, Run(p, before + more).site, a, res.token, t0, fe, t1, f);
  }
}
