/** A network of relay nodes. Messages once sent may be delivered any number of times, in any order, or
    never; nodes crash and reopen; saves fail. A run is a sequence of labels. */
module RelayNetwork {
  import opened Core
  import opened Peering
  import opened Etsi020
  import opened RelayState

  datatype Msg =
    | TransferMsg(from: Peer, to: Peer, transfer: Transfer)
    | AckMsg(from: Peer, to: Peer, ack: Ack)
    | VoidMsg(from: Peer, to: Peer, request: Void)

  /** The one background worker of a node, between releasing the state lock and taking it again. */
  datatype Worker =
    | Idle
    | Picked(id: KeyID, snapshot: Record)
    | Posting(id: KeyID, to: Peer, snapshot: Record)

  /** A process: its journaled store, its worker, and the worker's copy of the outbox. */
  datatype Node = Node(store: Durable, worker: Worker, jobs: map<JobID, Job>)

  datatype Origin = Origin(node: Peer, pair: Association, bytes: Bytes)

  /** Key bytes handed to a local recipient. */
  datatype Release = Release(node: Peer, role: Role, id: KeyID, bytes: Bytes, at: Time)

  /** The nodes and the messages sent, with the history the theorems speak of: acknowledgements their
      receivers committed, where each key was stored, the nodes it visited, and the releases. */
  datatype Net = Net(
    nodes: map<Peer, Node>,
    sent: set<Msg>,
    processed: set<Msg>,
    origin: map<KeyID, Origin>,
    path: map<KeyID, seq<Peer>>,
    log: seq<Release>)

  datatype Label =
    | Store(n: Peer, key: Key, now: Time, f: Fault)
    | Deliver(m: Msg, now: Time, f: Fault)
    | ReserveKeys(n: Peer, a: Association, count: int, now: Time, f: Fault)
    | ConsumeReserved(n: Peer, a: Association, token: Option<nat>, now: Time, f: Fault)
    | ConsumePeerKeys(n: Peer, a: Association, ids: seq<KeyID>, now: Time, f: Fault)
    | InvalidateKey(n: Peer, id: KeyID, f: Fault)
    | ExpireDue(n: Peer, now: Time, f: Fault)
    | Pick(n: Peer, id: KeyID, now: Time)
    | PostVoid(n: Peer, to: Peer)
    | DeferKey(n: Peer, now: Time, f: Fault)
    | CommitTo(n: Peer, to: Peer, now: Time, f: Fault)
    | PostTransfer(n: Peer)
    | Drop(n: Peer)
    | CopyOutbox(n: Peer)
    | PostAck(n: Peer, job: JobID, now: Time)
    | FinishAck(n: Peer, job: JobID, ok: bool, now: Time, f: Fault)
    | Reopen(n: Peer, f: Fault)

  type Policies = map<Peer, Policy>

  predicate ValidPolicies(cs: Policies) { forall n :: n in cs ==> cs[n].Valid() }

  function Init(cs: Policies): Net {
    Net(map n | n in cs :: Node(Durable(EMPTY, EMPTY, false), Idle, map[]), {}, {}, map[], map[], [])
  }

  /** A key's path grows when a node's journal first holds a record of it. */
  function ExtendPath(path: map<KeyID, seq<Peer>>, n: Peer, d: State, d': State): map<KeyID, seq<Peer>> {
    map id | id in path.Keys + (d'.keys.Keys - d.keys.Keys) ::
      (if id in path then path[id] else []) + (if id in d'.keys && id !in d.keys then [n] else [])
  }

  /** Node n commits a handler's outcome. */
  function Commit(net: Net, n: Peer, outcome: Result<State>, f: Fault): Net
    requires n in net.nodes
  {
    var node := net.nodes[n];
    var store := Transact(node.store, outcome, f);
    net.(nodes := net.nodes[n := node.(store := store)],
         path := ExtendPath(net.path, n, node.store.disk, store.disk))
  }

  function SetWorker(net: Net, n: Peer, w: Worker): Net
    requires n in net.nodes
  {
    net.(nodes := net.nodes[n := net.nodes[n].(worker := w)])
  }

  predicate Committed(net: Net, n: Peer, outcome: Result<State>, f: Fault)
    requires n in net.nodes
  {
    Verdict(net.nodes[n].store, outcome, f).Ok?
  }

  /** What the receiver makes of a message. */
  function Handle(c: Policy, s: State, m: Msg, now: Time): Result<State> {
    match m
    case TransferMsg(from, _, t) => Accept(c, s, from, t, now)
    case AckMsg(from, _, ack) => Acknowledge(c, s, from, [ack], now)
    case VoidMsg(from, _, v) => VoidRequest(c, s, from, v, now)
  }

  function StoreOutcome(c: Policy, s: State, k: Key, now: Time): Result<State> {
    var _ :- StoreGuard(c, k, now);
    StoreBody(c, Working(s), k)
  }

  function First<A>(r: Result<(State, A)>): Result<State> {
    match r case Ok(v) => Ok(v.0) case Err(e) => Err(e)
  }

  function Releases(n: Peer, role: Role, ds: seq<Delivery>, now: Time): (r: seq<Release>)
    ensures |r| == |ds| && forall i :: 0 <= i < |ds| ==> r[i] == Release(n, role, ds[i].id, ds[i].material, now)
  {
    seq(|ds|, i requires 0 <= i < |ds| => Release(n, role, ds[i].id, ds[i].material, now))
  }

  /** A consumption releases its deliveries only once the journal has them. */
  function Consume(net: Net, n: Peer, role: Role, r: Result<(State, seq<Delivery>)>, now: Time, f: Fault): Net
    requires n in net.nodes
  {
    var net' := Commit(net, n, First(r), f);
    if Committed(net, n, First(r), f) then net'.(log := net.log + Releases(n, role, r.value.1, now)) else net'
  }

  function TransferOf(c: Policy, id: KeyID, to: Peer, r: Record): Transfer {
    Transfer([WireKey(id, r.material, r.keyExt)], r.pair.master, [r.pair.slave], c.OwnCallback(to), map[], r.optional)
  }

  function VoidOf(c: Policy, id: KeyID, to: Peer, r: Record): Void {
    Void([id], r.pair.master, [r.pair.slave], c.OwnCallback(to), false)
  }

  /** The worker may commit to this peer: the pinned one, or any candidate before the first attempt. */
  predicate MaySend(r: Record, to: Peer) {
    !r.voiding && !r.ready && !r.delivered && r.role != Target && (if r.sent then to == r.next else to in r.candidates)
  }

  function ApplyStore(cs: Policies, net: Net, n: Peer, k: Key, now: Time, f: Fault): Net
    requires n in net.nodes && n in cs
  {
    var outcome := StoreOutcome(cs[n], net.nodes[n].store.live, k, now);
    if k.id in net.origin || outcome.Err? || net.nodes[n].store.broken then net
    else Commit(net, n, outcome, f).(origin := net.origin[k.id := Origin(n, k.pair, k.material)])
  }

  function ApplyDeliver(cs: Policies, net: Net, m: Msg, now: Time, f: Fault): Net {
    if m !in net.sent || m.to !in net.nodes || m.to !in cs then net
    else
      var outcome := Handle(cs[m.to], net.nodes[m.to].store.live, m, now);
      var net' := Commit(net, m.to, outcome, f);
      if Committed(net, m.to, outcome, f) then net'.(processed := net.processed + {m}) else net'
  }

  /** A local recipient's or operator's call, or the expiry sweep. */
  function ApplyLocal(cs: Policies, net: Net, l: Label): Net
    requires l.ReserveKeys? || l.ConsumeReserved? || l.ConsumePeerKeys? || l.InvalidateKey? || l.ExpireDue?
    requires l.n in net.nodes && l.n in cs
  {
    var s := net.nodes[l.n].store.live;
    match l
    case ReserveKeys(n, a, count, now, f) => Commit(net, n, First(Reserve(cs[n], s, a, count, now)), f)
    case ConsumeReserved(n, a, token, now, f) => Consume(net, n, Source, ConsumeReservation(s, a, token, now), now, f)
    case ConsumePeerKeys(n, a, ids, now, f) => Consume(net, n, Target, ConsumePeer(cs[n], s, a, ids, now), now, f)
    case InvalidateKey(n, id, f) => Commit(net, n, Invalidate(s, id), f)
    case ExpireDue(n, now, f) => Commit(net, n, Ok(Expire(Working(s), now)), f)
  }

  /** A step of the worker on one record. */
  function ApplySend(cs: Policies, net: Net, l: Label): Net
    requires l.Pick? || l.PostVoid? || l.DeferKey? || l.CommitTo? || l.PostTransfer? || l.Drop?
    requires l.n in net.nodes && l.n in cs
  {
    var node := net.nodes[l.n];
    var s := node.store.live;
    match l
    case Pick(n, id, now) =>
      if node.store.broken || node.worker != Idle || id !in s.keys || now < s.keys[id].retry then net
      else SetWorker(net, n, Picked(id, s.keys[id]))
    case PostVoid(n, to) =>
      if !node.worker.Picked? || !node.worker.snapshot.voiding || to !in node.worker.snapshot.voidPending then net
      else net.(sent := net.sent + {VoidMsg(n, to, VoidOf(cs[n], node.worker.id, to, node.worker.snapshot))})
    case DeferKey(n, now, f) =>
      if !node.worker.Picked? || node.worker.id !in s.keys then net
      else SetWorker(Commit(net, n, Ok(Defer(Working(s), node.worker.id, now)), f), n, Idle)
    case CommitTo(n, to, now, f) =>
      if !node.worker.Picked? || !MaySend(node.worker.snapshot, to) || node.worker.id !in s.keys then net
      else
        var outcome := CommitSend(Working(s), node.worker.id, to, now);
        SetWorker(Commit(net, n, outcome, f), n,
                  if Committed(net, n, outcome, f) then Posting(node.worker.id, to, node.worker.snapshot) else Idle)
    case PostTransfer(n) =>
      if !node.worker.Posting? then net
      else SetWorker(net, n, Idle).(sent := net.sent
        + {TransferMsg(n, node.worker.to, TransferOf(cs[n], node.worker.id, node.worker.to, node.worker.snapshot))})
    case Drop(n) => SetWorker(net, n, Idle)
  }

  /** A step of the worker on its copy of the outbox; a crash and reopening. */
  function ApplyOutbox(net: Net, l: Label): Net
    requires l.CopyOutbox? || l.PostAck? || l.FinishAck? || l.Reopen?
    requires l.n in net.nodes
  {
    var node := net.nodes[l.n];
    var s := node.store.live;
    match l
    case CopyOutbox(n) => net.(nodes := net.nodes[n := node.(jobs := s.acks)])
    case PostAck(n, j, now) =>
      if j !in node.jobs || now < node.jobs[j].retry then net
      else net.(sent := net.sent + {AckMsg(n, node.jobs[j].peer, node.jobs[j].ack)})
    case FinishAck(n, j, ok, now, f) =>
      if j !in node.jobs || (ok && AckMsg(n, node.jobs[j].peer, node.jobs[j].ack) !in net.processed) then net
      else Commit(net, n, Ok(if ok then AckSent(Working(s), j) else AckFailed(Working(s), j, now)), f)
    case Reopen(n, f) =>
      var d := node.store.disk;
      Commit(net.(nodes := net.nodes[n := Node(Durable(d, d, false), Idle, map[])]), n, Ok(Working(d)), f)
  }

  function Apply(cs: Policies, net: Net, l: Label): Net {
    if l.Deliver? then ApplyDeliver(cs, net, l.m, l.now, l.f)
    else if l.n !in net.nodes || l.n !in cs then net
    else if l.Store? then ApplyStore(cs, net, l.n, l.key, l.now, l.f)
    else if l.CopyOutbox? || l.PostAck? || l.FinishAck? || l.Reopen? then ApplyOutbox(net, l)
    else if l.ReserveKeys? || l.ConsumeReserved? || l.ConsumePeerKeys? || l.InvalidateKey? || l.ExpireDue?
      then ApplyLocal(cs, net, l)
    else ApplySend(cs, net, l)
  }

  /** The network after a run. */
  function Run(cs: Policies, labels: seq<Label>): Net {
    if labels == [] then Init(cs) else Apply(cs, Run(cs, labels[..|labels| - 1]), labels[|labels| - 1])
  }
}
