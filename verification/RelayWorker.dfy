/** The one background worker of a node: its step and its visit to one key, call by call. It lets go of the state
    lock before every call to a peer, and whatever the rest of the network does meanwhile is its environment's
    choice. What it does is a run of the network, and a step whose calls go through is the one progress needs. */
module RelayWorker {
  import opened Core
  import opened Peering
  import opened Etsi020
  import opened RelayState
  import opened RelayInvariant
  import opened RelayNetwork
  import opened RelayTrace
  import opened RelayMoves
  import opened RelayRuns
  import opened RelayWiring
  import opened RelayWork
  import opened RelayProgress

  /** The environment's choices, by how many labels the run has so far: what the clock shows, how a save ends,
      what everybody else does once the lock is free, whether a peer's answer arrives, and whether the worker's
      context is cancelled by then. */
  datatype Env = Env(clock: nat -> Time, fault: nat -> Fault, others: nat -> seq<Label>, answers: (nat, Peer) -> bool,
    cancelled: nat -> bool)

  /** What only node n's worker does, and its crash. */
  predicate Own(l: Label, n: Peer) {
    || ((l.Pick? || l.PostVoid? || l.DeferKey? || l.CommitTo? || l.PostTransfer? || l.Drop?) && l.n == n)
    || ((l.CopyOutbox? || l.PostAck? || l.FinishAck? || l.Reopen?) && l.n == n)
  }

  /** Nobody else runs the worker, and the process lives on. */
  ghost predicate Alone(env: Env, n: Peer) {
    forall i, k :: 0 <= k < |env.others(i)| ==> !Own(env.others(i)[k], n)
  }

  /** Node n's worker comes to no key and keeps its copy of the outbox. */
  predicate Minor(l: Label, n: Peer) { !Recopies(l, n) && !(l.Pick? && l.n == n) }

  // What a step leaves in the run.

  /** If it can be saved, a delivered result is gone, and one that did not arrive is to be tried a second later. */
  ghost predicate Noted(net: Net, net': Net, n: Peer, j: JobID, ok: bool, now: Time, f: Fault) {
    Serves(net, n) && j in net.nodes[n].store.live.acks && f == Saves ==>
      && n in net'.nodes
      && var acks, acks' := net.nodes[n].store.live.acks, net'.nodes[n].store.live.acks;
         if ok then j !in acks' else j in acks' && acks'[j] == acks[j].(retry := now + 1)
  }

  /** What became of a posted result is noted at q: it is dropped when its receiver's answer came, else put off. */
  ghost predicate NotedAt(cs: Policies, env: Env, run: seq<Label>, n: Peer, j: JobID, job: Job, q: nat)
    requires q < |run|
  {
    var ok := env.answers(q, job.peer) && AckMsg(n, job.peer, job.ack) in At(cs, run, q).processed;
    && run[q] == FinishAck(n, j, ok, env.clock(q), env.fault(q))
    && Noted(At(cs, run, q), At(cs, run, q + 1), n, j, ok, env.clock(q), env.fault(q))
  }

  /** A result copied at c was posted and its outcome noted, or it was not yet due when its turn came at p. */
  ghost predicate ReportTried(cs: Policies, env: Env, run: seq<Label>, n: Peer, j: JobID, job: Job, c: nat) {
    exists p :: c < p <= |run| && ReportTriedAt(cs, env, run, n, j, job, c, p)
  }

  ghost predicate ReportTriedAt(cs: Policies, env: Env, run: seq<Label>, n: Peer, j: JobID, job: Job, c: nat, p: nat)
    requires c < p <= |run|
  {
    || env.clock(p) < job.retry
    || (p < |run| && PostedAt(run, n, j, job, c, p)
        && exists q :: p < q < |run| && NotedAt(cs, env, run, n, j, job, q))
  }

  /** A probe of the peer between k and m was answered, or was not. */
  predicate AnsweredBy(env: Env, p: Peer, k: nat, m: nat) { exists x :: k < x <= m && env.answers(x, p) }

  predicate Silent(env: Env, p: Peer, k: nat, m: nat) { exists x :: k < x <= m && !env.answers(x, p) }

  /** The peer is the i-th candidate, which answered, and those before it did not. */
  predicate FirstHeard(env: Env, candidates: seq<Peer>, i: nat, k: nat, m: nat)
    requires i < |candidates|
  {
    AnsweredBy(env, candidates[i], k, m) && forall e :: 0 <= e < i ==> Silent(env, candidates[e], k, m)
  }

  /** Where a record not yet pinned may go: to the first candidate that answered. */
  predicate Chosen(env: Env, r: Record, to: Peer, k: nat, m: nat) {
    r.sent || exists i :: 0 <= i < |r.candidates| && r.candidates[i] == to && FirstHeard(env, r.candidates, i, k, m)
  }

  /** The record seen at k was committed to a peer, and posted if the commit succeeded. */
  ghost predicate CommitTried(cs: Policies, env: Env, run: seq<Label>, n: Peer, r: Record, k: nat) {
    exists m :: k < m < |run| && run[m].CommitTo? && CommitTriedAt(cs, env, run, n, r, k, m)
  }

  ghost predicate CommitTriedAt(cs: Policies, env: Env, run: seq<Label>, n: Peer, r: Record, k: nat, m: nat)
    requires k < m < |run| && run[m].CommitTo?
  {
    && run[m].n == n && run[m].now == env.clock(m) && run[m].f == env.fault(m) && MaySend(r, run[m].to)
    && Chosen(env, r, run[m].to, k, m)
    && (forall x :: k < x < m ==> !Interrupts(run[x], n))
    && n in At(cs, run, m + 1).nodes
    && (At(cs, run, m + 1).nodes[n].worker.Posting? ==> exists o :: m < o < |run| && TriedAt(run, n, r, k, m, o))
  }

  /** No candidate answered, and the next attempt was put off. */
  ghost predicate NobodyAnswered(cs: Policies, env: Env, run: seq<Label>, n: Peer, id: KeyID, r: Record, k: nat) {
    && !r.sent
    && (forall p :: p in r.candidates ==> Silent(env, p, k, |run|))
    && exists m :: k < m < |run| && PutOffAt(cs, env, run, n, id, r, m)
  }

  /** If it can be saved, the next attempt is a second ahead, and the record is otherwise as it was. */
  ghost predicate PutOff(net: Net, net': Net, n: Peer, id: KeyID, now: Time, f: Fault) {
    Serves(net, n) && id in net.nodes[n].store.live.keys && f == Saves ==>
      && n in net'.nodes && id in net'.nodes[n].store.live.keys
      && net'.nodes[n].store.live.keys[id] == net.nodes[n].store.live.keys[id].(retry := now + 1)
  }

  /** The record at hand is put off at m. */
  ghost predicate PutOffAt(cs: Policies, env: Env, run: seq<Label>, n: Peer, id: KeyID, r: Record, m: nat)
    requires m < |run|
  {
    && run[m] == DeferKey(n, env.clock(m), env.fault(m))
    && n in At(cs, run, m).nodes && At(cs, run, m).nodes[n].worker == Picked(id, r)
    && PutOff(At(cs, run, m), At(cs, run, m + 1), n, id, env.clock(m), env.fault(m))
  }

  /** The void request for p is posted at x, from the record at hand, and is on its way from then on. */
  ghost predicate VoidSentAt(cs: Policies, run: seq<Label>, n: Peer, id: KeyID, r: Record, p: Peer, x: nat)
    requires x < |run|
  {
    && run[x] == PostVoid(n, p) && n in cs && n in At(cs, run, x).nodes
    && At(cs, run, x).nodes[n].worker == Picked(id, r)
    && VoidMsg(n, p, Void([id], r.pair.master, [r.pair.slave], cs[n].OwnCallback(p), false)) in At(cs, run, x + 1).sent
  }

  ghost predicate VoidsSent(cs: Policies, run: seq<Label>, n: Peer, id: KeyID, r: Record, ps: set<Peer>, k: nat) {
    forall p :: p in ps ==> exists x :: k < x < |run| && VoidSentAt(cs, run, n, id, r, p, x)
  }

  /** The void of the record seen at k went to every neighbour that has to confirm. */
  ghost predicate VoidsPosted(cs: Policies, env: Env, run: seq<Label>, n: Peer, id: KeyID, r: Record, k: nat) {
    && VoidsSent(cs, run, n, id, r, r.voidPending, k)
    && (r.voidPending != {} ==> exists m :: k < m < |run| && PutOffAt(cs, env, run, n, id, r, m))
  }

  /** The worker's visit to a key at k: nothing if the node is broken, does not know it, or it is not due; else
      it looks at the record and does what the record needs. */
  ghost predicate Visited(cs: Policies, env: Env, run: seq<Label>, n: Peer, id: KeyID, k: nat)
    requires k <= |run|
  {
    || !Serves(At(cs, run, k), n) || id !in At(cs, run, k).nodes[n].store.live.keys
    || env.clock(k) < At(cs, run, k).nodes[n].store.live.keys[id].retry
    || (k < |run| && run[k] == Pick(n, id, env.clock(k)) && At(cs, run, k).nodes[n].worker == Idle
        && VisitDone(cs, env, run, n, id, At(cs, run, k).nodes[n].store.live.keys[id], k))
  }

  ghost predicate VisitDone(cs: Policies, env: Env, run: seq<Label>, n: Peer, id: KeyID, r: Record, k: nat) {
    && (r.voiding ==> VoidsPosted(cs, env, run, n, id, r, k))
    && (NeedsSend(r) ==> CommitTried(cs, env, run, n, r, k) || NobodyAnswered(cs, env, run, n, id, r, k))
  }

  /** The worker has not looked at the key between c and k. */
  predicate Fresh(run: seq<Label>, n: Peer, id: KeyID, c: nat, k: nat)
    requires k <= |run|
  {
    forall x :: c < x < k ==> !(run[x].Pick? && run[x].n == n && run[x].id == id)
  }

  /** From m on the worker came to the keys in this order, each once since c. */
  ghost predicate InTurn(cs: Policies, env: Env, run: seq<Label>, n: Peer, order: seq<KeyID>, c: nat, m: nat,
        ks: seq<nat>) {
    && |ks| == |order| && (forall i, j :: 0 <= i < j < |ks| ==> ks[i] <= ks[j])
    && forall i :: 0 <= i < |ks| ==>
         m <= ks[i] <= |run| && Fresh(run, n, order[i], c, ks[i]) && Visited(cs, env, run, n, order[i], ks[i])
  }

  /** A whole step: all results copied at c were attended to, and then all keys known at c, in insertion order. */
  ghost predicate StepDone(cs: Policies, env: Env, run: seq<Label>, n: Peer, c: nat) {
    && c < |run| && run[c] == CopyOutbox(n) && n in At(cs, run, c).nodes
    && exists m, ks :: c < m <= |run| && StepDoneAt(cs, env, run, n, c, m, ks)
  }

  ghost predicate StepDoneAt(cs: Policies, env: Env, run: seq<Label>, n: Peer, c: nat, m: nat, ks: seq<nat>)
    requires c < m <= |run| && n in At(cs, run, c).nodes
  {
    var s := At(cs, run, c).nodes[n].store.live;
    && (forall j :: j in s.acks ==> ReportTried(cs, env, run[..m], n, j, s.acks[j], c))
    && InTurn(cs, env, run, n, s.order, c, m, ks)
  }

  predicate SomeOverdue(s: State, now: Time) {
    exists id :: id in s.keys && !s.keys[id].voiding && s.keys[id].expires <= now
  }

  /** At lo the worker looks for keys whose time has come; once the lock is free again, it sweeps. */
  ghost predicate SweepsAt(cs: Policies, env: Env, run: seq<Label>, n: Peer, lo: nat, x: nat) {
    && lo <= x < |run| && n in At(cs, run, lo).nodes && SomeOverdue(At(cs, run, lo).nodes[n].store.live, env.clock(lo))
    && x == lo + |env.others(lo)| && run[x] == ExpireDue(n, env.clock(x), env.fault(x))
  }

  /** What comes before the outbox is copied at c: a sweep, exactly if some key's time has come, and others. */
  ghost predicate SweepsBefore(cs: Policies, env: Env, run: seq<Label>, n: Peer, lo: nat, c: nat) {
    || (exists x: nat :: SweepsAt(cs, env, run, n, lo, x) && c == x + 1 + |env.others(x + 1)|)
    || (lo <= |run| && n in At(cs, run, lo).nodes && !SomeOverdue(At(cs, run, lo).nodes[n].store.live, env.clock(lo))
        && c == lo + |env.others(lo)|)
  }

  /** The sweep was the last thing the step did, and could not be saved, or found the process poisoned meanwhile. */
  ghost predicate SweepFailed(cs: Policies, env: Env, run: seq<Label>, n: Peer, lo: nat) {
    && (exists x: nat :: SweepsAt(cs, env, run, n, lo, x) && x + 1 == |run|)
    && n in Run(cs, run).nodes && Run(cs, run).nodes[n].store.broken
  }

  /** A step from lo on sweeps, copies its outbox, and is whole unless its context is cancelled after that. */
  ghost predicate StepTaken(cs: Policies, env: Env, run: seq<Label>, n: Peer, lo: nat) {
    exists c :: lo <= c < |run| && run[c] == CopyOutbox(n) && SweepsBefore(cs, env, run, n, lo, c)
      && (StepDone(cs, env, run, n, c) || Cancelled(env, c, |run|))
  }

  /** What the visit to a key with this record may have the worker do: look at it and let go of it; send voids and
      put the key off; or commit to a peer and send the key on, or put off one that is not pinned. */
  predicate Fits(r: Record, l: Label, n: Peer) {
    || !Own(l, n) || l.Pick? || l.Drop?
    || (r.voiding && r.voidPending != {} && (l.DeferKey? || (l.PostVoid? && l.to in r.voidPending)))
    || (NeedsSend(r) && (l.CommitTo? || l.PostTransfer? || (l.DeferKey? && !r.sent)))
  }

  predicate Cancelled(env: Env, lo: nat, hi: nat) { exists x :: lo <= x <= hi && env.cancelled(x) }

  // Longer runs keep what shorter ones show.

  lemma AtPrefix(cs: Policies, run: seq<Label>, run': seq<Label>, i: nat)
    requires run <= run' && i <= |run|
    ensures At(cs, run', i) == At(cs, run, i)
  {
    assert run'[..i] == run[..i];
  }

  lemma ReportKept(cs: Policies, env: Env, run: seq<Label>, run': seq<Label>, n: Peer, j: JobID, job: Job, c: nat)
    requires run <= run' && ReportTried(cs, env, run, n, j, job, c)
    ensures ReportTried(cs, env, run', n, j, job, c)
  {
    hide At;
    var p :| c < p <= |run| && ReportTriedAt(cs, env, run, n, j, job, c, p);
    if env.clock(p) >= job.retry {
      assert PostedAt(run', n, j, job, c, p);
      var q :| p < q < |run| && NotedAt(cs, env, run, n, j, job, q);
      AtPrefix(cs, run, run', q);
      AtPrefix(cs, run, run', q + 1);
      hide Noted;
      assert NotedAt(cs, env, run', n, j, job, q);
    }
    assert ReportTriedAt(cs, env, run', n, j, job, c, p);
  }

  lemma CommitKept(cs: Policies, env: Env, run: seq<Label>, run': seq<Label>, n: Peer, r: Record, k: nat)
    requires run <= run' && CommitTried(cs, env, run, n, r, k)
    ensures CommitTried(cs, env, run', n, r, k)
  {
    hide At, MaySend, CommitTriedAt;
    var m :| k < m < |run| && run[m].CommitTo? && CommitTriedAt(cs, env, run, n, r, k, m);
    CommitAtKept(cs, env, run, run', n, r, k, m);
  }

  lemma CommitAtKept(cs: Policies, env: Env, run: seq<Label>, run': seq<Label>, n: Peer, r: Record, k: nat, m: nat)
    requires run <= run' && k < m < |run| && run[m].CommitTo? && CommitTriedAt(cs, env, run, n, r, k, m)
    ensures CommitTriedAt(cs, env, run', n, r, k, m)
  {
    hide At, MaySend, Interrupts, TriedAt;
    AtPrefix(cs, run, run', m + 1);
    if o :| m < o < |run| && TriedAt(run, n, r, k, m, o) { TriedKept(run, run', n, r, k, m, o); }
  }

  lemma TriedKept(run: seq<Label>, run': seq<Label>, n: Peer, r: Record, k: nat, m: nat, o: nat)
    requires run <= run' && k < m < o < |run| && TriedAt(run, n, r, k, m, o)
    ensures TriedAt(run', n, r, k, m, o)
  {
    hide MaySend, Interrupts;
  }

  lemma SentKept(cs: Policies, run: seq<Label>, run': seq<Label>, n: Peer, id: KeyID, r: Record, ps: set<Peer>, k: nat)
    requires run <= run' && VoidsSent(cs, run, n, id, r, ps, k)
    ensures VoidsSent(cs, run', n, id, r, ps, k)
  {
    forall p | p in ps ensures exists x :: k < x < |run'| && VoidSentAt(cs, run', n, id, r, p, x) {
      var x :| k < x < |run| && VoidSentAt(cs, run, n, id, r, p, x);
      AtPrefix(cs, run, run', x);
      AtPrefix(cs, run, run', x + 1);
      assert VoidSentAt(cs, run', n, id, r, p, x);
    }
  }

  lemma VoidOnItsWay(cs: Policies, net: Net, n: Peer, p: Peer, id: KeyID, r: Record)
    requires n in cs && n in net.nodes && net.nodes[n].worker == Picked(id, r) && r.voiding && p in r.voidPending
    ensures VoidMsg(n, p, Void([id], r.pair.master, [r.pair.slave], cs[n].OwnCallback(p), false))
      in Apply(cs, net, PostVoid(n, p)).sent
  {
    hide Policy.OwnCallback;
  }

  lemma SentOne(cs: Policies, run: seq<Label>, run': seq<Label>, n: Peer, id: KeyID, r: Record, ps: set<Peer>,
        p: Peer, k: nat)
    requires run + [PostVoid(n, p)] <= run' && VoidsSent(cs, run, n, id, r, ps, k) && k < |run|
    requires n in cs && n in Run(cs, run).nodes && Run(cs, run).nodes[n].worker == Picked(id, r)
    requires r.voiding && p in r.voidPending
    ensures VoidsSent(cs, run', n, id, r, ps + {p}, k)
  {
    SentKept(cs, run, run', n, id, r, ps, k);
    var run1 := run + [PostVoid(n, p)];
    assert run1[|run|] == PostVoid(n, p) && run1[..|run|] == run && run'[..|run|] == run;
    assert run'[..|run| + 1] == run1;
    VoidOnItsWay(cs, Run(cs, run), n, p, id, r);
    assert Run(cs, run1) == Apply(cs, Run(cs, run), PostVoid(n, p));
    hide Run, Apply;
    assert VoidSentAt(cs, run', n, id, r, p, |run|);
  }

  lemma VoidsKept(cs: Policies, env: Env, run: seq<Label>, run': seq<Label>, n: Peer, id: KeyID, r: Record, k: nat)
    requires run <= run' && VoidsPosted(cs, env, run, n, id, r, k)
    ensures VoidsPosted(cs, env, run', n, id, r, k)
  {
    SentKept(cs, run, run', n, id, r, r.voidPending, k);
    if r.voidPending != {} {
      hide PutOffAt, VoidsSent;
      var m :| k < m < |run| && PutOffAt(cs, env, run, n, id, r, m);
      PutOffKept(cs, env, run, run', n, id, r, m);
    }
  }

  lemma PutOffKept(cs: Policies, env: Env, run: seq<Label>, run': seq<Label>, n: Peer, id: KeyID, r: Record, m: nat)
    requires run <= run' && m < |run| && PutOffAt(cs, env, run, n, id, r, m)
    ensures PutOffAt(cs, env, run', n, id, r, m)
  {
    hide PutOff, At;
    AtPrefix(cs, run, run', m);
    AtPrefix(cs, run, run', m + 1);
  }

  lemma PutOffLast(cs: Policies, env: Env, run: seq<Label>, run': seq<Label>, n: Peer, id: KeyID, r: Record)
    requires run' == run + [DeferKey(n, env.clock(|run|), env.fault(|run|))]
    requires n in cs && n in Run(cs, run).nodes && Run(cs, run).nodes[n].worker == Picked(id, r)
    ensures PutOffAt(cs, env, run', n, id, r, |run|)
  {
    assert run'[..|run|] == run && run'[..|run| + 1] == run';
    PutsOff(cs, Run(cs, run), n, id, r, env.clock(|run|), env.fault(|run|));
    hide PutOff, Apply;
  }

  lemma PutsOff(cs: Policies, net: Net, n: Peer, id: KeyID, r: Record, now: Time, f: Fault)
    requires n in cs && n in net.nodes && net.nodes[n].worker == Picked(id, r)
    ensures PutOff(net, Apply(cs, net, DeferKey(n, now, f)), n, id, now, f)
  {
    hide ExtendPath;
  }

  lemma SilentKept(env: Env, p: Peer, k: nat, m: nat, m': nat)
    requires m <= m' && Silent(env, p, k, m)
    ensures Silent(env, p, k, m')
  {
  }

  lemma NobodyKept(cs: Policies, env: Env, run: seq<Label>, run': seq<Label>, n: Peer, id: KeyID, r: Record, k: nat)
    requires run <= run' && NobodyAnswered(cs, env, run, n, id, r, k)
    ensures NobodyAnswered(cs, env, run', n, id, r, k)
  {
    var m :| k < m < |run| && PutOffAt(cs, env, run, n, id, r, m);
    hide PutOffAt;
    PutOffKept(cs, env, run, run', n, id, r, m);
    forall p | p in r.candidates ensures Silent(env, p, k, |run'|) { SilentKept(env, p, k, |run|, |run'|); }
  }

  lemma DoneKept(cs: Policies, env: Env, run: seq<Label>, run': seq<Label>, n: Peer, id: KeyID, r: Record, k: nat)
    requires run <= run' && VisitDone(cs, env, run, n, id, r, k)
    ensures VisitDone(cs, env, run', n, id, r, k)
  {
    hide VoidsPosted, CommitTried, NobodyAnswered;
    if r.voiding { VoidsKept(cs, env, run, run', n, id, r, k); }
    if CommitTried(cs, env, run, n, r, k) { CommitKept(cs, env, run, run', n, r, k); }
    if NobodyAnswered(cs, env, run, n, id, r, k) { NobodyKept(cs, env, run, run', n, id, r, k); }
  }

  lemma VisitKept(cs: Policies, env: Env, run: seq<Label>, run': seq<Label>, n: Peer, id: KeyID, k: nat)
    requires run <= run' && k <= |run| && Visited(cs, env, run, n, id, k)
    ensures Visited(cs, env, run', n, id, k)
  {
    AtPrefix(cs, run, run', k);
    hide VisitDone, At;
    if k < |run| && Serves(At(cs, run, k), n) && id in At(cs, run, k).nodes[n].store.live.keys {
      var r := At(cs, run, k).nodes[n].store.live.keys[id];
      if VisitDone(cs, env, run, n, id, r, k) { DoneKept(cs, env, run, run', n, id, r, k); }
    }
  }

  lemma TurnsKept(cs: Policies, env: Env, run: seq<Label>, run': seq<Label>, n: Peer, order: seq<KeyID>, c: nat, m: nat,
        ks: seq<nat>)
    requires run <= run' && InTurn(cs, env, run, n, order, c, m, ks)
    ensures InTurn(cs, env, run', n, order, c, m, ks)
  {
    hide Visited;
    forall i | 0 <= i < |ks| ensures Fresh(run', n, order[i], c, ks[i]) && Visited(cs, env, run', n, order[i], ks[i]) {
      VisitKept(cs, env, run, run', n, order[i], ks[i]);
    }
  }

  lemma TurnsStart(cs: Policies, env: Env, run: seq<Label>, n: Peer, c: nat, m: nat)
    ensures InTurn(cs, env, run, n, [], c, m, [])
  {
  }

  lemma TurnNext(cs: Policies, env: Env, run: seq<Label>, n: Peer, order: seq<KeyID>, i: nat, c: nat, m: nat,
        ks: seq<nat>, k: nat)
    requires i < |order| && InTurn(cs, env, run, n, order[..i], c, m, ks)
    requires m <= k <= |run| && (forall e :: 0 <= e < |ks| ==> ks[e] <= k)
    requires Fresh(run, n, order[i], c, k) && Visited(cs, env, run, n, order[i], k)
    ensures InTurn(cs, env, run, n, order[..i + 1], c, m, ks + [k])
  {
    hide Visited, Fresh;
    var ks' := ks + [k];
    forall e | 0 <= e < |ks'| ensures m <= ks'[e] <= |run| && Fresh(run, n, order[..i + 1][e], c, ks'[e])
      && Visited(cs, env, run, n, order[..i + 1][e], ks'[e]) {
      if e < |ks| { assert order[..i + 1][e] == order[..i][e] && ks'[e] == ks[e]; }
    }
  }

  lemma OwnKept(cs: Policies, net: Net, l: Label, n: Peer)
    requires n in net.nodes && !Own(l, n)
    ensures var net' := Apply(cs, net, l);
      n in net'.nodes && net'.nodes[n].worker == net.nodes[n].worker && net'.nodes[n].jobs == net.nodes[n].jobs
  {
    JobsKept(cs, net, l, n);
    WorkerSame(cs, net, l, n);
    hide Apply;
  }

  lemma WorkerSame(cs: Policies, net: Net, l: Label, n: Peer)
    requires n in net.nodes && !Own(l, n)
    ensures n in Apply(cs, net, l).nodes && Apply(cs, net, l).nodes[n].worker == net.nodes[n].worker
  {
    hide StoreOutcome, Handle, Reserve, ConsumeReservation, ConsumePeer, Invalidate, Expire, CommitSend, Defer;
    hide AckSent, AckFailed, ExtendPath, Transact, TransferOf, VoidOf, MaySend;
  }

  lemma OthersMinor(l: Label, n: Peer)
    requires !Own(l, n)
    ensures Minor(l, n) && !Interrupts(l, n)
  {
  }

  class Worker {
    const cs: Policies
    const n: Peer
    const env: Env
    var net: Net
    var run: seq<Label>

    /** The network is where the run has led. */
    ghost predicate Valid()
      reads this
    {
      ValidPolicies(cs) && n in cs && n in net.nodes && net == Run(cs, run) && Alone(env, n)
    }

    constructor (cs: Policies, n: Peer, env: Env)
      requires ValidPolicies(cs) && n in cs && Alone(env, n)
      ensures Valid() && run == [] && this.cs == cs && this.n == n && this.env == env
    {
      this.cs, this.n, this.env := cs, n, env;
      net, run := Init(cs), [];
    }

    /** One atomic section. */
    method Do(l: Label)
      requires Valid()
      modifies this
      ensures Valid() && run == old(run) + [l] && net == Apply(cs, old(net), l)
    {
      NodesRemain(cs, net, l);
      net, run := Apply(cs, net, l), run + [l];
      assert run[..|run| - 1] == old(run);
    }

    /** The lock is free. */
    method Release()
      requires Valid()
      modifies this
      ensures Valid() && run == old(run) + env.others(|old(run)|)
      ensures net.nodes[n].worker == old(net.nodes[n].worker) && net.nodes[n].jobs == old(net.nodes[n].jobs)
      ensures forall x :: |old(run)| <= x < |run| ==> !Own(run[x], n) && Minor(run[x], n) && !Interrupts(run[x], n)
    {
      hide Run, Apply, ValidPolicies, Own, Minor, Interrupts;
      var ls := env.others(|run|);
      for i := 0 to |ls|
        invariant Valid() && run == old(run) + ls[..i]
        invariant net.nodes[n].worker == old(net.nodes[n].worker) && net.nodes[n].jobs == old(net.nodes[n].jobs)
        invariant forall x :: |old(run)| <= x < |run| ==> !Own(run[x], n) && Minor(run[x], n) && !Interrupts(run[x], n)
      {
        OthersMinor(ls[i], n);
        OwnKept(cs, net, ls[i], n);
        Do(ls[i]);
      }
    }

    /** Lets go of a record still at hand. */
    method LetGo()
      requires Valid()
      modifies this
      ensures Valid() && old(run) <= run && net.nodes[n].worker == Idle
      ensures net.nodes[n].jobs == old(net.nodes[n].jobs)
      ensures forall x :: |old(run)| <= x < |run| ==> run[x].Drop?
    {
      if net.nodes[n].worker != Idle {
        JobsKept(cs, net, Drop(n), n);
        DropIdles(cs, net, n);
        Do(Drop(n));
      }
    }

    /** Puts off the next attempt at the key at hand. */
    method Postpone(id: KeyID, r: Record)
      requires Valid() && net.nodes[n].worker == Picked(id, r)
      modifies this
      ensures Valid() && run == old(run) + [DeferKey(n, env.clock(|old(run)|), env.fault(|old(run)|))]
      ensures PutOffAt(cs, env, run, n, id, r, |old(run)|)
    {
      hide Run, Apply, At, PutOffAt;
      Do(DeferKey(n, env.clock(|run|), env.fault(|run|)));
      PutOffLast(cs, env, old(run), run, n, id, r);
    }

    /** Sends the void of a key to one neighbour more. */
    method SendVoid(id: KeyID, r: Record, p: Peer, ghost sent: set<Peer>, ghost k: nat)
      requires Valid() && net.nodes[n].worker == Picked(id, r) && r.voiding && p in r.voidPending && k < |run|
      requires VoidsSent(cs, run, n, id, r, sent, k)
      modifies this
      ensures Valid() && old(run) <= run && net.nodes[n].worker == Picked(id, r)
      ensures VoidsSent(cs, run, n, id, r, sent + {p}, k)
      ensures forall x :: |old(run)| <= x < |run| ==> Minor(run[x], n) && Fits(r, run[x], n)
    {
      hide VoidsSent, Run, Apply, At, ValidPolicies, Alone, Own, Interrupts, NeedsSend;
      VoidKeepsWorker(cs, net, n, p);
      Do(PostVoid(n, p));
      Release();
      SentOne(cs, old(run), run, n, id, r, sent, p, k);
    }

    /** Sends the void of a key to every neighbour that has to confirm, and puts off the next attempt. */
    method SendVoids(id: KeyID, r: Record, ghost k: nat)
      requires Valid() && net.nodes[n].worker == Picked(id, r) && r.voiding && k < |run|
      modifies this
      ensures Valid() && old(run) <= run && VoidsPosted(cs, env, run, n, id, r, k)
      ensures forall x :: |old(run)| <= x < |run| ==> Minor(run[x], n) && Fits(r, run[x], n)
    {
      hide VoidsSent, Run, Apply, At, ValidPolicies, Alone, Own, Interrupts, PutOffAt, NeedsSend;
      var left := r.voidPending;
      NoneSent(cs, run, n, id, r, k);
      assert r.voidPending - left == {};
      while left != {}
        invariant Valid() && old(run) <= run && left <= r.voidPending && net.nodes[n].worker == Picked(id, r)
        invariant VoidsSent(cs, run, n, id, r, r.voidPending - left, k)
        invariant forall x :: |old(run)| <= x < |run| ==> Minor(run[x], n) && Fits(r, run[x], n)
        decreases |left|
      {
        var p :| p in left;
        SendVoid(id, r, p, r.voidPending - left, k);
        assert r.voidPending - left + {p} == r.voidPending - (left - {p});
        left := left - {p};
      }
      assert r.voidPending - {} == r.voidPending;
      if r.voidPending != {} {
        ghost var before := run;
        Postpone(id, r);
        SentKept(cs, before, run, n, id, r, r.voidPending, k);
      }
    }

    /** The first candidate whose probe is answered, or nobody. */
    method Probe(candidates: seq<Peer>, ghost k: nat) returns (peer: Option<Peer>)
      requires Valid() && k < |run|
      modifies this
      ensures Valid() && old(run) <= run && net.nodes[n].worker == old(net.nodes[n].worker)
      ensures forall x :: |old(run)| <= x < |run| ==> !Own(run[x], n) && Minor(run[x], n) && !Interrupts(run[x], n)
      ensures peer.Some? ==>
        exists i :: 0 <= i < |candidates| && candidates[i] == peer.value && FirstHeard(env, candidates, i, k, |run|)
      ensures peer == None ==> forall p :: p in candidates ==> Silent(env, p, k, |run|)
    {
      hide Run, Apply, ValidPolicies, Alone, Own, Interrupts;
      for i := 0 to |candidates|
        invariant Valid() && old(run) <= run && net.nodes[n].worker == old(net.nodes[n].worker)
        invariant forall x :: |old(run)| <= x < |run| ==> !Own(run[x], n) && Minor(run[x], n) && !Interrupts(run[x], n)
        invariant forall e :: 0 <= e < i ==> Silent(env, candidates[e], k, |run|)
      {
        ghost var before := |run|;
        Release();
        forall e | 0 <= e < i ensures Silent(env, candidates[e], k, |run|) {
          SilentKept(env, candidates[e], k, before, |run|);
        }
        if env.answers(|run|, candidates[i]) {
          assert AnsweredBy(env, candidates[i], k, |run|);
          assert FirstHeard(env, candidates, i, k, |run|);
          return Some(candidates[i]);
        }
      }
      return None;
    }

    /** Commits to the peer and posts the transfer, unless the record changed meanwhile or the save failed. */
    method PassOn(id: KeyID, r: Record, to: Peer, ghost k: nat)
      requires Valid() && net.nodes[n].worker == Picked(id, r) && NeedsSend(r) && MaySend(r, to) && k < |run|
      requires Chosen(env, r, to, k, |run|) && forall x :: k < x < |run| ==> !Interrupts(run[x], n)
      modifies this
      ensures Valid() && old(run) <= run && CommitTried(cs, env, run, n, r, k)
      ensures forall x :: |old(run)| <= x < |run| ==> Minor(run[x], n) && Fits(r, run[x], n)
    {
      hide MaySend, Chosen, CommitTriedAt, CommitTried, At, Run, Apply, TriedAt, NeedsSend, ValidPolicies, Alone, Own;
      ghost var m := |run|;
      Do(CommitTo(n, to, env.clock(|run|), env.fault(|run|)));
      ghost var after := run;
      var posting := net.nodes[n].worker.Posting?;
      if posting {
        Release();
        Do(PostTransfer(n));
        AtStays(cs, after, run, n, m + 1);
        PostedTried(cs, env, run, n, r, to, k, m, |run| - 1);
        ghost var posted := run;
        Release();
        CommitKept(cs, env, posted, run, n, r, k);
      } else {
        NotPosting(cs, env, run, n, r, to, k, m);
      }
    }

    /** Looks at one key and does what its record needs. */
    method SendRecord(id: KeyID)
      requires Valid() && net.nodes[n].worker == Idle
      modifies this
      ensures Valid() && old(run) <= run && net.nodes[n].worker == Idle
      ensures Visited(cs, env, run, n, id, |old(run)|)
      ensures var s := old(net.nodes[n].store); s.broken || id !in s.live.keys ==> run == old(run)
      ensures var s, now := old(net.nodes[n].store.live), old(env.clock(|run|)); id in s.keys ==>
        && (now < s.keys[id].retry ==> run == old(run))
        && forall x :: |old(run)| <= x < |run| ==> Fits(s.keys[id], run[x], n)
      ensures forall x :: |old(run)| <= x < |run| ==> Minor(run[x], n) || (run[x].Pick? && run[x].id == id)
    {
      hide VoidsPosted, CommitTried, NobodyAnswered, MaySend, Run, Apply, At, ValidPolicies, Alone, Own, Interrupts;
      ghost var k := |run|;
      AtEnd(cs, run);
      var node := net.nodes[n];
      if node.store.broken || id !in node.store.live.keys {
        return;
      }
      var r := node.store.live.keys[id];
      var now := env.clock(|run|);
      if now < r.retry {
        return;
      }
      PickLooks(cs, net, n, id, now);
      Do(Pick(n, id, now));
      Release();
      Attend(id, r, k);
      ghost var before := run;
      LetGo();
      DoneKept(cs, env, before, run, n, id, r, k);
      AtPrefix(cs, old(run), run, k);
      hide VisitDone, At;
      assert Visited(cs, env, run, n, id, k);
    }

    /** Does what the record at hand needs. */
    method Attend(id: KeyID, r: Record, ghost k: nat)
      requires Valid() && net.nodes[n].worker == Picked(id, r) && k < |run|
      requires forall x :: k < x < |run| ==> !Interrupts(run[x], n)
      modifies this
      ensures Valid() && old(run) <= run && VisitDone(cs, env, run, n, id, r, k)
      ensures forall x :: |old(run)| <= x < |run| ==> Minor(run[x], n) && Fits(r, run[x], n)
    {
      hide VoidsPosted, CommitTried, NobodyAnswered, Run, Apply, At, ValidPolicies, Alone, Own, Interrupts, Fits;
      if r.voiding {
        SendVoids(id, r, k);
      } else if !r.ready && !r.delivered && r.role != Target {
        Forward(id, r, k);
      }
    }

    /** Probes the candidates, unless the key is pinned, and passes the key on. */
    method Forward(id: KeyID, r: Record, ghost k: nat)
      requires Valid() && net.nodes[n].worker == Picked(id, r) && NeedsSend(r) && k < |run|
      requires forall x :: k < x < |run| ==> !Interrupts(run[x], n)
      modifies this
      ensures Valid() && old(run) <= run
      ensures CommitTried(cs, env, run, n, r, k) || NobodyAnswered(cs, env, run, n, id, r, k)
      ensures forall x :: |old(run)| <= x < |run| ==> Minor(run[x], n) && Fits(r, run[x], n)
    {
      hide CommitTried, Run, Apply;
      var peer := Some(r.next);
      if !r.sent {
        peer := Probe(r.candidates, k);
        if peer == None {
          Postpone(id, r);
          return;
        }
      }
      PassOn(id, r, peer.value, k);
    }

    /** Posts every copied result that is due, and drops or postpones it by what its receiver says, until the
        context is cancelled. */
    method Report(jobs: map<JobID, Job>, ghost c: nat) returns (whole: bool)
      requires Valid() && net.nodes[n].worker == Idle && net.nodes[n].jobs == jobs
      requires c < |run| && forall x :: c < x < |run| ==> Minor(run[x], n)
      modifies this
      ensures Valid() && old(run) <= run && net.nodes[n].worker == Idle
      ensures whole ==> forall j :: j in jobs ==> ReportTried(cs, env, run, n, j, jobs[j], c)
      ensures !whole ==> Cancelled(env, c, |run|)
      ensures forall x :: c < x < |run| ==> Minor(run[x], n)
    {
      hide Run, Apply, ReportTried;
      var left := jobs.Keys;
      while left != {}
        invariant Valid() && old(run) <= run && net.nodes[n].worker == Idle && net.nodes[n].jobs == jobs
          && left <= jobs.Keys
        invariant forall j :: j in jobs.Keys - left ==> ReportTried(cs, env, run, n, j, jobs[j], c)
        invariant forall x :: c < x < |run| ==> Minor(run[x], n)
        decreases |left|
      {
        if env.cancelled(|run|) {
          return false;
        }
        var j :| j in left;
        ghost var before := run;
        ReportOne(j, jobs[j], c);
        left := left - {j};
        forall i | i in jobs.Keys - left ensures ReportTried(cs, env, run, n, i, jobs[i], c) {
          if i != j { ReportKept(cs, env, before, run, n, i, jobs[i], c); }
        }
      }
      return true;
    }

    method ReportOne(j: JobID, job: Job, ghost c: nat)
      requires Valid() && net.nodes[n].worker == Idle && j in net.nodes[n].jobs && net.nodes[n].jobs[j] == job
      requires c < |run| && forall x :: c < x < |run| ==> Minor(run[x], n)
      modifies this
      ensures Valid() && old(run) <= run && net.nodes[n].worker == Idle && net.nodes[n].jobs == old(net.nodes[n].jobs)
      ensures ReportTried(cs, env, run, n, j, job, c)
      ensures forall x :: c < x < |run| ==> Minor(run[x], n)
    {
      hide Run, Apply, ValidPolicies, Alone, Own, Interrupts, At, NotedAt;
      ghost var p := |run|;
      var now := env.clock(|run|);
      if job.retry <= now {
        OutboxKeeps(cs, net, PostAck(n, j, now), n);
        Do(PostAck(n, j, now));
        Release();
        var ok := env.answers(|run|, job.peer) && AckMsg(n, job.peer, job.ack) in net.processed;
        var done := FinishAck(n, j, ok, env.clock(|run|), env.fault(|run|));
        OutboxKeeps(cs, net, done, n);
        ghost var before := run;
        Do(done);
        Release();
        assert PostedAt(run, n, j, job, c, p);
        OutcomeNoted(cs, env, before, run, n, j, job, done);
        assert p < |before| < |run| && NotedAt(cs, env, run, n, j, job, |before|);
      }
      assert c < p <= |run| && ReportTriedAt(cs, env, run, n, j, job, c, p);
    }

    /** One step: sweeps what is due, copies the outbox and the list of keys, reports, and visits every key. It
        ends early only when the process was poisoned before the step, or by the time its sweep was saved, or
        when its context is cancelled meanwhile. */
    method Step()
      requires Valid() && net.nodes[n].worker == Idle
      modifies this
      ensures Valid() && old(run) <= run && net.nodes[n].worker == Idle
      ensures if old(net.nodes[n].store.broken) then run == old(run)
        else SweepFailed(cs, env, run, n, |old(run)|) || StepTaken(cs, env, run, n, |old(run)|)
    {
      hide Run, Apply, StepTaken, Cancelled, ValidPolicies, Alone;
      if net.nodes[n].store.broken {
        return;
      }
      ghost var start := run;
      var s, now := net.nodes[n].store.live, env.clock(|run|);
      AtEnd(cs, run);
      Release();
      if exists id :: id in s.keys && !s.keys[id].voiding && s.keys[id].expires <= now {
        ghost var x := |run|;
        var sweep := ExpireDue(n, env.clock(|run|), env.fault(|run|));
        OwnKept(cs, net, sweep, n);
        Do(sweep);
        AtPrefix(cs, start, run, |start|);
        assert SweepsAt(cs, env, run, n, |start|, x);
        if net.nodes[n].store.broken {
          return;
        }
        Release();
        AtPrefix(cs, start, run, |start|);
        assert SweepsAt(cs, env, run, n, |start|, x);
      } else {
        AtPrefix(cs, start, run, |start|);
      }
      Work(|start|);
    }

    /** Copies the outbox and the list of keys, reports, and visits every key. */
    method Work(ghost lo: nat)
      requires Valid() && net.nodes[n].worker == Idle && lo <= |run| && SweepsBefore(cs, env, run, n, lo, |run|)
      modifies this
      ensures Valid() && old(run) <= run && net.nodes[n].worker == Idle
      ensures StepTaken(cs, env, run, n, lo)
    {
      hide Run, Apply, ValidPolicies, Alone, Own, Minor;
      ghost var c := |run|;
      ghost var start := run;
      AtEnd(cs, run);
      var s := net.nodes[n].store.live;
      OrderDistinct(cs, run, n);
      CopyTaken(cs, net, n);
      Do(CopyOutbox(n));
      var whole := Report(s.acks, c);
      ghost var reported := run;
      ghost var ks := [];
      if whole {
        hide ReportTried, InTurn, SweepsBefore;
        whole, ks := VisitAll(s.order, c);
      }
      SweepsKept(cs, env, start, run, n, lo, c);
      hide SweepsBefore;
      if whole {
        AtPrefix(cs, start, run, c);
        assert run[..|reported|] == reported;
        assert StepDoneAt(cs, env, run, n, c, |reported|, ks);
        assert StepDone(cs, env, run, n, c);
      }
    }

    /** Comes to every key of the list, until the context is cancelled. */
    method VisitAll(order: seq<KeyID>, ghost c: nat) returns (whole: bool, ghost ks: seq<nat>)
      requires Valid() && net.nodes[n].worker == Idle && Distinct(order)
      requires c < |run| && forall x :: c < x < |run| ==> Minor(run[x], n)
      modifies this
      ensures Valid() && old(run) <= run && net.nodes[n].worker == Idle
      ensures whole ==> InTurn(cs, env, run, n, order, c, |old(run)|, ks)
      ensures !whole ==> Cancelled(env, c, |run|)
    {
      hide Run, Apply, At, Visited, InTurn, ValidPolicies, Alone, Fits, NeedsSend;
      ks := [];
      ghost var m := |run|;
      TurnsStart(cs, env, run, n, c, m);
      for i := 0 to |order|
        invariant Valid() && old(run) <= run && net.nodes[n].worker == Idle && m <= |run|
        invariant InTurn(cs, env, run, n, order[..i], c, m, ks) && forall e :: 0 <= e < |ks| ==> ks[e] <= |run|
        invariant forall x :: c < x < |run| ==> Minor(run[x], n) || (run[x].Pick? && run[x].id in order[..i])
      {
        if env.cancelled(|run|) {
          return false, ks;
        }
        ghost var before := run;
        SendRecord(order[i]);
        TurnsKept(cs, env, before, run, n, order[..i], c, m, ks);
        assert order[i] !in order[..i];
        assert Fresh(run, n, order[i], c, |before|);
        TurnNext(cs, env, run, n, order, i, c, m, ks, |before|);
        ks := ks + [|before|];
        assert order[..i + 1] == order[..i] + [order[i]];
      }
      assert order[..|order|] == order;
      return true, ks;
    }
  }

  lemma SweepsKept(cs: Policies, env: Env, run: seq<Label>, run': seq<Label>, n: Peer, lo: nat, c: nat)
    requires run <= run' && lo <= |run| && SweepsBefore(cs, env, run, n, lo, c)
    ensures SweepsBefore(cs, env, run', n, lo, c)
  {
    AtPrefix(cs, run, run', lo);
    hide At;
    if x: nat :| SweepsAt(cs, env, run, n, lo, x) && c == x + 1 + |env.others(x + 1)| {
      assert SweepsAt(cs, env, run', n, lo, x);
    }
  }

  lemma OrderDistinct(cs: Policies, run: seq<Label>, n: Peer)
    requires ValidPolicies(cs) && n in cs && n in Run(cs, run).nodes
    ensures Distinct(Run(cs, run).nodes[n].store.live.order)
  {
    hide NetInv, JobsGood, Run;
    RunKeeps(cs, run);
    InMind(cs, Run(cs, run), n);
  }

  lemma AtEnd(cs: Policies, run: seq<Label>)
    ensures At(cs, run, |run|) == Run(cs, run)
  {
    assert run[..|run|] == run;
  }

  lemma AtStays(cs: Policies, run: seq<Label>, run': seq<Label>, n: Peer, i: nat)
    requires run <= run' && i == |run| && n in Run(cs, run).nodes
    ensures n in At(cs, run', i).nodes
  {
    AtPrefix(cs, run, run', i);
    AtEnd(cs, run);
    hide Run;
  }

  lemma PostedTried(cs: Policies, env: Env, run: seq<Label>, n: Peer, r: Record, to: Peer, k: nat, m: nat, o: nat)
    requires k < m < o < |run| && run[m] == CommitTo(n, to, env.clock(m), env.fault(m)) && MaySend(r, to)
      && Chosen(env, r, to, k, m)
    requires run[o] == PostTransfer(n) && forall x :: k < x < o && x != m ==> !Interrupts(run[x], n)
    requires n in At(cs, run, m + 1).nodes
    ensures CommitTried(cs, env, run, n, r, k)
  {
    hide At, MaySend;
    assert TriedAt(run, n, r, k, m, o);
    hide TriedAt;
    assert CommitTriedAt(cs, env, run, n, r, k, m);
  }

  lemma NotPosting(cs: Policies, env: Env, run: seq<Label>, n: Peer, r: Record, to: Peer, k: nat, m: nat)
    requires k < m && m + 1 == |run| && run[m] == CommitTo(n, to, env.clock(m), env.fault(m)) && MaySend(r, to)
      && Chosen(env, r, to, k, m)
    requires forall x :: k < x < m ==> !Interrupts(run[x], n)
    requires n in Run(cs, run).nodes && !Run(cs, run).nodes[n].worker.Posting?
    ensures CommitTried(cs, env, run, n, r, k)
  {
    AtEnd(cs, run);
    hide At, Run, MaySend;
    assert CommitTriedAt(cs, env, run, n, r, k, m);
  }

  lemma OutcomeNoted(cs: Policies, env: Env, before: seq<Label>, run: seq<Label>, n: Peer, j: JobID, job: Job, l: Label)
    requires before + [l] <= run && n in cs && l.FinishAck?
      && l == FinishAck(n, j, l.ok, env.clock(|before|), env.fault(|before|))
    requires n in Run(cs, before).nodes && j in Run(cs, before).nodes[n].jobs && Run(cs, before).nodes[n].jobs[j] == job
    requires l.ok <==> env.answers(|before|, job.peer) && AckMsg(n, job.peer, job.ack) in Run(cs, before).processed
    ensures |before| < |run| && NotedAt(cs, env, run, n, j, job, |before|)
  {
    assert run[..|before|] == before && (before + [l])[|before|] == l;
    assert run[..|before| + 1] == before + [l] && (before + [l])[..|before|] == before;
    assert Run(cs, before + [l]) == Apply(cs, Run(cs, before), l);
    hide Run;
    Notes(cs, Run(cs, before), n, j, job, l.ok, l.now, l.f);
    hide Noted, Apply;
  }

  lemma Notes(cs: Policies, net: Net, n: Peer, j: JobID, job: Job, ok: bool, now: Time, f: Fault)
    requires n in cs && n in net.nodes && j in net.nodes[n].jobs && net.nodes[n].jobs[j] == job
    requires ok ==> AckMsg(n, job.peer, job.ack) in net.processed
    ensures Noted(net, Apply(cs, net, FinishAck(n, j, ok, now, f)), n, j, ok, now, f)
  {
    hide ExtendPath;
  }

  lemma PickLooks(cs: Policies, net: Net, n: Peer, id: KeyID, now: Time)
    requires n in cs && n in net.nodes && !net.nodes[n].store.broken && net.nodes[n].worker == Idle
    requires id in net.nodes[n].store.live.keys && net.nodes[n].store.live.keys[id].retry <= now
    ensures var net' := Apply(cs, net, Pick(n, id, now));
      n in net'.nodes && net'.nodes[n].worker == Picked(id, net.nodes[n].store.live.keys[id])
  {
  }

  lemma CopyTaken(cs: Policies, net: Net, n: Peer)
    requires n in cs && n in net.nodes
    ensures var net' := Apply(cs, net, CopyOutbox(n));
      n in net'.nodes && net'.nodes[n].worker == net.nodes[n].worker
        && net'.nodes[n].jobs == net.nodes[n].store.live.acks
  {
  }

  lemma OutboxKeeps(cs: Policies, net: Net, l: Label, n: Peer)
    requires n in cs && n in net.nodes && (l.PostAck? || l.FinishAck?) && l.n == n
    ensures var net' := Apply(cs, net, l);
      n in net'.nodes && net'.nodes[n].worker == net.nodes[n].worker && net'.nodes[n].jobs == net.nodes[n].jobs
  {
    hide AckSent, AckFailed, ExtendPath, Transact;
  }

  lemma NoneSent(cs: Policies, run: seq<Label>, n: Peer, id: KeyID, r: Record, k: nat)
    ensures VoidsSent(cs, run, n, id, r, {}, k)
  {
  }

  lemma VoidKeepsWorker(cs: Policies, net: Net, n: Peer, p: Peer)
    requires n in cs && n in net.nodes
    ensures n in Apply(cs, net, PostVoid(n, p)).nodes && Apply(cs, net, PostVoid(n, p)).nodes[n] == net.nodes[n]
  {
  }

  lemma DropIdles(cs: Policies, net: Net, n: Peer)
    requires n in cs && n in net.nodes
    ensures n in Apply(cs, net, Drop(n)).nodes && Apply(cs, net, Drop(n)).nodes[n].worker == Idle
  {
  }

  lemma NodesRemain(cs: Policies, net: Net, l: Label)
    ensures Apply(cs, net, l).nodes.Keys == net.nodes.Keys
  {
    hide StoreOutcome, Handle, Reserve, ConsumeReservation, ConsumePeer, Invalidate, Expire, CommitSend, Defer;
    hide AckSent, AckFailed, ExtendPath, Transact, TransferOf, VoidOf, MaySend;
  }

  // A step whose calls go through.

  /** The results about the key copied at c are due, and whenever one is posted its receiver answers. */
  ghost predicate ReportsGoThrough(cs: Policies, env: Env, run: seq<Label>, n: Peer, id: KeyID, c: nat)
    requires c <= |run| && Serves(At(cs, run, c), n)
  {
    var acks := At(cs, run, c).nodes[n].store.live.acks;
    forall j :: j in acks && KeyOf(acks[j]) == id ==> ReportGoesThrough(cs, env, run, n, j, acks[j], c)
  }

  ghost predicate ReportGoesThrough(cs: Policies, env: Env, run: seq<Label>, n: Peer, j: JobID, job: Job, c: nat) {
    && (forall p :: c < p <= |run| ==> job.retry <= env.clock(p))
    && forall p :: c < p < |run| && run[p].PostAck? && run[p].n == n && run[p].job == j ==>
         exists d :: p < d < |run| && run[d].Deliver? && run[d].m == AckMsg(n, job.peer, job.ack) && run[d].f == Saves
           && Serves(At(cs, run, d), job.peer)
  }

  /** At position x the node serves, knows the key, and it is neither expired nor, before the worker has looked
      at it, still to wait; saves succeed and probes are answered. */
  ghost predicate GoodMoment(cs: Policies, env: Env, run: seq<Label>, n: Peer, id: KeyID, c: nat, x: nat)
    requires x <= |run|
  {
    && Serves(At(cs, run, x), n) && id in At(cs, run, x).nodes[n].store.live.keys
    && env.fault(x) == Saves && (forall p :: env.answers(x, p))
    && var r := At(cs, run, x).nodes[n].store.live.keys[id];
       env.clock(x) < r.expires && (Fresh(run, n, id, c, x) ==> r.retry <= env.clock(x))
  }

  /** Whenever a transfer of the key is posted, its receiver, knowing the key or having room, answers. */
  ghost predicate TransfersGoThrough(cs: Policies, run: seq<Label>, n: Peer, id: KeyID, c: nat)
    requires n in cs
  {
    forall o, to, r :: PostsAt(cs, run, n, id, to, r, c, o) ==> TransferAnswered(cs, run, n, id, to, r, o)
  }

  ghost predicate PostsAt(cs: Policies, run: seq<Label>, n: Peer, id: KeyID, to: Peer, r: Record, c: nat, o: nat) {
    && c < o < |run| && run[o] == PostTransfer(n)
    && n in At(cs, run, o).nodes && At(cs, run, o).nodes[n].worker == Posting(id, to, r)
  }

  ghost predicate TransferAnswered(cs: Policies, run: seq<Label>, n: Peer, id: KeyID, to: Peer, r: Record, o: nat)
    requires n in cs
  {
    exists d :: o < d < |run| && run[d].Deliver? && run[d].m == TransferMsg(n, to, TransferOf(cs[n], id, to, r))
      && run[d].f == Saves && Serves(At(cs, run, d), to) && HasRoom(cs, At(cs, run, d), to, id)
  }

  lemma ReportAnswered(cs: Policies, env: Env, run: seq<Label>, n: Peer, j: JobID, job: Job, c: nat)
    requires c < |run| && ReportTried(cs, env, run, n, j, job, c) && ReportGoesThrough(cs, env, run, n, j, job, c)
    ensures Answered(cs, run, n, j, job, c, |run|)
  {
    hide At;
    var p :| c < p <= |run| && ReportTriedAt(cs, env, run, n, j, job, c, p);
    var d :| p < d < |run| && run[d].Deliver? && run[d].m == AckMsg(n, job.peer, job.ack) && run[d].f == Saves
      && Serves(At(cs, run, d), job.peer);
    assert AnsweredAt(cs, run, n, j, job, c, p, d);
  }

  /** What committing to a peer in good moments leads to. */
  lemma CommitLeads(cs: Policies, net: Net, n: Peer, id: KeyID, r: Record, to: Peer, now: Time)
    requires n in cs && Serves(net, n) && net.nodes[n].worker == Picked(id, r) && MaySend(r, to)
    requires id in net.nodes[n].store.live.keys && now < net.nodes[n].store.live.keys[id].expires
    ensures var net' := Apply(cs, net, CommitTo(n, to, now, Saves));
      n in net'.nodes && (net'.nodes[n].worker == Posting(id, to, r) || !NeedsSend(net.nodes[n].store.live.keys[id]))
  {
    hide MaySend, ExtendPath;
  }

  /** Since the worker looked at k, it is committed or posted at m only from the record it has at hand. */
  lemma PickedTill(cs: Policies, env: Env, run: seq<Label>, n: Peer, id: KeyID, r: Record, k: nat, m: nat)
    requires k < m <= |run| && n in cs && run[k] == Pick(n, id, env.clock(k)) && Serves(At(cs, run, k), n)
    requires At(cs, run, k).nodes[n].worker == Idle && id in At(cs, run, k).nodes[n].store.live.keys
    requires r == At(cs, run, k).nodes[n].store.live.keys[id] && r.retry <= env.clock(k)
    requires forall x :: k < x < m ==> !Interrupts(run[x], n)
    ensures n in At(cs, run, m).nodes && At(cs, run, m).nodes[n].worker == Picked(id, r)
  {
    hide At, Apply;
    PickLooks(cs, At(cs, run, k), n, id, env.clock(k));
    AtNext(cs, run, k);
    WorkerStays(cs, run, n, k + 1, m);
  }

  /** The record of the key, the same for as long as it exists. */
  ghost predicate KeepsExpiry(cs: Policies, run: seq<Label>, n: Peer, id: KeyID, x: nat, t: Time) {
    && x <= |run| && Serves(At(cs, run, x), n) && id in At(cs, run, x).nodes[n].store.live.keys
    && At(cs, run, x).nodes[n].store.live.keys[id].expires == t
  }

  lemma CommitPasses(cs: Policies, env: Env, run: seq<Label>, n: Peer, id: KeyID, r: Record, c: nat, k: nat)
    requires c < k < |run| && n in cs && run[k] == Pick(n, id, env.clock(k)) && Serves(At(cs, run, k), n)
    requires At(cs, run, k).nodes[n].worker == Idle && id in At(cs, run, k).nodes[n].store.live.keys
    requires r == At(cs, run, k).nodes[n].store.live.keys[id] && r.retry <= env.clock(k)
    requires forall x :: k <= x <= |run| ==> GoodMoment(cs, env, run, n, id, c, x)
    requires forall x :: k <= x <= |run| ==> KeepsExpiry(cs, run, n, id, x, r.expires)
    requires TransfersGoThrough(cs, run, n, id, c) && CommitTried(cs, env, run, n, r, k)
    ensures Passed(cs, run, n, id, r, k, |run|) || Overtaken(cs, run, n, id, k, |run|)
  {
    hide At, Apply, MaySend, Interrupts, HasRoom, TransferOf, NeedsSend, Fresh;
    var m :| k < m < |run| && run[m].CommitTo? && CommitTriedAt(cs, env, run, n, r, k, m);
    var to := run[m].to;
    assert GoodMoment(cs, env, run, n, id, c, m) && KeepsExpiry(cs, run, n, id, m, r.expires);
    PickedTill(cs, env, run, n, id, r, k, m);
    CommitLeads(cs, At(cs, run, m), n, id, r, to, env.clock(m));
    assert run[m] == CommitTo(n, to, env.clock(m), Saves);
    AtNext(cs, run, m);
    if At(cs, run, m + 1).nodes[n].worker == Posting(id, to, r) {
      var o :| m < o < |run| && TriedAt(run, n, r, k, m, o);
      PostingPasses(cs, run, n, id, r, c, k, m, o);
    } else {
      assert SettledAt(cs, run, n, id, m);
    }
  }

  /** A transfer committed to at m and posted at o is answered. */
  lemma PostingPasses(cs: Policies, run: seq<Label>, n: Peer, id: KeyID, r: Record, c: nat, k: nat, m: nat, o: nat)
    requires c < k < m < o < |run| && n in cs && TriedAt(run, n, r, k, m, o) && n in At(cs, run, m + 1).nodes
    requires At(cs, run, m + 1).nodes[n].worker == Posting(id, run[m].to, r)
    requires run[m].f == Saves && run[m].now < r.expires && Serves(At(cs, run, m), n)
    requires TransfersGoThrough(cs, run, n, id, c)
    ensures Passed(cs, run, n, id, r, k, |run|)
  {
    hide At, Apply, MaySend, Interrupts, HasRoom, TransferOf, NeedsSend;
    var to := run[m].to;
    WorkerStays(cs, run, n, m + 1, o);
    assert PostsAt(cs, run, n, id, to, r, c, o);
    var d :| o < d < |run| && run[d].Deliver? && run[d].m == TransferMsg(n, to, TransferOf(cs[n], id, to, r))
      && run[d].f == Saves && Serves(At(cs, run, d), to) && HasRoom(cs, At(cs, run, d), to, id);
    assert PassedAt(cs, run, n, id, r, k, m, o, d);
  }

  lemma ExpiryKept(cs: Policies, run: seq<Label>, n: Peer, id: KeyID, k: nat, x: nat)
    requires ValidPolicies(cs) && n in cs && k <= x <= |run| && Serves(At(cs, run, k), n) && Serves(At(cs, run, x), n)
    requires id in At(cs, run, k).nodes[n].store.live.keys
    ensures KeepsExpiry(cs, run, n, id, x, At(cs, run, k).nodes[n].store.live.keys[id].expires)
  {
    hide At, Run, Good, Grows;
    AtGrows(cs, run, k, x);
    SameExpiry(cs, At(cs, run, k), At(cs, run, x), n, id);
  }

  lemma SameExpiry(cs: Policies, net: Net, net': Net, n: Peer, id: KeyID)
    requires Good(cs, net) && Good(cs, net') && Grows(net, net') && n in cs && Serves(net, n) && Serves(net', n)
    requires id in net.nodes[n].store.live.keys
    ensures id in net'.nodes[n].store.live.keys
    ensures net'.nodes[n].store.live.keys[id].expires == net.nodes[n].store.live.keys[id].expires
  {
    hide Heard, NodeGood, Grows;
    NodeOf(cs, net, n);
    NodeOf(cs, net', n);
    hide NetInv;
    assert Has(net, n, id);
    IdentityStays(net, net', n, id);
  }

  /** Unless nobody answers, a record that has to be sent has candidates to send it to. */
  lemma SomebodyAnswers(cs: Policies, env: Env, run: seq<Label>, n: Peer, id: KeyID, k: nat)
    requires ValidPolicies(cs) && n in cs && k < |run| && Serves(At(cs, run, k), n)
    requires id in At(cs, run, k).nodes[n].store.live.keys && NeedsSend(At(cs, run, k).nodes[n].store.live.keys[id])
    requires forall x, p :: k < x <= |run| ==> env.answers(x, p)
    ensures !NobodyAnswered(cs, env, run, n, id, At(cs, run, k).nodes[n].store.live.keys[id], k)
  {
    var net, r := At(cs, run, k), At(cs, run, k).nodes[n].store.live.keys[id];
    RunKeeps(cs, run[..k]);
    LiveInv(cs, net, n);
    assert RecInv(cs[n], id, r);
    hide NetInv, Inv, Run;
    if !r.sent { assert r.candidates[0] in r.candidates; }
  }

  lemma VisitGoes(cs: Policies, env: Env, run: seq<Label>, n: Peer, id: KeyID, c: nat, k: nat)
    requires ValidPolicies(cs) && n in cs && c < k <= |run|
    requires Fresh(run, n, id, c, k) && Visited(cs, env, run, n, id, k)
    requires forall x :: c <= x <= |run| ==> GoodMoment(cs, env, run, n, id, c, x)
    requires TransfersGoThrough(cs, run, n, id, c)
    ensures Visits(cs, run, n, id, k, |run|)
  {
    hide At, Fresh, TransfersGoThrough, CommitTried, NobodyAnswered, VoidsPosted, Passed, Overtaken, ValidPolicies;
    assert GoodMoment(cs, env, run, n, id, c, k);
    var r := At(cs, run, k).nodes[n].store.live.keys[id];
    if NeedsSend(r) {
      forall x | k <= x <= |run| ensures KeepsExpiry(cs, run, n, id, x, r.expires) {
        assert GoodMoment(cs, env, run, n, id, c, x);
        ExpiryKept(cs, run, n, id, k, x);
      }
      forall x, p | k < x <= |run| ensures env.answers(x, p) { assert GoodMoment(cs, env, run, n, id, c, x); }
      SomebodyAnswers(cs, env, run, n, id, k);
      CommitPasses(cs, env, run, n, id, r, c, k);
    }
  }

  /** The step whose outbox was copied at c finds its node in service, and its calls about the key go through. */
  ghost predicate CallsGoThrough(cs: Policies, env: Env, run: seq<Label>, n: Peer, id: KeyID, c: nat)
    requires c <= |run| && n in cs
  {
    && Serves(At(cs, run, c), n)
    && ReportsGoThrough(cs, env, run, n, id, c) && TransfersGoThrough(cs, run, n, id, c)
    && (id in At(cs, run, c).nodes[n].store.live.keys ==>
          forall x :: c <= x <= |run| ==> GoodMoment(cs, env, run, n, id, c, x))
  }

  /** What the worker's step does is what a round needs of its node: if the calls about a key go through, the step
      is one in the sense of the progress theorem. */
  lemma StepCounts(cs: Policies, env: Env, run: seq<Label>, n: Peer, id: KeyID, c: nat)
    requires ValidPolicies(cs) && n in cs && StepDone(cs, env, run, n, c) && CallsGoThrough(cs, env, run, n, id, c)
    ensures Steps(cs, run, n, id, c, |run|)
  {
    hide At, Run, ValidPolicies, TransfersGoThrough, GoodMoment, Visited, Visits, ReportTried, ReportGoesThrough,
      Answered;
    hide Fresh;
    var s := At(cs, run, c).nodes[n].store.live;
    var m, ks :| c < m <= |run| && StepDoneAt(cs, env, run, n, c, m, ks);
    forall j | j in s.acks && KeyOf(s.acks[j]) == id ensures Answered(cs, run, n, j, s.acks[j], c, |run|) {
      ReportKept(cs, env, run[..m], run, n, j, s.acks[j], c);
      ReportAnswered(cs, env, run, n, j, s.acks[j], c);
    }
    assert AllReported(cs, run, n, id, c, |run|);
    if id in s.keys {
      ListedKey(cs, run, n, id, c);
      var i :| 0 <= i < |s.order| && s.order[i] == id;
      assert Fresh(run, n, id, c, ks[i]) && Visited(cs, env, run, n, id, ks[i]);
      VisitGoes(cs, env, run, n, id, c, ks[i]);
    }
    assert VisitsAfter(cs, run, n, id, c, |run|);
  }

  lemma ListedKey(cs: Policies, run: seq<Label>, n: Peer, id: KeyID, c: nat)
    requires ValidPolicies(cs) && n in cs && c <= |run| && Serves(At(cs, run, c), n)
    requires id in At(cs, run, c).nodes[n].store.live.keys
    ensures id in At(cs, run, c).nodes[n].store.live.order
  {
    RunKeeps(cs, run[..c]);
    LiveInv(cs, At(cs, run, c), n);
    hide NetInv, Run;
  }

  // Rounds of worker steps.

  /** Between lo and hi the worker takes a whole step, from c to e, whose calls about the key go through. */
  ghost predicate WorkerSteps(cs: Policies, env: Env, run: seq<Label>, n: Peer, id: KeyID, lo: nat, hi: nat)
    requires lo <= hi <= |run| && n in cs
  {
    exists c, e :: lo <= c < e <= hi && StepDone(cs, env, run[..e], n, c) && CallsGoThrough(cs, env, run[..e], n, id, c)
  }

  /** The run from the first cut on is cut into rounds, in each of which every one of these nodes' workers takes a
      whole step. */
  ghost predicate WorkerRounds(cs: Policies, envs: map<Peer, Env>, run: seq<Label>, id: KeyID, cuts: seq<nat>)
    requires envs.Keys <= cs.Keys
  {
    && cuts != [] && (forall k :: 0 <= k < |cuts| ==> cuts[k] <= |run|)
    && forall k :: 0 < k < |cuts| ==>
         && cuts[k - 1] <= cuts[k]
         && forall n :: n in envs ==> WorkerSteps(cs, envs[n], run, n, id, cuts[k - 1], cuts[k])
  }

  lemma AnsweredLonger(cs: Policies, run: seq<Label>, n: Peer, j: JobID, job: Job, c: nat, e: nat, hi: nat)
    requires c < e <= hi <= |run| && Answered(cs, run[..e], n, j, job, c, e)
    ensures Answered(cs, run, n, j, job, c, hi)
  {
    hide At;
    var p, d :| c < p < d < e && AnsweredAt(cs, run[..e], n, j, job, c, p, d);
    AtPrefix(cs, run[..e], run, d);
    assert AnsweredAt(cs, run, n, j, job, c, p, d);
  }

  lemma ReportedLonger(cs: Policies, run: seq<Label>, n: Peer, id: KeyID, c: nat, e: nat, hi: nat)
    requires c < e <= hi <= |run| && AllReported(cs, run[..e], n, id, c, e)
    ensures AllReported(cs, run, n, id, c, hi)
  {
    hide At, Answered;
    AtPrefix(cs, run[..e], run, c);
    var acks := At(cs, run, c).nodes[n].store.live.acks;
    forall j | j in acks && KeyOf(acks[j]) == id ensures Answered(cs, run, n, j, acks[j], c, hi) {
      AnsweredLonger(cs, run, n, j, acks[j], c, e, hi);
    }
  }

  lemma PassedLonger(cs: Policies, run: seq<Label>, n: Peer, id: KeyID, r: Record, k: nat, e: nat, hi: nat)
    requires k < e <= hi <= |run| && n in cs && Passed(cs, run[..e], n, id, r, k, e)
    ensures Passed(cs, run, n, id, r, k, hi)
  {
    hide At, HasRoom, TransferOf, MaySend, Interrupts;
    var m, o, d :| k < m < o < d < e && PassedAt(cs, run[..e], n, id, r, k, m, o, d);
    AtPrefix(cs, run[..e], run, m);
    AtPrefix(cs, run[..e], run, d);
    assert PassedAt(cs, run, n, id, r, k, m, o, d);
  }

  lemma VisitLonger(cs: Policies, run: seq<Label>, n: Peer, id: KeyID, k: nat, e: nat, hi: nat)
    requires k <= e <= hi <= |run| && n in cs && Visits(cs, run[..e], n, id, k, e)
    ensures Visits(cs, run, n, id, k, hi)
  {
    hide At, Passed, NeedsSend;
    AtPrefix(cs, run[..e], run, k);
    var r := At(cs, run, k).nodes[n].store.live.keys[id];
    if NeedsSend(r) {
      if Overtaken(cs, run[..e], n, id, k, e) {
        var x :| k < x <= e && SettledAt(cs, run[..e], n, id, x);
        AtPrefix(cs, run[..e], run, x);
        assert SettledAt(cs, run, n, id, x);
      } else {
        PassedLonger(cs, run, n, id, r, k, e, hi);
      }
    }
  }

  /** A step of a run is one of every longer run. */
  lemma StepsLonger(cs: Policies, run: seq<Label>, n: Peer, id: KeyID, lo: nat, c: nat, e: nat, hi: nat)
    requires lo <= c <= e <= hi <= |run| && n in cs && Steps(cs, run[..e], n, id, c, e)
    ensures Steps(cs, run, n, id, lo, hi)
  {
    hide At, AllReported, Visits;
    var b :| c <= b < e && AllReported(cs, run[..e], n, id, b, e) && VisitsAfter(cs, run[..e], n, id, b, e);
    ReportedLonger(cs, run, n, id, b, e, hi);
    AtPrefix(cs, run[..e], run, b);
    if Serves(At(cs, run, b), n) && id in At(cs, run, b).nodes[n].store.live.keys {
      var k :| b < k <= e && Visits(cs, run[..e], n, id, k, e);
      VisitLonger(cs, run, n, id, k, e, hi);
    }
    assert VisitsAfter(cs, run, n, id, b, hi);
  }

  /** Rounds of worker steps whose calls go through are rounds in the sense of the progress theorem. */
  lemma RoundsCount(cs: Policies, envs: map<Peer, Env>, run: seq<Label>, id: KeyID, cuts: seq<nat>)
    requires ValidPolicies(cs) && envs.Keys <= cs.Keys && WorkerRounds(cs, envs, run, id, cuts)
    ensures Rounds(cs, envs.Keys, run, id, cuts)
  {
    hide ValidPolicies, StepDone, CallsGoThrough, Steps;
    forall k, n | 0 < k < |cuts| && n in envs ensures Steps(cs, run, n, id, cuts[k - 1], cuts[k]) {
      assert WorkerSteps(cs, envs[n], run, n, id, cuts[k - 1], cuts[k]);
      var c, e :| cuts[k - 1] <= c < e <= cuts[k] && StepDone(cs, envs[n], run[..e], n, c)
        && CallsGoThrough(cs, envs[n], run[..e], n, id, c);
      StepCounts(cs, envs[n], run[..e], n, id, c);
      StepsLonger(cs, run, n, id, cuts[k - 1], c, e, cuts[k]);
    }
  }

  /** In every run: a source record whose node is at most h hops from the target is ready once every worker on the
      routes from there took 2h whole steps, round by round, whose calls about the key went through, provided the
      key is not voided anywhere. */
  lemma WorkersMakeReady(cs: Policies, a: Association, hops: Hops, envs: map<Peer, Env>, run: seq<Label>,
        cuts: seq<nat>, src: Peer, id: KeyID, h: nat)
    requires Wired(cs, a, hops) && envs.Keys == hops.Keys && |cuts| == 2 * h + 1
    requires WorkerRounds(cs, envs, run, id, cuts)
    requires Has(At(cs, run, cuts[0]), src, id) && src in hops && hops[src] <= h
    requires Rec(At(cs, run, cuts[0]), src, id).role == Source && Rec(At(cs, run, cuts[0]), src, id).pair == a
    requires NotVoided(At(cs, run, cuts[2 * h]), id)
    ensures Has(At(cs, run, cuts[2 * h]), src, id) && Rec(At(cs, run, cuts[2 * h]), src, id).ready
  {
    WiredValid(cs, a, hops);
    RoundsCount(cs, envs, run, id, cuts);
    SourceBecomesReady(cs, a, hops, run, cuts, src, id, h);
  }
}
