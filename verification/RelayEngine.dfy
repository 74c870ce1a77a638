/** The engine of one node: every operation edits a working copy and commits it to the journal before any
    effect is visible. Each method is proved against the handler it carries out. */
module RelayEngine {
  import opened Core
  import opened Uuid
  import opened Peering
  import opened Etsi020
  import opened RelayState
  import opened RelayInvariant
  import opened RelayHandlers
  import opened RelayDraft

  /** The error of a check made before the transaction, or else the transaction's. */
  function Reported(guard: Result<()>, verdict: Result<()>): Result<()> {
    if guard.Err? then guard else verdict
  }

  function Passed<A>(r: Result<A>): Result<()> {
    match r case Ok(_) => Ok(()) case Err(e) => Err(e)
  }

  class Engine {
    const c: Policy
    var s: State
    var disk: State
    var broken: bool

    function Store(): Durable
      reads this
    {
      Durable(s, disk, broken)
    }

    ghost predicate Valid()
      reads this
    {
      c.Valid() && Inv(c, s) && Inv(c, disk) && (!broken ==> disk == s)
    }

    /** Opens a node with what its journal holds, or with an empty state, and commits it once more. */
    constructor (c: Policy, journal: Option<State>, f: Fault)
      requires c.Valid() && (journal.Some? ==> Inv(c, journal.value))
      ensures this.c == c && Valid()
      ensures var d := if journal.Some? then journal.value else EMPTY;
        Store() == Transact(Durable(d, d, false), Ok(Working(d)), f)
    {
      var d := if journal.Some? then journal.value else EMPTY;
      EmptyInv(c);
      WorkingDelta(c, Internal, d);
      var store := Transact(Durable(d, d, false), Ok(Working(d)), f);
      this.c := c;
      s, disk, broken := store.live, store.disk, store.broken;
    }

    /** Saves a finished working copy; it becomes the live state only when the save succeeds. */
    method Commit(w: Draft, f: Fault) returns (r: Result<()>)
      requires Valid() && !broken && Inv(c, w.View())
      modifies this
      ensures Valid()
      ensures Store() == Transact(old(Store()), Ok(w.View()), f)
      ensures r == Verdict(old(Store()), Ok(w.View()), f)
    {
      var next := w.View();
      match f {
        case Saves => disk, s := next, next;
        case FailsOld => broken := true;
        case FailsNew => disk, broken := next, true;
      }
      return if f == Saves then Ok(()) else Err(Error.Journal);
    }

    method StoreKey(k: Key, now: Time, f: Fault) returns (r: Result<()>)
      requires Valid()
      modifies this
      ensures Valid()
      ensures var guard := StoreGuard(c, k, now); var body := StoreBody(c, Working(old(s)), k);
        Store() == Transact(old(Store()), if guard.Err? then Err(guard.error) else body, f)
        && r == Reported(guard, Verdict(old(Store()), body, f))
    {
      if !k.Valid(now) {
        return Err(Invalid);
      }
      if k.pair !in c.allowed || !c.Local(k.pair.master) || c.Local(k.pair.slave) {
        return Err(Unauthorized);
      }
      if broken {
        return Err(Error.Journal);
      }
      var w := new Draft(s);
      if k.id in w.keys {
        return Err(Duplicate);
      }
      if |w.keys| >= c.capacity {
        return Err(Capacity);
      }
      var candidates := w.NextCandidates(c, k.pair.slave, "");
      if |candidates| == 0 {
        return Err(Unavailable);
      }
      w.Add(k.id, SourceRecord(k, candidates));
      StoreMoves(c, s, k, now);
      r := Commit(w, f);
    }

    method Accept(peer: Peer, t: Transfer, now: Time, f: Fault) returns (r: Result<()>)
      requires Valid()
      modifies this
      ensures Valid()
      ensures var outcome := RelayState.Accept(c, old(s), peer, t, now);
        Store() == Transact(old(Store()), outcome, f)
        && r == Reported(Passed(AcceptGuard(c, peer, t)), Verdict(old(Store()), outcome, f))
    {
      var p := ValidateTransfer(t);
      if p.Err? {
        return Err(p.error);
      }
      var a := p.value;
      if peer !in c.cfg.peers || !c.cfg.peers[peer].incoming || t.callback != c.CallbackOf(peer) {
        return Err(Unauthorized);
      }
      if a !in c.allowed || c.Local(a.master) {
        return Err(Unauthorized);
      }
      assert AcceptGuard(c, peer, t) == Ok(a);
      if broken {
        return Err(Error.Journal);
      }
      WorkingDelta(c, FromTransfer(peer, t), s);
      hide Inv, Delta, AcceptKeys, AcceptCheck, AcceptGuard;
      var w := new Draft(s);
      var checked := CheckTransfer(w, peer, a, t);
      if checked.Err? {
        return Err(checked.error);
      }
      var applied := AcceptAll(w, peer, a, t, now);
      if applied.Err? {
        return Err(applied.error);
      }
      AcceptMoves(c, s, peer, t, now);
      r := Commit(w, f);
    }

    /** The read-only pass: every known key of the batch is this peer's, identical, and the rest fit. */
    method CheckTransfer(w: Draft, peer: Peer, a: Association, t: Transfer) returns (r: Result<()>)
      ensures r == var n := AcceptCheck(w.View(), peer, a, t, 0, 0);
        if n.Err? then Err(n.error) else if |w.keys| + n.value > c.capacity then Err(Capacity) else Ok(())
    {
      var news, i := 0, 0;
      while i < |t.keys|
        invariant i <= |t.keys|
        invariant AcceptCheck(w.View(), peer, a, t, i, news) == AcceptCheck(w.View(), peer, a, t, 0, 0)
      {
        var k := t.keys[i];
        if k.id in w.keys {
          var r := w.keys[k.id];
          if r.sender != peer || r.pair != a {
            return Err(Unauthorized);
          }
          if !r.unknown && r.digest != Some(Digest(k, a, t.optional)) {
            return Err(Duplicate);
          }
        } else {
          news := news + 1;
        }
        i := i + 1;
      }
      return if |w.keys| + news > c.capacity then Err(Capacity) else Ok(());
    }

    /** The editing pass; a key without a candidate refuses the whole batch. */
    method AcceptAll(w: Draft, peer: Peer, a: Association, t: Transfer, now: Time) returns (r: Result<()>)
      requires c.Valid() && Inv(c, w.View()) && w.serial > 0
      requires AcceptGuard(c, peer, t) == Ok(a) && AcceptCheck(w.View(), peer, a, t, 0, 0).Ok?
      modifies w
      ensures r == Passed(AcceptKeys(c, old(w.View()), peer, a, t, 0, now))
      ensures r.Ok? ==> w.View() == AcceptKeys(c, old(w.View()), peer, a, t, 0, now).value
    {
      GuardAdmits(c, peer, a, t);
      AcceptChecked(w.View(), peer, a, t, 0, 0);
      var i := 0;
      while i < |t.keys|
        invariant i <= |t.keys| && Inv(c, w.View()) && KnownFrom(w.View(), peer, a, t)
        invariant AcceptKeys(c, w.View(), peer, a, t, i, now) == AcceptKeys(c, old(w.View()), peer, a, t, 0, now)
      {
        var k := t.keys[i];
        ghost var before := w.View();
        InvOneEach(c, before);
        if k.id in w.keys {
          AcceptKnownMoves(c, t, w.serial - 1, before, peer, k.id, now);
          ReplyKnown(w, peer, k.id, now);
          KnownKept(c, w.serial - 1, before, w.View(), peer, a, t);
        } else {
          var ok := AddReceived(w, peer, a, t, k, now);
          if !ok {
            return Err(Unavailable);
          }
          AcceptNewMoves(c, w.serial - 1, before, peer, a, t, i, now);
          KnownKept(c, w.serial - 1, before, w.View(), peer, a, t);
        }
        i := i + 1;
      }
      return Ok(());
    }

    /** A repeated transfer regenerates its result, after expiring the key if it is due. */
    method ReplyKnown(w: Draft, peer: Peer, id: KeyID, now: Time)
      requires Inv(c, w.View()) && id in w.keys && peer != ""
      modifies w
      ensures w.View() == AcceptKnown(old(w.View()), peer, id, now)
    {
      InvOneEach(c, w.View());
      assert RecInv(c, id, w.keys[id]) && id != "";
      if !w.keys[id].voiding && w.keys[id].expires <= now {
        w.StartVoid(id, peer);
        WithoutOneEach(old(w.acks), id);
      }
      if w.keys[id].voiding {
        w.FinishVoid(id);
      } else if w.keys[id].ready {
        w.Enqueue(peer, id, w.keys[id].pair, Relayed);
      }
    }

    method AddReceived(w: Draft, peer: Peer, a: Association, t: Transfer, k: WireKey, now: Time) returns (ok: bool)
      requires OneEach(w.acks) && k.id != "" && peer != ""
      modifies w
      ensures ok == AcceptNew(c, old(w.View()), peer, a, t, k, now).Ok?
      ensures ok ==> w.View() == AcceptNew(c, old(w.View()), peer, a, t, k, now).value
    {
      if c.Local(a.slave) {
        w.Enqueue(peer, k.id, a, Relayed);
        w.Add(k.id, ReceivedRecord(Target, peer, a, t, k, now).(ready := true));
      } else {
        var candidates := w.NextCandidates(c, a.slave, peer);
        if |candidates| == 0 {
          return false;
        }
        w.Add(k.id, ReceivedRecord(Relay, peer, a, t, k, now).(candidates := candidates));
      }
      return true;
    }

    method Acknowledge(peer: Peer, acks: seq<Ack>, now: Time, f: Fault) returns (r: Result<()>)
      requires Valid()
      modifies this
      ensures Valid()
      ensures var outcome := RelayState.Acknowledge(c, old(s), peer, acks, now);
        Store() == Transact(old(Store()), outcome, f)
        && r == Reported(AckGuard(c, peer, acks), Verdict(old(Store()), outcome, f))
    {
      if peer !in c.cfg.peers {
        return Err(Unauthorized);
      }
      var valid := ValidateAcks(acks);
      if valid.Err? {
        return valid;
      }
      if broken {
        return Err(Error.Journal);
      }
      var w := new Draft(s);
      AcksHaveOneTarget(acks);
      var ok := CheckAcks(w, peer, acks);
      if !ok {
        return Err(Unauthorized);
      }
      AckChecked(w.View(), peer, acks, 0, 0);
      WorkingDelta(c, Internal, s);
      ApplyAcks(w, peer, acks, now);
      AcknowledgeMoves(c, s, peer, acks, now);
      r := Commit(w, f);
    }

    /** Every report is about a key exchanged with this peer; `relayed` only from where the key was sent. */
    method CheckAcks(w: Draft, peer: Peer, acks: seq<Ack>) returns (ok: bool)
      requires forall n :: 0 <= n < |acks| ==> |acks[n].targets| == 1
      ensures AckCheck(w.View(), peer, acks, 0, 0) == if ok then Ok(()) else Err(Unauthorized)
    {
      var i := 0;
      while i < |acks|
        invariant i <= |acks|
        invariant AckCheck(w.View(), peer, acks, i, 0) == AckCheck(w.View(), peer, acks, 0, 0)
      {
        var j := 0;
        while j < |acks[i].ids|
          invariant j <= |acks[i].ids|
          invariant AckCheck(w.View(), peer, acks, i, j) == AckCheck(w.View(), peer, acks, 0, 0)
        {
          var id := acks[i].ids[j];
          if id !in w.keys {
            return false;
          }
          var r := w.keys[id];
          if r.pair.master != acks[i].initiator || r.pair.slave != acks[i].targets[0]
            || (r.next != peer && !(r.voiding && r.sender == peer)) {
            return false;
          }
          if acks[i].status == Relayed && (!r.sent || peer != r.next) {
            return false;
          }
          j := j + 1;
        }
        i := i + 1;
      }
      return true;
    }

    method ApplyAcks(w: Draft, peer: Peer, acks: seq<Ack>, now: Time)
      requires Inv(c, w.View()) && w.serial > 0 && AllMayAck(w.View(), peer, acks)
      modifies w
      ensures w.View() == AckKeys(old(w.View()), peer, acks, 0, 0, now)
    {
      hide Inv, AllMayAck, AckKey;
      var i := 0;
      while i < |acks|
        invariant i <= |acks| && Inv(c, w.View()) && AllMayAck(w.View(), peer, acks)
        invariant AckKeys(w.View(), peer, acks, i, 0, now) == AckKeys(old(w.View()), peer, acks, 0, 0, now)
      {
        var j := 0;
        while j < |acks[i].ids|
          invariant j <= |acks[i].ids| && Inv(c, w.View()) && AllMayAck(w.View(), peer, acks)
          invariant AckKeys(w.View(), peer, acks, i, j, now) == AckKeys(old(w.View()), peer, acks, 0, 0, now)
        {
          AckStepMoves(c, w.serial - 1, w.View(), peer, acks, i, j, now);
          ApplyAck(w, peer, acks[i].status, acks[i].ids[j], now);
          j := j + 1;
        }
        i := i + 1;
      }
    }

    method ApplyAck(w: Draft, peer: Peer, st: Status, id: KeyID, now: Time)
      requires Inv(c, w.View()) && id in w.keys
      modifies w
      ensures w.View() == AckKey(old(w.View()), peer, st, id, now)
    {
      InvOneEach(c, w.View());
      WithoutOneEach(w.acks, id);
      NoBlanks(c, w.View(), id);
      hide Inv, OneEach, AckVoiding, AckRelayed;
      if !w.keys[id].voiding && w.keys[id].expires <= now {
        w.StartVoid(id, "");
      }
      if w.keys[id].voiding {
        NoteVoid(w, peer, st, id);
      } else if st == Relayed {
        NoteRelayed(w, id);
      } else {
        w.StartVoid(id, "");
        w.FinishVoid(id);
      }
    }

    /** A neighbour's verdict on a key being voided. */
    method NoteVoid(w: Draft, peer: Peer, st: Status, id: KeyID)
      requires id in w.keys && OneEach(w.acks) && id != "" && "" !in w.keys[id].voidRequests
      modifies w
      ensures w.View() == AckVoiding(old(w.View()), peer, st, id)
    {
      hide OneEach;
      if st == Voided || st == NotPresent || st == FailedToVoid {
        var r := w.keys[id];
        w.keys := w.keys[id := r.(voidPending := r.voidPending - {peer}, voidFailed := r.voidFailed
          || st == FailedToVoid)];
        w.FinishVoid(id);
      }
    }

    /** The next hop has the key: it is ready, and the result goes on to the sender. */
    method NoteRelayed(w: Draft, id: KeyID)
      requires id in w.keys && OneEach(w.acks) && id != ""
      modifies w
      ensures w.View() == AckRelayed(old(w.View()), id)
    {
      hide OneEach;
      var r := w.keys[id].(ready := true);
      if r.role == Relay {
        r := r.(material := []);
      }
      w.keys := w.keys[id := r];
      w.Enqueue(r.sender, id, r.pair, Relayed);
    }

    method VoidKeysOf(peer: Peer, v: Void, now: Time, f: Fault) returns (r: Result<()>)
      requires Valid()
      modifies this
      ensures Valid()
      ensures var outcome := VoidRequest(c, old(s), peer, v, now);
        Store() == Transact(old(Store()), outcome, f)
        && r == Reported(Passed(VoidGuard(c, peer, v)), Verdict(old(Store()), outcome, f))
    {
      var p := ValidateVoid(v);
      if p.Err? {
        return Err(p.error);
      }
      var a := p.value;
      if peer !in c.cfg.peers || v.callback != c.CallbackOf(peer) {
        return Err(Unauthorized);
      }
      if a !in c.allowed {
        return Err(Unauthorized);
      }
      if broken {
        return Err(Error.Journal);
      }
      VoidGuardFacts(c, peer, a, v);
      var w := new Draft(s);
      WorkingDelta(c, Internal, s);
      var edited := EditVoid(w, peer, a, v, now);
      if edited.Err? {
        return Err(edited.error);
      }
      VoidRequestMoves(c, s, peer, v, now);
      r := Commit(w, f);
    }

    /** The request's effect on the working copy: all keys named, or all exchanged with the peer for the pair. */
    method EditVoid(w: Draft, peer: Peer, a: Association, v: Void, now: Time) returns (r: Result<()>)
      requires Inv(c, w.View()) && w.serial > 0 && peer in c.cfg.peers && peer != "" && a in c.allowed
      requires v.targets != [] && a == Association(v.initiator, v.targets[0]) && "" !in v.ids
      modifies w
      ensures r == Passed(VoidBody(c, old(w.View()), peer, a, v, now))
      ensures r.Ok? ==> w.View() == VoidBody(c, old(w.View()), peer, a, v, now).value
    {
      var ids := v.ids;
      if |ids| == 0 {
        ids := FindInvolved(w, peer, a);
      }
      if |ids| == 0 {
        NoteNothing(w, peer, a);
        return Ok(());
      }
      var checked := CheckVoid(w, c.cfg.peers[peer].incoming, peer, a, ids);
      if checked.Err? {
        return checked;
      }
      InvolvedKnown(w.View(), peer, a, w.order);
      VoidChecked(w.View(), c.cfg.peers[peer].incoming, peer, a, ids, 0, 0);
      VoidableIDs(w.View(), peer, a, v, ids);
      VoidEach(w, peer, a, v, ids, now);
      return Ok(());
    }

    method FindInvolved(w: Draft, peer: Peer, a: Association) returns (ids: seq<KeyID>)
      ensures ids == Involved(w.View(), peer, a, w.order)
    {
      ids := [];
      for i := 0 to |w.order|
        invariant ids + Involved(w.View(), peer, a, w.order[i..]) == Involved(w.View(), peer, a, w.order)
      {
        var id := w.order[i];
        assert w.order[i..][1..] == w.order[i + 1..];
        if id in w.keys && w.keys[id].pair == a && (w.keys[id].sender == peer || w.keys[id].next == peer) {
          ids := ids + [id];
        }
      }
    }

    method NoteNothing(w: Draft, peer: Peer, a: Association)
      modifies w
      ensures w.View() == VoidNothing(old(w.View()), peer, a)
    {
      var left := w.acks.Keys;
      while left != {}
        invariant left <= w.acks.Keys && w.View() == old(w.View())
        invariant forall j :: j in w.acks && j !in left && w.acks[j].peer == peer && w.acks[j].ack.ids == [] ==>
          w.acks[j].ack.initiator != a.master || w.acks[j].ack.targets != [a.slave]
        decreases left
      {
        var j :| j in left;
        var job := w.acks[j];
        if job.peer == peer && |job.ack.ids| == 0 && job.ack.initiator == a.master && job.ack.targets == [a.slave] {
          assert NothingMatched(w.acks, peer, a);
          return;
        }
        left := left - {j};
      }
      w.acks := w.acks[JobID(w.serial, "", peer) := Job(peer, Ack([], NotPresent, a.master, [a.slave]), 0)];
    }

    method CheckVoid(w: Draft, incoming: bool, peer: Peer, a: Association, ids: seq<KeyID>) returns (r: Result<()>)
      ensures r == var n := VoidCheck(w.View(), incoming, peer, a, ids, 0, 0);
        if n.Err? then Err(n.error) else if |w.keys| + n.value > c.capacity then Err(Capacity) else Ok(())
    {
      var news, i := 0, 0;
      while i < |ids|
        invariant i <= |ids|
        invariant VoidCheck(w.View(), incoming, peer, a, ids, i, news) ==
          VoidCheck(w.View(), incoming, peer, a, ids, 0, 0)
      {
        if ids[i] !in w.keys {
          if !incoming {
            return Err(Unauthorized);
          }
          news := news + 1;
        } else {
          var r := w.keys[ids[i]];
          if r.pair != a || (r.sender != peer && r.next != peer) {
            return Err(Unauthorized);
          }
        }
        i := i + 1;
      }
      return if |w.keys| + news > c.capacity then Err(Capacity) else Ok(());
    }

    method VoidEach(w: Draft, peer: Peer, a: Association, v: Void, ids: seq<KeyID>, now: Time)
      requires Inv(c, w.View()) && w.serial > 0 && peer in c.cfg.peers && peer != "" && a in c.allowed
      requires v.targets != [] && a == Association(v.initiator, v.targets[0]) && Voidable(w.View(), peer, a, v, ids)
      modifies w
      ensures w.View() == VoidKeys(c, old(w.View()), peer, a, ids, 0, now)
    {
      hide Inv, Delta, VoidKey;
      var i := 0;
      while i < |ids|
        invariant i <= |ids| && Inv(c, w.View()) && Voidable(w.View(), peer, a, v, ids)
        invariant VoidKeys(c, w.View(), peer, a, ids, i, now) == VoidKeys(c, old(w.View()), peer, a, ids, 0, now)
      {
        ghost var before := w.View();
        VoidKeyMoves(c, w.serial - 1, before, peer, a, v, ids, i, now);
        VoidOne(w, peer, a, ids[i], now);
        VoidableKept(w.serial - 1, before, w.View(), peer, a, v, ids);
        i := i + 1;
      }
    }

    method VoidOne(w: Draft, peer: Peer, a: Association, id: KeyID, now: Time)
      requires Inv(c, w.View()) && id != "" && peer != ""
      modifies w
      ensures w.View() == VoidKey(c, old(w.View()), peer, a, id, now)
    {
      InvOneEach(c, w.View());
      WithoutOneEach(w.acks, id);
      if id in w.keys { NoBlanks(c, w.View(), id); }
      hide Inv, OneEach;
      if id !in w.keys {
        w.Add(id, Tombstone(c, peer, a, now));
      }
      w.StartVoid(id, peer);
      w.FinishVoid(id);
    }

    /** Reserves the first n available keys in insertion order, all or none. */
    method ReserveKeys(a: Association, n: int, now: Time, f: Fault) returns (r: Result<Reservation>)
      requires Valid()
      modifies this
      ensures Valid()
      ensures var outcome := Reserve(c, old(s), a, n, now);
        Store() == Transact(old(Store()), Passing(outcome), f)
        && (r.Ok? <==> 1 <= n <= MAX_BATCH && Verdict(old(Store()), Passing(outcome), f).Ok?)
        && (r.Ok? ==> r.value == outcome.value.1)
    {
      if n < 1 || n > MAX_BATCH {
        return Err(Invalid);
      }
      if broken {
        return Err(Error.Journal);
      }
      var w := new Draft(s);
      if a !in c.allowed || !c.Local(a.master) {
        return Err(Unauthorized);
      }
      var ids := FirstAvailable(w, a, n, now);
      if |ids| != n {
        return Err(Unavailable);
      }
      MarkAll(w, ids);
      ReserveMoves(c, s, a, n, now);
      var saved := Commit(w, f);
      if saved.Err? {
        return Err(saved.error);
      }
      return Ok(Reservation(w.serial, ids));
    }

    method MarkAll(w: Draft, ids: seq<KeyID>)
      requires forall i :: 0 <= i < |ids| ==> ids[i] in w.keys
      modifies w
      ensures w.View() == Tokened(old(w.View()), ids, w.serial)
    {
      ghost var before := w.View();
      TokenedNone(before);
      for i := 0 to |ids|
        invariant w.View() == Tokened(before, ids[..i], w.serial)
      {
        TokenedOne(before, ids[..i], ids[i], w.serial);
        w.keys := w.keys[ids[i] := w.keys[ids[i]].(token := Some(w.serial))];
        assert ids[..i + 1] == ids[..i] + [ids[i]];
      }
      assert ids[..|ids|] == ids;
    }

    method FirstAvailable(w: Draft, a: Association, n: nat, now: Time) returns (ids: seq<KeyID>)
      requires n > 0
      ensures var all := AvailableIDs(w.View(), a, w.order, now); ids == if |all| < n then all else all[..n]
      ensures forall i :: 0 <= i < |ids| ==> ids[i] in w.keys
    {
      hide AvailableIDs, Usable;
      ids := [];
      AvailableNone(w.View(), a, now);
      assert w.order[0..] == w.order && w.order[|w.order|..] == [];
      for i := 0 to |w.order|
        invariant ids + AvailableIDs(w.View(), a, w.order[i..], now) == AvailableIDs(w.View(), a, w.order, now)
        invariant |ids| < n && forall k :: 0 <= k < |ids| ==> ids[k] in w.keys
      {
        var id := w.order[i];
        AvailableNext(w.View(), a, w.order, i, now);
        if id in w.keys && w.keys[id].pair == a && w.keys[id].role == Source && w.keys[id].token == None
          && Usable(w.keys[id], now) {
          ids := ids + [id];
          if |ids| == n {
            return;
          }
        }
      }
    }

    /** Releases the keys under a token, once. */
    method ConsumeReservation(a: Association, token: Option<nat>, now: Time, f: Fault)
          returns (r: Result<seq<Delivery>>)
      requires Valid()
      modifies this
      ensures Valid()
      ensures var outcome := RelayState.ConsumeReservation(old(s), a, token, now);
        Store() == Transact(old(Store()), Passing(outcome), f)
        && (r.Ok? <==> token.Some? && Verdict(old(Store()), Passing(outcome), f).Ok?)
        && (r.Ok? ==> r.value == outcome.value.1)
    {
      if token == None {
        return Err(Invalid);
      }
      if broken {
        return Err(Error.Journal);
      }
      var w := new Draft(s);
      ghost var before := w.View();
      CollectedExist(before, a, token.value, 0, now);
      CollectDistinct(before, a, token.value, 0, now);
      var collected := CollectToken(w, a, token.value, now);
      if collected.Err? {
        return Err(collected.error);
      }
      var ids := collected.value;
      if |ids| == 0 {
        return Err(Unavailable);
      }
      var out := DeliverEach(w, ids);
      ConsumeReservationMoves(c, s, a, token, now);
      var saved := Commit(w, f);
      if saved.Err? {
        return Err(saved.error);
      }
      return Ok(out);
    }

    method CollectToken(w: Draft, a: Association, token: nat, now: Time) returns (r: Result<seq<KeyID>>)
      ensures r == Collect(w.View(), a, token, 0, now)
    {
      var ids := [];
      var i := 0;
      PrependNone(Collect(w.View(), a, token, 0, now));
      while i < |w.order|
        invariant i <= |w.order|
        invariant Collect(w.View(), a, token, 0, now) == Prepend(ids, Collect(w.View(), a, token, i, now))
      {
        var id := w.order[i];
        if id in w.keys && w.keys[id].token == Some(token) {
          if w.keys[id].pair != a || w.keys[id].role != Source {
            return Err(Unauthorized);
          }
          if !Usable(w.keys[id], now) {
            return Err(Unavailable);
          }
          PrependOne(ids, id, Collect(w.View(), a, token, i + 1, now));
          ids := ids + [id];
        }
        i := i + 1;
      }
      assert ids + [] == ids;
      return Ok(ids);
    }

    /** Releases target keys by identifier, all or none. */
    method ConsumePeerKeys(a: Association, ids: seq<KeyID>, now: Time, f: Fault) returns (r: Result<seq<Delivery>>)
      requires Valid()
      modifies this
      ensures Valid()
      ensures var outcome := ConsumePeer(c, old(s), a, ids, now);
        Store() == Transact(old(Store()), Passing(outcome), f)
        && (r.Ok? <==> PeerGuard(ids).Ok? && Verdict(old(Store()), Passing(outcome), f).Ok?)
        && (r.Ok? ==> r.value == outcome.value.1)
    {
      var ok := CheckIDs(ids);
      if !ok {
        return Err(Invalid);
      }
      if broken {
        return Err(Error.Journal);
      }
      var w := new Draft(s);
      if a !in c.allowed || !c.Local(a.slave) {
        return Err(Unauthorized);
      }
      var checked := CheckPeer(w, a, ids, now);
      if checked.Err? {
        return Err(checked.error);
      }
      PeerChecked(w.View(), a, ids, 0, now);
      var out := DeliverEach(w, ids);
      ConsumePeerMoves(c, s, a, ids, now);
      var saved := Commit(w, f);
      if saved.Err? {
        return Err(saved.error);
      }
      return Ok(out);
    }

    static method CheckIDs(ids: seq<KeyID>) returns (ok: bool)
      ensures ok == PeerGuard(ids).Ok?
    {
      if |ids| < 1 || |ids| > MAX_BATCH {
        return false;
      }
      var seen: set<KeyID> := {};
      for i := 0 to |ids|
        invariant seen == set j | 0 <= j < i :: ids[j]
        invariant Distinct(ids[..i])
        invariant forall j :: 0 <= j < i ==> ValidID(ids[j])
      {
        if !ValidID(ids[i]) || ids[i] in seen {
          return false;
        }
        seen := seen + {ids[i]};
      }
      assert ids[..|ids|] == ids;
      return true;
    }

    method CheckPeer(w: Draft, a: Association, ids: seq<KeyID>, now: Time) returns (r: Result<()>)
      ensures r == PeerCheck(w.View(), a, ids, 0, now)
    {
      var i := 0;
      while i < |ids|
        invariant i <= |ids| && PeerCheck(w.View(), a, ids, i, now) == PeerCheck(w.View(), a, ids, 0, now)
      {
        if ids[i] !in w.keys {
          return Err(Unavailable);
        }
        var k := w.keys[ids[i]];
        if k.pair != a || k.role != Target {
          return Err(Unauthorized);
        }
        if !Usable(k, now) {
          return Err(Unavailable);
        }
        i := i + 1;
      }
      return Ok(());
    }

    method InvalidateKey(id: KeyID, f: Fault) returns (r: Result<()>)
      requires Valid()
      modifies this
      ensures Valid()
      ensures var outcome := Invalidate(old(s), id);
        Store() == Transact(old(Store()), outcome, f) && r == Verdict(old(Store()), outcome, f)
    {
      if broken {
        return Err(Error.Journal);
      }
      var w := new Draft(s);
      if id !in w.keys {
        return Err(Unavailable);
      }
      InvOneEach(c, s);
      WithoutOneEach(s.acks, id);
      NoBlanks(c, s, id);
      w.StartVoid(id, "");
      w.FinishVoid(id);
      InvalidateMoves(c, s, id);
      r := Commit(w, f);
    }

    /** Counts the available keys, visiting the records in any order; a poisoned node shows none. */
    method CountAvailable(a: Association, now: Time) returns (n: nat)
      ensures n == if broken then 0 else Inventory(s, a, now)
    {
      n := 0;
      if broken {
        return;
      }
      var left := s.keys.Keys;
      ghost var done: set<KeyID> := {};
      while left != {}
        invariant left + done == s.keys.Keys && left !! done
        invariant n == |AvailableIn(s, a, done, now)|
        decreases left
      {
        var id :| id in left;
        AvailableOne(s, a, done, id, now);
        if s.keys[id].pair == a && s.keys[id].role == Source && s.keys[id].token == None && Usable(s.keys[id], now) {
          n := n + 1;
        }
        left, done := left - {id}, done + {id};
      }
      assert done == s.keys.Keys;
      assert AvailableIn(s, a, done, now) == set id | id in s.keys && Available(s, a, id, now);
    }

    /** The worker's sweep: voids every due record, visiting them in any order. */
    method ExpireDue(now: Time, f: Fault) returns (r: Result<()>)
      requires Valid()
      modifies this
      ensures Valid()
      ensures var outcome := Ok(Expire(Working(old(s)), now));
        Store() == Transact(old(Store()), outcome, f) && r == Verdict(old(Store()), outcome, f)
    {
      if broken {
        return Err(Error.Journal);
      }
      var w := new Draft(s);
      WorkingDelta(c, Internal, s);
      SweepDue(w, now);
      ExpireMoves(c, s, now);
      r := Commit(w, f);
    }

    method SweepDue(w: Draft, now: Time)
      requires Inv(c, w.View())
      modifies w
      ensures w.View() == Expire(old(w.View()), now)
    {
      ghost var before := w.View();
      InvOneEach(c, before);
      forall id | id in before.keys ensures id != "" && "" !in before.keys[id].voidRequests { NoBlanks(c, before, id); }
      SweptNone(before, now);
      hide Inv;
      var left := w.keys.Keys;
      ghost var done: set<KeyID> := {};
      while left != {}
        invariant left + done == before.keys.Keys && left !! done
        invariant w.View() == Swept(before, done, now)
        decreases left
      {
        var id :| id in left;
        SweptOne(before, done, id, now);
        SweptOneEach(before, done, now);
        if !w.keys[id].voiding && w.keys[id].expires <= now {
          w.StartVoid(id, "");
          SweptOneEach(before, done + {id}, now);
          OweNobody(w.View(), id, w.keys[id].pair, VoidStatus(w.keys[id]));
          w.FinishVoid(id);
        }
        left, done := left - {id}, done + {id};
      }
      assert done == before.keys.Keys;
      SweptAll(before, now);
    }

    // The worker's transactions on one record and on the outbox.

    /** The half of sending that commits the intent; the caller posts the key only when it succeeds. */
    method PersistSend(id: KeyID, peer: Peer, now: Time, f: Fault) returns (r: Result<()>)
      requires Valid() && (!broken ==> id in s.keys)
      requires !broken ==> if s.keys[id].sent then peer == s.keys[id].next else peer in s.keys[id].candidates
      modifies this
      ensures Valid()
      ensures !old(broken) ==>
        var outcome := CommitSend(Working(old(s)), id, peer, now);
        Store() == Transact(old(Store()), outcome, f) && r == Verdict(old(Store()), outcome, f)
      ensures old(broken) ==> r.Err? && Store() == old(Store())
    {
      hide Inv, Delta;
      if broken {
        return Err(Error.Journal);
      }
      var w := new Draft(s);
      var k := w.keys[id];
      if k.voiding || k.ready || k.expires <= now {
        return Err(Unavailable);
      }
      w.keys := w.keys[id := k.(next := peer, sent := true, retry := now + RETRY)];
      CommitSendMoves(c, s, id, peer, now);
      r := Commit(w, f);
    }

    method PersistDefer(id: KeyID, now: Time, f: Fault) returns (r: Result<()>)
      requires Valid() && (!broken ==> id in s.keys)
      modifies this
      ensures Valid()
      ensures !old(broken) ==>
        var outcome := Ok(Defer(Working(old(s)), id, now));
        Store() == Transact(old(Store()), outcome, f) && r == Verdict(old(Store()), outcome, f)
      ensures old(broken) ==> r.Err? && Store() == old(Store())
    {
      hide Inv, Delta;
      if broken {
        return Err(Error.Journal);
      }
      var w := new Draft(s);
      w.keys := w.keys[id := w.keys[id].(retry := now + RETRY)];
      DeferMoves(c, s, id, now);
      r := Commit(w, f);
    }

    /** After posting a result: drop it when the peer committed it, else try later; gone already is fine. */
    method FinishAck(j: JobID, ok: bool, now: Time, f: Fault) returns (r: Result<()>)
      requires Valid()
      modifies this
      ensures Valid()
      ensures var outcome := Ok(if ok then AckSent(Working(old(s)), j) else AckFailed(Working(old(s)), j, now));
        Store() == Transact(old(Store()), outcome, f) && r == Verdict(old(Store()), outcome, f)
    {
      if broken {
        return Err(Error.Journal);
      }
      var w := new Draft(s);
      if j in w.acks {
        if ok {
          w.acks := w.acks - {j};
        } else {
          w.acks := w.acks[j := w.acks[j].(retry := now + RETRY)];
        }
      }
      assert j !in s.acks ==> s.acks - {j} == s.acks;
      if ok { AckSentMoves(c, s, j); } else { AckFailedMoves(c, s, j, now); }
      r := Commit(w, f);
    }

    /** Copies the material out and clears it, key by key. */
    method DeliverEach(w: Draft, ids: seq<KeyID>) returns (out: seq<Delivery>)
      requires forall i :: 0 <= i < |ids| ==> ids[i] in w.keys
      requires Distinct(ids)
      modifies w
      ensures w.View() == DeliverAll(old(w.View()), ids) && out == Deliveries(old(w.View()), ids)
    {
      ghost var before := w.View();
      DeliverNone(before);
      out := [];
      for i := 0 to |ids|
        invariant w.View() == DeliverAll(before, ids[..i])
        invariant out == Deliveries(before, ids)[..i]
      {
        var r := w.keys[ids[i]];
        assert ids[i] !in ids[..i];
        out := out + [Delivery(ids[i], r.material)];
        w.keys := w.keys[ids[i] := r.(delivered := true, token := None, material := [])];
        assert ids[..i + 1] == ids[..i] + [ids[i]];
      }
      assert ids[..|ids|] == ids;
    }
  }

  function AvailableIn(s: State, a: Association, ids: set<KeyID>, now: Time): set<KeyID> {
    set id | id in ids && Available(s, a, id, now)
  }

  lemma AvailableOne(s: State, a: Association, ids: set<KeyID>, id: KeyID, now: Time)
    requires id !in ids
    ensures |AvailableIn(s, a, ids + {id}, now)| == |AvailableIn(s, a, ids, now)| + if Available(s, a, id, now) then 1
      else 0
  {
    assert AvailableIn(s, a, ids + {id}, now) == AvailableIn(s, a, ids, now) + if Available(s, a, id, now) then {id}
      else {};
  }

  /** The state while the sweep has visited `done`. */
  function Swept(s: State, done: set<KeyID>, now: Time): State {
    s.(keys := map id | id in s.keys :: if id in done && Due(s.keys[id], now) then Voiding(s.keys[id], "")
      else s.keys[id],
       acks := map j | j in s.acks && !(KeyOf(s.acks[j]) in s.keys && KeyOf(s.acks[j]) in done
         && Due(s.keys[KeyOf(s.acks[j])], now)) :: s.acks[j])
  }

  lemma SweptNone(s: State, now: Time)
    ensures Swept(s, {}, now) == s
  {
    assert Swept(s, {}, now).keys == s.keys && Swept(s, {}, now).acks == s.acks;
  }

  lemma SweptAll(s: State, now: Time)
    ensures Swept(s, s.keys.Keys, now) == Expire(s, now)
  {
    assert Swept(s, s.keys.Keys, now).keys == Expire(s, now).keys;
    assert Swept(s, s.keys.Keys, now).acks == Expire(s, now).acks;
  }

  lemma SweptOneEach(s: State, done: set<KeyID>, now: Time)
    requires OneEach(s.acks)
    ensures OneEach(Swept(s, done, now).acks)
  {
  }

  lemma SweptOneAcks(s: State, done: set<KeyID>, id: KeyID, now: Time)
    requires id in s.keys && id !in done
    ensures var t := Swept(s, done, now);
      Swept(s, done + {id}, now).acks == if Due(s.keys[id], now) then WithoutKey(t.acks, id) else t.acks
  {
    hide Voiding, Due;
  }

  lemma SweptOne(s: State, done: set<KeyID>, id: KeyID, now: Time)
    requires id in s.keys && id !in done
    ensures Swept(s, done, now).keys[id] == s.keys[id]
    ensures Swept(s, done + {id}, now) == if Due(s.keys[id], now) then StartVoid(Swept(s, done, now), id, "")
      else Swept(s, done, now)
  {
    var t, u := Swept(s, done, now), Swept(s, done + {id}, now);
    if Due(s.keys[id], now) {
      assert !s.keys[id].voiding;
      hide Voiding, Due;
      assert u.keys == StartVoid(t, id, "").keys;
      SweptOneAcks(s, done, id, now);
    } else {
      hide Voiding;
      assert u.keys == t.keys;
      SweptOneAcks(s, done, id, now);
    }
  }

  function Prepend(ids: seq<KeyID>, r: Result<seq<KeyID>>): Result<seq<KeyID>> {
    if r.Err? then r else Ok(ids + r.value)
  }

  lemma PrependNone(r: Result<seq<KeyID>>)
    ensures Prepend([], r) == r
  {
    if r.Ok? { assert [] + r.value == r.value; }
  }

  lemma PrependOne(ids: seq<KeyID>, id: KeyID, r: Result<seq<KeyID>>)
    ensures Prepend(ids, if r.Err? then r else Ok([id] + r.value)) == Prepend(ids + [id], r)
  {
    if r.Ok? { assert ids + ([id] + r.value) == ids + [id] + r.value; }
  }

  function Passing<A>(r: Result<(State, A)>): Result<State> {
    match r case Ok(v) => Ok(v.0) case Err(e) => Err(e)
  }

  lemma TokenedNone(s: State)
    ensures Tokened(s, [], s.serial) == s
  {
    assert Tokened(s, [], s.serial).keys == s.keys;
  }

  lemma TokenedOne(s: State, ids: seq<KeyID>, id: KeyID, token: nat)
    requires id in s.keys
    ensures var t := Tokened(s, ids, token);
      Tokened(s, ids + [id], token) == t.(keys := t.keys[id := t.keys[id].(token := Some(token))])
  {
    var t, u := Tokened(s, ids, token), Tokened(s, ids + [id], token);
    assert u.keys == t.keys[id := t.keys[id].(token := Some(token))];
  }

  lemma DeliverNone(s: State)
    ensures DeliverAll(s, []) == s
  {
    assert DeliverAll(s, []).keys == s.keys;
  }

  lemma AvailableNone(s: State, a: Association, now: Time)
    ensures AvailableIDs(s, a, [], now) == []
  {
  }

  lemma AvailableNext(s: State, a: Association, ids: seq<KeyID>, i: nat, now: Time)
    requires i < |ids|
    ensures AvailableIDs(s, a, ids[i..], now)
      == (if Available(s, a, ids[i], now) then [ids[i]] else []) + AvailableIDs(s, a, ids[i + 1..], now)
  {
    assert ids[i..][1..] == ids[i + 1..];
  }

  lemma NoBlanks(c: Policy, s: State, id: KeyID)
    requires Inv(c, s) && id in s.keys
    ensures id != "" && "" !in s.keys[id].voidRequests
  {
    assert RecInv(c, id, s.keys[id]);
  }

  lemma AckStepMoves(c: Policy, b: nat, s: State, peer: Peer, acks: seq<Ack>, i: nat, j: nat, now: Time)
    requires Inv(c, s) && b < s.serial && AllMayAck(s, peer, acks) && i < |acks| && j < |acks[i].ids|
    ensures acks[i].ids[j] in s.keys
    ensures var s' := AckKey(s, peer, acks[i].status, acks[i].ids[j], now); Inv(c, s') && AllMayAck(s', peer, acks)
  {
    var id := acks[i].ids[j];
    assert MayAck(s, peer, acks[i], id);
    AckKeyMoves(c, b, s, peer, acks, i, id, now);
    AllMayAckKept(b, s, AckKey(s, peer, acks[i].status, id, now), peer, acks);
  }
}
