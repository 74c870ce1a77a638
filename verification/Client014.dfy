/** The client of the upstream key provider: what it asks and which replies it takes. A reply's key values
    stand for their strictly decoded bytes, absent when the text was not canonical base64. */
module Client014 {
  import opened Core
  import opened Uuid
  import opened Counting
  import opened IngestState

  datatype WireValue = WireValue(id: string, value: Option<Bytes>)

  /** Complete, every key well formed and full length, none twice, and none that was not asked for. */
  predicate ReplyGood(container: seq<WireValue>, count: nat, ids: Option<seq<KeyID>>) {
    && |container| == count
    && (forall i :: 0 <= i < |container| ==> ValueGood(container[i], ids))
    && forall i, j :: 0 <= i < j < |container| ==> container[i].id != container[j].id
  }

  predicate ValueGood(v: WireValue, ids: Option<seq<KeyID>>) {
    ValidID(v.id) && v.value.Some? && |v.value.value| == KEY_BYTES && (ids.Some? ==> v.id in ids.value)
  }

  function DeliveryOf(v: WireValue): Delivery { Delivery(v.id, if v.value.Some? then v.value.value else []) }

  function Contents(container: seq<WireValue>): (r: seq<Delivery>)
    ensures |r| == |container| && forall i :: 0 <= i < |container| ==> r[i] == DeliveryOf(container[i])
  {
    seq(|container|, i requires 0 <= i < |container| => DeliveryOf(container[i]))
  }

  function Validated(container: seq<WireValue>, count: nat, ids: Option<seq<KeyID>>): Result<seq<Delivery>> {
    if ReplyGood(container, count, ids) then Ok(Contents(container)) else Err(Unavailable)
  }

  method ValidateKeys(container: seq<WireValue>, count: nat, ids: Option<seq<KeyID>>) returns (r: Result<seq<Delivery>>)
    ensures r == Validated(container, count, ids)
    ensures r.Ok? <==>
      && |container| == count
      && (forall i, j :: 0 <= i < j < |container| ==> container[i].id != container[j].id)
      && forall i :: 0 <= i < |container| ==>
           && ValidID(container[i].id) && container[i].value.Some? && |container[i].value.value| == 32
           && (ids.Some? ==> container[i].id in ids.value)
    ensures r.Ok? ==> |r.value| == count && forall i :: 0 <= i < count ==>
      r.value[i] == Delivery(container[i].id, container[i].value.value)
    ensures r.Err? ==> r.error == Unavailable
  {
    if |container| != count {
      return Err(Unavailable);
    }
    var requested := {};
    if ids.Some? {
      for i := 0 to |ids.value|
        invariant requested == Elements(ids.value[..i])
      {
        assert ids.value[..i + 1] == ids.value[..i] + [ids.value[i]];
        requested := requested + {ids.value[i]};
      }
      assert ids.value[..|ids.value|] == ids.value;
    }
    var seen, out := {}, [];
    for i := 0 to |container|
      invariant seen == set k | 0 <= k < i :: container[k].id
      invariant out == Contents(container[..i])
      invariant forall k :: 0 <= k < i ==> ValueGood(container[k], ids)
      invariant forall j, k :: 0 <= j < k < i ==> container[j].id != container[k].id
    {
      var v := container[i];
      if v.value.None? || !ValidID(v.id) || v.id in seen || |v.value.value| != KEY_BYTES
        || (ids.Some? && v.id !in requested) {
        assert v.id in seen ==> exists k :: 0 <= k < i && container[k].id == v.id;
        assert !ReplyGood(container, count, ids) by { if v.id !in seen { assert !ValueGood(v, ids); } }
        return Err(Unavailable);
      }
      seen := seen + {v.id};
      out := out + [Delivery(v.id, v.value.value)];
    }
    assert container[..|container|] == container;
    return Ok(out);
  }

  /** One allocation: nothing is sent unless the site is the master's and the count is allowed; the reply
      must hold exactly that many keys. */
  method Allocate(role: SiteRole, n: int, answer: Result<seq<WireValue>>) returns (sent: bool, r: Result<seq<Delivery>>)
    ensures sent <==> role == MasterSite && 1 <= n <= 128
    ensures !sent ==> r == Err(if role != MasterSite then Unauthorized else Error.Invalid)
    ensures sent && answer.Err? ==> r == Err(answer.error)
    ensures sent && answer.Ok? ==> r == Validated(answer.value, n, None)
    ensures r.Ok? ==> answer.Ok? && |r.value| == n && Distincts(r.value)
  {
    if role != MasterSite {
      return false, Err(Unauthorized);
    }
    if n < 1 || n > MAX_BATCH {
      return false, Err(Error.Invalid);
    }
    if answer.Err? {
      return true, Err(answer.error);
    }
    sent := true;
    r := ValidateKeys(answer.value, n, None);
  }

  /** One retrieval: what is sent names exactly the keys asked for, each once; an accepted reply is a
      permutation of them. */
  method Retrieve(role: SiteRole, ids: seq<KeyID>, answer: Result<seq<WireValue>>)
        returns (sent: Option<seq<KeyID>>, r: Result<seq<Delivery>>)
    ensures sent == if role == SlaveSite && 1 <= |ids| <= 128 && Distinct(ids)
      && (forall i :: 0 <= i < |ids| ==> ValidID(ids[i])) then Some(ids) else None
    ensures sent.None? ==> r == Err(if role != SlaveSite then Unauthorized else Error.Invalid)
    ensures sent.Some? && answer.Err? ==> r == Err(answer.error)
    ensures sent.Some? && answer.Ok? ==> r == Validated(answer.value, |ids|, Some(ids))
    ensures r.Ok? ==> multiset(IDs(r.value)) == multiset(ids)
  {
    if role != SlaveSite {
      return None, Err(Unauthorized);
    }
    if |ids| < 1 || |ids| > MAX_BATCH {
      return None, Err(Error.Invalid);
    }
    var body, seen := [], {};
    for i := 0 to |ids|
      invariant body == ids[..i] && seen == Elements(ids[..i]) && Distinct(ids[..i])
      invariant forall k :: 0 <= k < i ==> ValidID(ids[k])
    {
      if !ValidID(ids[i]) || ids[i] in seen {
        return None, Err(Error.Invalid);
      }
      assert ids[..i + 1] == ids[..i] + [ids[i]];
      seen := seen + {ids[i]};
      body := body + [ids[i]];
    }
    assert ids[..|ids|] == ids;
    if answer.Err? {
      return Some(body), Err(answer.error);
    }
    sent := Some(body);
    r := ValidateKeys(answer.value, |ids|, Some(ids));
    if r.Ok? { PermutesRequest(answer.value, ids); }
  }

  /** Right length, no repetition, every key asked for: then every key asked for is there. */
  lemma PermutesRequest(container: seq<WireValue>, ids: seq<KeyID>)
    requires Distinct(ids) && ReplyGood(container, |ids|, Some(ids))
    ensures multiset(IDs(Contents(container))) == multiset(ids)
    ensures forall i :: 0 <= i < |ids| ==> exists k :: 0 <= k < |container| && container[k].id == ids[i]
  {
    var got := IDs(Contents(container));
    forall i | 0 <= i < |got| ensures got[i] in ids { assert ValueGood(container[i], Some(ids)); }
    SameLengthCovers(ids, got);
    forall i | 0 <= i < |ids| ensures exists k :: 0 <= k < |container| && container[k].id == ids[i] {
      assert ids[i] in got;
      var k :| 0 <= k < |got| && got[k] == ids[i];
      assert container[k].id == ids[i];
    }
  }
}
