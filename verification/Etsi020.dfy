/** Messages of the bounded asynchronous ETSI GS QKD 020 V1.1.1 profile. Key values are carried as
    bytes, so canonical base64 of a 256-bit key is the condition of having 32 bytes. */
module Etsi020 {
  import opened Core
  import opened Uuid

  type Extension = map<string, string>

  datatype WireKey = WireKey(id: KeyID, value: Bytes, ext: Extension)

  datatype Transfer = Transfer(
    keys: seq<WireKey>, initiator: string, targets: seq<string>, callback: string,
    mandatory: Extension, optional: Extension)

  datatype Status = Relayed | Failed | Voided | FailedToVoid | NotPresent

  datatype Ack = Ack(ids: seq<KeyID>, status: Status, initiator: string, targets: seq<string>)

  datatype Void = Void(ids: seq<KeyID>, initiator: string, targets: seq<string>, callback: string, all: bool)

  predicate SaeChar(c: char) {
    'A' <= c <= 'Z' || 'a' <= c <= 'z' || '0' <= c <= '9' || c in "._~:/?#[]@!$&'()*+,;=-"
  }

  predicate DecimalDigit(c: char) { '0' <= c <= '9' }

  predicate HexadecimalDigit(c: char) { DecimalDigit(c) || 'A' <= c <= 'F' || 'a' <= c <= 'f' }

  /** Unreserved and reserved characters of a URI, or percent-encoded ones. */
  predicate SaeText(s: string) {
    s == ""
    || (SaeChar(s[0]) && SaeText(s[1..]))
    || (s[0] == '%' && |s| >= 3 && HexadecimalDigit(s[1]) && HexadecimalDigit(s[2]) && SaeText(s[3..]))
  }

  predicate SaeID(s: string) { 1 <= |s| <= 64 && SaeText(s) }

  /** `E`, digits up to position k, an underscore there, and some text on one line. */
  predicate Named(s: string, k: nat) {
    && 1 < k < |s| - 1 && s[0] == 'E' && s[k] == '_' && '\n' !in s[k + 1..]
    && forall i :: 1 <= i < k ==> DecimalDigit(s[i])
  }

  predicate ExtensionName(s: string) { exists k :: 1 < k < |s| - 1 && Named(s, k) }

  predicate ValidExtension(e: Extension) { |e| <= 1024 && forall k :: k in e ==> ExtensionName(k) }

  /** One initiator and exactly one target other than it. */
  function Pair(initiator: string, targets: seq<string>): (r: Result<Association>)
    ensures r.Ok? ==> |targets| == 1 && r.value == Association(initiator, targets[0]) && initiator != targets[0]
  {
    if !SaeID(initiator) || targets == [] then Err(Invalid)
    else if exists i :: 0 <= i < |targets| && (!SaeID(targets[i]) || targets[i] == initiator) then Err(Invalid)
    else if |targets| != 1 then Err(Unsupported)
    else Ok(Association(initiator, targets[0]))
  }

  function KeyIDs(keys: seq<WireKey>): (r: seq<KeyID>)
    ensures |r| == |keys| && forall i :: 0 <= i < |keys| ==> r[i] == keys[i].id
  {
    seq(|keys|, i requires 0 <= i < |keys| => keys[i].id)
  }

  predicate ValidKey(k: WireKey) { ValidID(k.id) && |k.value| == KEY_BYTES && ValidExtension(k.ext) }

  /** A batch of 1 to 128 well-formed keys with distinct identifiers for one pair. */
  function TransferPair(t: Transfer): (r: Result<Association>)
    ensures r.Ok? ==> Distinct(KeyIDs(t.keys)) && forall i :: 0 <= i < |t.keys| ==> ValidKey(t.keys[i])
  {
    var a :- Pair(t.initiator, t.targets);
    if !(1 <= |t.keys| <= MAX_BATCH) || !ValidExtension(t.mandatory) || !ValidExtension(t.optional)
      || |t.callback| > 1024 then Err(Invalid)
    else if t.mandatory != map[] then Err(Unsupported)
    else if t.callback == "" then Err(Unsupported)
    else if !Distinct(KeyIDs(t.keys)) || exists i :: 0 <= i < |t.keys| && !ValidKey(t.keys[i]) then Err(Invalid)
    else Ok(a)
  }

  method ValidateTransfer(t: Transfer) returns (r: Result<Association>)
    ensures r == TransferPair(t)
  {
    hide ValidID, ValidExtension, Pair;
    var a :- Pair(t.initiator, t.targets);
    if !(1 <= |t.keys| <= MAX_BATCH) || !ValidExtension(t.mandatory) || !ValidExtension(t.optional)
      || |t.callback| > 1024 {
      return Err(Invalid);
    }
    if t.mandatory != map[] || t.callback == "" {
      return Err(Unsupported);
    }
    var seen: set<KeyID> := {};
    for i := 0 to |t.keys|
      invariant seen == set j | 0 <= j < i :: t.keys[j].id
      invariant Distinct(KeyIDs(t.keys)[..i])
      invariant forall j :: 0 <= j < i ==> ValidKey(t.keys[j])
    {
      var k := t.keys[i];
      if !ValidID(k.id) || k.id in seen || |k.value| != KEY_BYTES || !ValidExtension(k.ext) {
        assert KeyIDs(t.keys)[i] == k.id;
        assert k.id in seen ==> exists j :: 0 <= j < i && KeyIDs(t.keys)[j] == KeyIDs(t.keys)[i];
        return Err(Invalid);
      }
      seen := seen + {k.id};
    }
    assert KeyIDs(t.keys)[..|t.keys|] == KeyIDs(t.keys);
    return Ok(a);
  }

  function AckIDs(acks: seq<Ack>): seq<KeyID> {
    if acks == [] then [] else acks[0].ids + AckIDs(acks[1..])
  }

  predicate ValidAck(a: Ack) { Pair(a.initiator, a.targets).Ok? && |a.ids| <= 1024 }

  /** What `ValidateAcks` guarantees of a group it accepts: single pairs, and identifiers that are
      valid and distinct across the whole group. */
  predicate ValidAcks(acks: seq<Ack>) {
    && 1 <= |acks| <= 1024
    && (forall i :: 0 <= i < |acks| ==> ValidAck(acks[i]))
    && (forall i :: 0 <= i < |AckIDs(acks)| ==> ValidID(AckIDs(acks)[i]))
    && Distinct(AckIDs(acks))
  }

  lemma {:induction false} AckIDsAppend(acks: seq<Ack>, a: Ack)
    ensures AckIDs(acks + [a]) == AckIDs(acks) + a.ids
  {
    if acks == [] {
      assert [a][1..] == [];
      assert acks + [a] == [a];
    } else {
      AckIDsAppend(acks[1..], a);
      assert (acks + [a])[1..] == acks[1..] + [a];
      assert AckIDs(acks) + a.ids == acks[0].ids + (AckIDs(acks[1..]) + a.ids);
    }
  }

  lemma {:induction false} AckIDsPrefix(acks: seq<Ack>, i: nat)
    requires i <= |acks|
    ensures AckIDs(acks) == AckIDs(acks[..i]) + AckIDs(acks[i..])
  {
    if i == 0 {
      assert acks[..0] == [] && acks[0..] == acks;
    } else {
      var rest := acks[1..];
      AckIDsPrefix(rest, i - 1);
      assert rest[..i - 1] == acks[..i][1..];
      assert rest[i - 1..] == acks[i..];
      var few, more := AckIDs(rest[..i - 1]), AckIDs(acks[i..]);
      assert AckIDs(acks[..i]) == acks[0].ids + few;
      assert acks[0].ids + (few + more) == acks[0].ids + few + more;
    }
  }

  /** Valid identifiers, all different: what has been seen so far while scanning a group. */
  ghost predicate Scanned(ids: seq<KeyID>, seen: set<KeyID>) {
    && Distinct(ids)
    && (forall i :: 0 <= i < |ids| ==> ValidID(ids[i]))
    && (forall x :: x in seen <==> x in ids)
  }

  /** Extends the scan of `before` over one acknowledgement's identifiers. */
  method ScanIDs(ghost before: seq<KeyID>, ids: seq<KeyID>, already: set<KeyID>) returns (ok: bool, seen: set<KeyID>)
    requires Scanned(before, already)
    ensures ok ==> Scanned(before + ids, seen)
    ensures !ok ==> exists i :: 0 <= i < |ids| && (!ValidID(ids[i]) || ids[i] in before + ids[..i])
  {
    seen := already;
    assert before + ids[..0] == before;
    for j := 0 to |ids|
      invariant Scanned(before + ids[..j], seen)
    {
      if !ValidID(ids[j]) || ids[j] in seen {
        return false, seen;
      }
      seen := seen + {ids[j]};
      assert before + ids[..j + 1] == (before + ids[..j]) + [ids[j]];
    }
    assert ids[..|ids|] == ids;
    return true, seen;
  }

  lemma BadGroup(acks: seq<Ack>, i: nat, j: nat)
    requires i < |acks| && j < |acks[i].ids|
    requires !ValidID(acks[i].ids[j]) || acks[i].ids[j] in AckIDs(acks[..i]) + acks[i].ids[..j]
    ensures !GoodStart(acks, i + 1)
  {
    var before, all := AckIDs(acks[..i]), AckIDs(acks[..i + 1]);
    AckIDsAppend(acks[..i], acks[i]);
    assert acks[..i] + [acks[i]] == acks[..i + 1];
    assert all == before + acks[i].ids;
    var n := |before| + j;
    assert all[n] == acks[i].ids[j];
    assert all[..n] == before + acks[i].ids[..j];
    if acks[i].ids[j] in all[..n] {
      var k :| 0 <= k < n && all[..n][k] == all[n];
      assert all[k] == all[n];
    }
  }

  /** Whether the first acknowledgements of a group are in order. */
  predicate GoodStart(acks: seq<Ack>, i: nat)
    requires i <= |acks|
  {
    && (forall j :: 0 <= j < i ==> ValidAck(acks[j]))
    && (forall j :: 0 <= j < |AckIDs(acks[..i])| ==> ValidID(AckIDs(acks[..i])[j]))
    && Distinct(AckIDs(acks[..i]))
  }

  /** What the first acknowledgement out of order, from position i on, is refused for: its pair, if that is what
      is wrong, else its identifiers. */
  function FirstFault(acks: seq<Ack>, i: nat): Error
    requires i <= |acks|
    decreases |acks| - i
  {
    if i == |acks| then Invalid
    else if GoodStart(acks, i + 1) then FirstFault(acks, i + 1)
    else
      var pair := Pair(acks[i].initiator, acks[i].targets);
      if pair.Err? then pair.error else Invalid
  }

  function AcksVerdict(acks: seq<Ack>): (r: Result<()>)
    ensures r.Ok? <==> ValidAcks(acks)
  {
    if ValidAcks(acks) then Ok(())
    else if !(1 <= |acks| <= 1024) then Err(Invalid)
    else Err(FirstFault(acks, 0))
  }

  /** A group in order up to i but not one further is refused for its i-th acknowledgement. */
  lemma {:induction false} FaultAt(acks: seq<Ack>, i: nat, k: nat)
    requires k <= i < |acks| && GoodStart(acks, i) && !GoodStart(acks, i + 1)
    ensures FirstFault(acks, k) == FirstFault(acks, i)
    decreases i - k
  {
    hide GoodStart, Pair;
    if k < i {
      StartShorter(acks, k + 1, i);
      FaultAt(acks, i, k + 1);
    }
  }

  lemma StartShorter(acks: seq<Ack>, k: nat, i: nat)
    requires k <= i <= |acks| && GoodStart(acks, i)
    ensures GoodStart(acks, k)
  {
    AckIDsPrefix(acks[..i], k);
    assert acks[..i][..k] == acks[..k];
    var few, all := AckIDs(acks[..k]), AckIDs(acks[..i]);
    assert all == few + AckIDs(acks[..i][k..]);
    forall j | 0 <= j < |few| ensures ValidID(few[j]) { assert all[j] == few[j]; }
    forall j, m | 0 <= j < m < |few| ensures few[j] != few[m] { assert all[j] == few[j] && all[m] == few[m]; }
  }

  lemma WholeStart(acks: seq<Ack>)
    requires 1 <= |acks| <= 1024
    ensures ValidAcks(acks) <==> GoodStart(acks, |acks|)
    ensures ValidAcks(acks) ==> AcksVerdict(acks) == Ok(())
  {
    assert acks[..|acks|] == acks;
  }

  lemma FaultVerdict(acks: seq<Ack>, i: nat)
    requires 1 <= |acks| <= 1024 && i < |acks| && GoodStart(acks, i) && !GoodStart(acks, i + 1)
    ensures AcksVerdict(acks) == Err(FirstFault(acks, i))
  {
    WholeStart(acks);
    if GoodStart(acks, |acks|) { StartShorter(acks, i + 1, |acks|); }
    FaultAt(acks, i, 0);
  }

  lemma EmptyStart(acks: seq<Ack>)
    ensures GoodStart(acks, 0) && Scanned(AckIDs(acks[..0]), {})
  {
  }

  lemma NextStart(acks: seq<Ack>, i: nat, seen: set<KeyID>)
    requires i < |acks| && GoodStart(acks, i) && ValidAck(acks[i]) && Scanned(AckIDs(acks[..i + 1]), seen)
    ensures GoodStart(acks, i + 1)
  {
    hide ValidAck, AckIDs, ValidID;
  }

  lemma BadAck(acks: seq<Ack>, i: nat)
    requires i < |acks| && !ValidAck(acks[i])
    ensures !GoodStart(acks, i + 1)
  {
  }

  lemma SizeVerdict(acks: seq<Ack>)
    requires !(1 <= |acks| <= 1024)
    ensures AcksVerdict(acks) == Err(Invalid)
  {
  }

  method ValidateAcks(acks: seq<Ack>) returns (r: Result<()>)
    ensures r == AcksVerdict(acks)
  {
    hide ValidID, Pair, AcksVerdict, GoodStart, Scanned, AckIDs;
    if !(1 <= |acks| <= 1024) {
      SizeVerdict(acks);
      return Err(Invalid);
    }
    var seen: set<KeyID> := {};
    EmptyStart(acks);
    for i := 0 to |acks|
      invariant GoodStart(acks, i)
      invariant Scanned(AckIDs(acks[..i]), seen)
    {
      var pair := Pair(acks[i].initiator, acks[i].targets);
      if !ValidAck(acks[i]) { BadAck(acks, i); }
      if pair.Err? {
        FaultVerdict(acks, i);
        return Err(pair.error);
      }
      if |acks[i].ids| > 1024 {
        FaultVerdict(acks, i);
        return Err(Invalid);
      }
      AckIDsAppend(acks[..i], acks[i]);
      assert acks[..i] + [acks[i]] == acks[..i + 1];
      var ok: bool;
      ok, seen := ScanIDs(AckIDs(acks[..i]), acks[i].ids, seen);
      if !ok {
        var j :| 0 <= j < |acks[i].ids|
          && (!ValidID(acks[i].ids[j]) || acks[i].ids[j] in AckIDs(acks[..i]) + acks[i].ids[..j]);
        BadGroup(acks, i, j);
        FaultVerdict(acks, i);
        return Err(Invalid);
      }
      NextStart(acks, i, seen);
    }
    WholeStart(acks);
    return Ok(());
  }

  /** Distinct valid identifiers of one pair; an empty list must ask for all keys explicitly. */
  function VoidPair(v: Void): (r: Result<Association>)
    ensures r.Ok? ==> Distinct(v.ids) && forall i :: 0 <= i < |v.ids| ==> ValidID(v.ids[i])
  {
    var a :- Pair(v.initiator, v.targets);
    if |v.ids| > 1024 || |v.callback| > 1024 then Err(Invalid)
    else if v.ids == [] && !v.all then Err(Unconfirmed)
    else if v.callback == "" then Err(Unsupported)
    else if !Distinct(v.ids) || exists i :: 0 <= i < |v.ids| && !ValidID(v.ids[i]) then Err(Invalid)
    else Ok(a)
  }

  method ValidateVoid(v: Void) returns (r: Result<Association>)
    ensures r == VoidPair(v)
  {
    hide ValidID, Pair;
    var a :- Pair(v.initiator, v.targets);
    if |v.ids| > 1024 || |v.callback| > 1024 {
      return Err(Invalid);
    }
    if |v.ids| == 0 && !v.all {
      return Err(Unconfirmed);
    }
    if v.callback == "" {
      return Err(Unsupported);
    }
    var seen: set<KeyID> := {};
    for i := 0 to |v.ids|
      invariant seen == set j | 0 <= j < i :: v.ids[j]
      invariant Distinct(v.ids[..i])
      invariant forall j :: 0 <= j < i ==> ValidID(v.ids[j])
    {
      if !ValidID(v.ids[i]) || v.ids[i] in seen {
        return Err(Invalid);
      }
      seen := seen + {v.ids[i]};
    }
    assert v.ids[..|v.ids|] == v.ids;
    return Ok(a);
  }

  // The rules, written out.

  /** One well-formed initiator and one well-formed target other than it; several such targets are unsupported, and
      anything else is invalid. */
  lemma PairRules(initiator: string, targets: seq<string>)
    ensures Pair(initiator, targets).Ok? <==>
      SaeID(initiator) && |targets| == 1 && SaeID(targets[0]) && initiator != targets[0]
    ensures var o := Pair(initiator, targets);
      var many := SaeID(initiator) && |targets| > 1
        && forall i :: 0 <= i < |targets| ==> SaeID(targets[i]) && targets[i] != initiator;
      o.Err? ==> o.error == if many then Unsupported else Invalid
  {
    hide SaeID;
  }

  /** At most 1024 extensions, each named by an E, digits, an underscore and some text. */
  predicate ExtensionsOk(e: Extension) { |e| <= 1024 && forall k :: k in e ==> ExtensionName(k) }

  /** A transfer is well formed when it is for one pair, has 1 to 128 keys of 256 bits with valid identifiers, none
      twice, nothing mandatory that is not understood, and an address to answer to. Of several faults the pair's is
      reported, then sizes and extensions, then what is unsupported, then the keys'. */
  lemma TransferRules(t: Transfer)
    ensures TransferPair(t).Ok? <==>
      && Pair(t.initiator, t.targets).Ok? && 1 <= |t.keys| <= 128 && t.mandatory == map[]
      && ExtensionsOk(t.optional) && 1 <= |t.callback| <= 1024
      && (forall i, j :: 0 <= i < j < |t.keys| ==> t.keys[i].id != t.keys[j].id)
      && forall i :: 0 <= i < |t.keys| ==>
           ValidID(t.keys[i].id) && |t.keys[i].value| == 32 && ExtensionsOk(t.keys[i].ext)
    ensures var o, pair := TransferPair(t), Pair(t.initiator, t.targets);
      var sized := 1 <= |t.keys| <= 128 && ExtensionsOk(t.mandatory) && ExtensionsOk(t.optional)
        && |t.callback| <= 1024;
      var supported := t.mandatory == map[] && t.callback != "";
      o.Err? ==>
        o.error == if pair.Err? then pair.error else if sized && !supported then Unsupported else Invalid
  {
    hide Pair, ValidID, ExtensionName;
    KeysDistinct(t.keys);
    forall i | 0 <= i < |t.keys| ensures ValidKey(t.keys[i]) <==>
      ValidID(t.keys[i].id) && |t.keys[i].value| == 32 && ExtensionsOk(t.keys[i].ext) {
    }
    hide ValidKey, ExtensionsOk;
  }

  lemma KeysDistinct(keys: seq<WireKey>)
    ensures Distinct(KeyIDs(keys)) <==> forall i, j :: 0 <= i < j < |keys| ==> keys[i].id != keys[j].id
  {
    if Distinct(KeyIDs(keys)) {
      forall i, j | 0 <= i < j < |keys| ensures keys[i].id != keys[j].id {
        assert KeyIDs(keys)[i] == keys[i].id && KeyIDs(keys)[j] == keys[j].id;
      }
    }
  }

  /** A group of results is well formed when it has 1 to 1024 results, each for one pair with at most 1024 keys, and no
      identifier is invalid or occurs twice in the whole group. Otherwise the first result with which the group is not
      well formed any more decides: its pair's fault is reported, if it has one. */
  lemma AcksRules(acks: seq<Ack>)
    ensures AcksVerdict(acks).Ok? <==>
      && 1 <= |acks| <= 1024
      && (forall i :: 0 <= i < |acks| ==> Pair(acks[i].initiator, acks[i].targets).Ok? && |acks[i].ids| <= 1024)
      && (forall x :: x in AckIDs(acks) ==> ValidID(x)) && Distinct(AckIDs(acks))
    ensures AcksVerdict(acks).Err? ==>
      if !(1 <= |acks| <= 1024) then AcksVerdict(acks).error == Invalid
      else exists i ::
        && 0 <= i < |acks| && FirstBad(acks, i)
        && var pair := Pair(acks[i].initiator, acks[i].targets);
           AcksVerdict(acks).error == if pair.Err? then pair.error else Invalid
  {
    hide Pair, ValidID, Distinct;
    assert (forall x :: x in AckIDs(acks) ==> ValidID(x)) <==>
      forall i :: 0 <= i < |AckIDs(acks)| ==> ValidID(AckIDs(acks)[i]);
    if 1 <= |acks| <= 1024 && AcksVerdict(acks).Err? {
      var i := FaultFound(acks, 0);
      assert FirstBad(acks, i);
    }
  }

  /** The group is well formed up to its i-th result, and not with it. */
  predicate FirstBad(acks: seq<Ack>, i: nat)
    requires i < |acks|
  {
    (i > 0 ==> ValidAcks(acks[..i])) && !ValidAcks(acks[..i + 1])
  }

  lemma StartValid(acks: seq<Ack>, i: nat)
    requires 0 < i <= |acks| <= 1024
    ensures GoodStart(acks, i) <==> ValidAcks(acks[..i])
  {
    assert forall j :: 0 <= j < i ==> acks[..i][j] == acks[j];
  }

  lemma {:induction false} FaultFound(acks: seq<Ack>, k: nat) returns (i: nat)
    requires 1 <= |acks| <= 1024 && k <= |acks| && (k > 0 ==> GoodStart(acks, k)) && !ValidAcks(acks)
    ensures k <= i < |acks| && FirstBad(acks, i)
    ensures FirstFault(acks, k) == (if Pair(acks[i].initiator, acks[i].targets).Err?
      then Pair(acks[i].initiator, acks[i].targets).error else Invalid)
    decreases |acks| - k
  {
    hide Pair, GoodStart, ValidAcks;
    WholeStart(acks);
    if k > 0 { StartValid(acks, k); }
    StartValid(acks, k + 1);
    if GoodStart(acks, k + 1) { i := FaultFound(acks, k + 1); } else { i := k; }
  }

  /** A request to void is well formed when it is for one pair, names at most 1024 valid keys, none twice, or asks for
      all of them in so many words, and has an address to answer to. */
  lemma VoidRules(v: Void)
    ensures VoidPair(v).Ok? <==>
      && Pair(v.initiator, v.targets).Ok? && |v.ids| <= 1024 && 1 <= |v.callback| <= 1024
      && (v.ids == [] ==> v.all) && Distinct(v.ids) && forall i :: 0 <= i < |v.ids| ==> ValidID(v.ids[i])
    ensures var o, pair, sized := VoidPair(v), Pair(v.initiator, v.targets), |v.ids| <= 1024 && |v.callback| <= 1024;
      o.Err? ==>
        o.error == if pair.Err? then pair.error else if !sized then Invalid
          else if v.ids == [] && !v.all then Unconfirmed
          else if v.callback == "" then Unsupported else Invalid
  {
    hide Pair, ValidID;
  }
}
