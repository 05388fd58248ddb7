/** The capability handle table (capability.go). */
module Capabilities {
  import opened JsonValues

  type Digest = seq<int>

  /** The keyed digest, and the text form of a digest prefix with its decoder. */
  datatype Coding = Coding(sign: string -> Digest, text: Digest -> string, read: string -> Digest)

  const DIGEST_BYTES := 32
  const FIRST_BYTES := 12
  const MORE_BYTES := 4

  ghost predicate FaithfulCoding(coding: Coding) {
    && (forall payload {:trigger coding.sign(payload)} :: |coding.sign(payload)| == DIGEST_BYTES)
    && (forall digest {:trigger coding.text(digest)} :: coding.read(coding.text(digest)) == digest)
  }

  /** A capability: its handle, and everything else it says as the encoded payload. */
  datatype Capability = Capability(id: string, payload: string)

  /** Each issued handle with the payload it was issued for. */
  type Handles = map<string, string>

  predicate Length(bytes: nat) {
    bytes in {12, 16, 20, 24, 28, 32}
  }

  function IdAt(coding: Coding, payload: string, bytes: nat): string {
    if bytes <= |coding.sign(payload)| then "cap_" + coding.text(coding.sign(payload)[..bytes]) else ""
  }

  /** The shortest handle from this length on that is free or already this payload's; None is the panic. */
  function Probe(coding: Coding, handles: Handles, payload: string, bytes: nat): Option<string>
    decreases DIGEST_BYTES + MORE_BYTES - bytes
  {
    if bytes > DIGEST_BYTES then None
    else
      var id := IdAt(coding, payload, bytes);
      if id in handles && handles[id] != payload then Probe(coding, handles, payload, bytes + MORE_BYTES)
      else Some(id)
  }

  function Encode(coding: Coding, handles: Handles, payload: string): (Handles, Option<string>) {
    match Probe(coding, handles, payload, FIRST_BYTES)
    case None => (handles, None)
    case Some(id) => (handles[id := payload], Some(id))
  }

  function DecodeId(handles: Handles, id: string): Option<Capability> {
    if "cap_" <= id && id in handles then Some(Capability(id, handles[id])) else None
  }

  predicate Names(kept: seq<Capability>, id: string) {
    exists i :: 0 <= i < |kept| && kept[i].id == id
  }

  function Retain(handles: Handles, kept: seq<Capability>): Handles {
    map id | id in handles && Names(kept, id) :: handles[id]
  }

  ghost predicate IsHandleOf(coding: Coding, id: string, payload: string) {
    exists bytes: nat :: Length(bytes) && id == IdAt(coding, payload, bytes)
  }

  ghost predicate TableSound(coding: Coding, handles: Handles) {
    forall id :: id in handles ==> IsHandleOf(coding, id, handles[id])
  }

  /** No handle changes its meaning while it stays in the table. */
  ghost predicate NeverRebound(handles: Handles, later: Handles) {
    forall id :: id in handles && id in later ==> later[id] == handles[id]
  }

  lemma {:induction false} ProbeFindsHandle(coding: Coding, handles: Handles, payload: string, bytes: nat)
    requires Length(bytes) || bytes == DIGEST_BYTES + MORE_BYTES
    requires Probe(coding, handles, payload, bytes).Some?
    ensures var id := Probe(coding, handles, payload, bytes).value;
            IsHandleOf(coding, id, payload) && (id in handles ==> handles[id] == payload)
    decreases DIGEST_BYTES + MORE_BYTES - bytes
  {
    var id := IdAt(coding, payload, bytes);
    if id in handles && handles[id] != payload {
      ProbeFindsHandle(coding, handles, payload, bytes + MORE_BYTES);
    }
  }

  /** The handle of this length: a prefix and so many bytes of the payload's digest. */
  ghost predicate HandleOfLength(coding: Coding, payload: string, bytes: nat, id: string) {
    bytes <= |coding.sign(payload)| && id == "cap_" + coding.text(coding.sign(payload)[..bytes])
  }

  ghost predicate TakenByOther(coding: Coding, handles: Handles, payload: string, bytes: nat) {
    exists id :: HandleOfLength(coding, payload, bytes, id) && id in handles && handles[id] != payload
  }

  /** What is issued is the shortest of the handles of 12, 16, 20, 24, 28 and 32 bytes that does not name another
      payload; there is none exactly if each of them does. */
  ghost predicate Shortest(coding: Coding, handles: Handles, payload: string, from: nat, found: Option<string>) {
    match found
    case Some(id) =>
      exists bytes: nat ::
        && bytes in {12, 16, 20, 24, 28, 32} && from <= bytes && HandleOfLength(coding, payload, bytes, id)
        && (id in handles ==> handles[id] == payload)
        && forall less: nat :: less in {12, 16, 20, 24, 28, 32} && from <= less < bytes ==>
             TakenByOther(coding, handles, payload, less)
    case None =>
      forall bytes: nat :: bytes in {12, 16, 20, 24, 28, 32} && from <= bytes ==>
        TakenByOther(coding, handles, payload, bytes)
  }

  lemma {:induction false} ProbeIsShortest(coding: Coding, handles: Handles, payload: string, bytes: nat)
    requires FaithfulCoding(coding) && (Length(bytes) || bytes == DIGEST_BYTES + MORE_BYTES)
    ensures Shortest(coding, handles, payload, bytes, Probe(coding, handles, payload, bytes))
    decreases DIGEST_BYTES + MORE_BYTES - bytes
  {
    assert |coding.sign(payload)| == 32;
    if bytes <= DIGEST_BYTES {
      var id := IdAt(coding, payload, bytes);
      assert HandleOfLength(coding, payload, bytes, id);
      if id in handles && handles[id] != payload {
        ProbeIsShortest(coding, handles, payload, bytes + MORE_BYTES);
        assert TakenByOther(coding, handles, payload, bytes);
      }
    }
  }

  /** A handle decodes to what it was issued for, and asking again for the same payload changes nothing. */
  lemma {:induction false} IssuedHandleDecodes(coding: Coding, handles: Handles, payload: string)
    requires FaithfulCoding(coding) && Encode(coding, handles, payload).1.Some?
    ensures var (later, id) := Encode(coding, handles, payload);
            && DecodeId(later, id.value) == Some(Capability(id.value, payload))
            && Shortest(coding, handles, payload, 12, id)
            && Encode(coding, later, payload) == (later, id)
  {
    var (later, id) := Encode(coding, handles, payload);
    ProbeIsShortest(coding, handles, payload, FIRST_BYTES);
    ProbeAgain(coding, handles, payload, FIRST_BYTES, id.value);
    assert later[id.value := payload] == later;
  }

  lemma {:induction false} ProbeAgain(coding: Coding, handles: Handles, payload: string, bytes: nat, id: string)
    requires Probe(coding, handles, payload, bytes) == Some(id)
    ensures Probe(coding, handles[id := payload], payload, bytes) == Some(id)
    decreases DIGEST_BYTES + MORE_BYTES - bytes
  {
    var candidate := IdAt(coding, payload, bytes);
    if candidate in handles && handles[candidate] != payload {
      if candidate != id {
        ProbeAgain(coding, handles, payload, bytes + MORE_BYTES, id);
      }
    }
  }

  lemma {:induction false} EncodeKeepsTable(coding: Coding, handles: Handles, payload: string)
    requires TableSound(coding, handles)
    ensures var (later, id) := Encode(coding, handles, payload);
            && TableSound(coding, later) && NeverRebound(handles, later) && handles.Keys <= later.Keys
            && (id.Some? ==> id.value in later && later[id.value] == payload)
  {
    if Probe(coding, handles, payload, FIRST_BYTES).Some? {
      ProbeFindsHandle(coding, handles, payload, FIRST_BYTES);
    }
  }

  lemma {:induction false} PanicExhaustsLengths(coding: Coding, handles: Handles, payload: string, bytes: nat)
    requires Length(bytes) && Probe(coding, handles, payload, bytes).None?
    ensures var full := IdAt(coding, payload, DIGEST_BYTES);
            full in handles && handles[full] != payload
    decreases DIGEST_BYTES - bytes
  {
    if bytes < DIGEST_BYTES {
      PanicExhaustsLengths(coding, handles, payload, bytes + MORE_BYTES);
    }
  }

  lemma {:induction false} SameIdSamePrefix(coding: Coding, a: string, aBytes: nat, b: string, bBytes: nat)
    requires FaithfulCoding(coding) && aBytes <= DIGEST_BYTES && bBytes <= DIGEST_BYTES
    requires IdAt(coding, a, aBytes) == IdAt(coding, b, bBytes)
    ensures |coding.sign(a)| == |coding.sign(b)| == DIGEST_BYTES
    ensures coding.sign(a)[..aBytes] == coding.sign(b)[..bBytes]
  {
    assert |coding.sign(a)| == |coding.sign(b)| == DIGEST_BYTES;
    var left, right := coding.text(coding.sign(a)[..aBytes]), coding.text(coding.sign(b)[..bBytes]);
    assert ("cap_" + left)[4..] == left && ("cap_" + right)[4..] == right;
  }

  lemma {:induction false} FullHandleSharesDigest(coding: Coding, payload: string, other: string)
    requires FaithfulCoding(coding) && IsHandleOf(coding, IdAt(coding, payload, DIGEST_BYTES), other)
    ensures coding.sign(other) == coding.sign(payload)
  {
    var bytes: nat :| Length(bytes) && IdAt(coding, payload, DIGEST_BYTES) == IdAt(coding, other, bytes);
    SameIdSamePrefix(coding, payload, DIGEST_BYTES, other, bytes);
    assert |coding.sign(payload)[..DIGEST_BYTES]| == |coding.sign(other)[..bytes]|;
    assert coding.sign(payload)[..DIGEST_BYTES] == coding.sign(payload);
    assert coding.sign(other)[..bytes] == coding.sign(other);
  }

  /** The panic is reached only when two different payloads share their whole digest. */
  lemma {:induction false} PanicMeansSharedDigest(coding: Coding, handles: Handles, payload: string)
    requires FaithfulCoding(coding) && TableSound(coding, handles)
    requires Encode(coding, handles, payload).1.None?
    ensures exists other :: other in handles.Values && other != payload && coding.sign(other) == coding.sign(payload)
  {
    PanicExhaustsLengths(coding, handles, payload, FIRST_BYTES);
    var full := IdAt(coding, payload, DIGEST_BYTES);
    assert IsHandleOf(coding, full, handles[full]);
    FullHandleSharesDigest(coding, payload, handles[full]);
    assert handles[full] in handles.Values;
  }

  lemma {:induction false} RetainKeepsTable(coding: Coding, handles: Handles, kept: seq<Capability>)
    requires TableSound(coding, handles)
    ensures TableSound(coding, Retain(handles, kept)) && NeverRebound(handles, Retain(handles, kept))
    ensures forall id :: id in Retain(handles, kept) <==> id in handles && exists c :: c in kept && c.id == id
  {
    forall id ensures Names(kept, id) <==> exists c :: c in kept && c.id == id {
      if c :| c in kept && c.id == id {
        var i :| 0 <= i < |kept| && kept[i] == c;
        assert kept[i].id == id;
      }
    }
  }

  /** In a sound table exactly the stored handles decode. */
  lemma {:induction false} DecodesExactlyStored(coding: Coding, handles: Handles, id: string)
    requires FaithfulCoding(coding) && TableSound(coding, handles)
    ensures DecodeId(handles, id) == if id in handles then Some(Capability(id, handles[id])) else None
  {
    if id in handles {
      var bytes: nat :| Length(bytes) && id == IdAt(coding, handles[id], bytes);
      assert |coding.sign(handles[id])| == 32;
    }
  }

  class CapabilityCodec {
    const coding: Coding
    var handles: Handles

    ghost predicate Valid()
      reads this
    {
      FaithfulCoding(coding) && TableSound(coding, handles)
    }

    constructor (coding: Coding)
      requires FaithfulCoding(coding)
      ensures Valid() && handles == map[] && this.coding == coding
    {
      this.coding := coding;
      handles := map[];
    }

    /** None stands for the panic after the last length. */
    method EncodeCapability(payload: string) returns (id: Option<string>)
      requires Valid()
      modifies this`handles
      ensures Valid() && NeverRebound(old(handles), handles)
      ensures (handles, id) == Encode(coding, old(handles), payload)
    {
      EncodeKeepsTable(coding, handles, payload);
      id := FreeId(payload);
      if id.Some? {
        handles := handles[id.value := payload];
      }
    }

    method FreeId(payload: string) returns (id: Option<string>)
      requires Valid()
      ensures id == Probe(coding, handles, payload, FIRST_BYTES)
      ensures Shortest(coding, handles, payload, 12, id)
    {
      ProbeIsShortest(coding, handles, payload, FIRST_BYTES);
      var digest := coding.sign(payload);
      var bytes := FIRST_BYTES;
      while bytes <= |digest|
        invariant Length(bytes) || bytes == DIGEST_BYTES + MORE_BYTES
        invariant Probe(coding, handles, payload, FIRST_BYTES) == Probe(coding, handles, payload, bytes)
      {
        var candidate := "cap_" + coding.text(digest[..bytes]);
        assert candidate == IdAt(coding, payload, bytes);
        if !(candidate in handles && handles[candidate] != payload) {
          return Some(candidate);
        }
        bytes := bytes + MORE_BYTES;
      }
      id := None;
    }

    method Decode(id: string) returns (capability: Option<Capability>)
      requires Valid()
      ensures capability == DecodeId(handles, id)
      ensures capability == if id in handles then Some(Capability(id, handles[id])) else None
    {
      DecodesExactlyStored(coding, handles, id);
      if !("cap_" <= id) {
        return None;
      }
      if id !in handles {
        return None;
      }
      capability := Some(Capability(id, handles[id]));
    }

    method RetainCapabilities(capabilities: seq<Capability>)
      requires Valid()
      modifies this`handles
      ensures Valid() && NeverRebound(old(handles), handles)
      ensures handles == Retain(old(handles), capabilities)
    {
      RetainKeepsTable(coding, handles, capabilities);
      var current: Handles := map[];
      var i := 0;
      while i < |capabilities|
        invariant i <= |capabilities|
        invariant handles == old(handles) && current == Retain(handles, capabilities[..i])
      {
        if capabilities[i].id in handles {
          current := current[capabilities[i].id := handles[capabilities[i].id]];
        }
        RetainOneMore(handles, capabilities, i);
        i := i + 1;
      }
      assert capabilities[..i] == capabilities;
      handles := current;
    }
  }

  lemma {:induction false} RetainOneMore(handles: Handles, kept: seq<Capability>, i: nat)
    requires i < |kept|
    ensures Retain(handles, kept[..i + 1]) ==
            if kept[i].id in handles then Retain(handles, kept[..i])[kept[i].id := handles[kept[i].id]]
            else Retain(handles, kept[..i])
  {
    forall id ensures Names(kept[..i + 1], id) <==> id == kept[i].id || Names(kept[..i], id) {
      NamesOneMore(kept, i, id);
    }
  }

  lemma {:induction false} NamesOneMore(kept: seq<Capability>, i: nat, id: string)
    requires i < |kept|
    ensures Names(kept[..i + 1], id) <==> id == kept[i].id || Names(kept[..i], id)
  {
    var shorter, longer := kept[..i], kept[..i + 1];
    if id == kept[i].id {
      assert longer[i].id == id;
    }
    if k :| 0 <= k < |shorter| && shorter[k].id == id {
      assert longer[k].id == id;
    }
    if k :| 0 <= k < |longer| && longer[k].id == id {
      assert k == i || shorter[k].id == id;
    }
  }
}
