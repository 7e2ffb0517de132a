/** The encoder and decoder that the code generator emits for every message of a
    protocol: presence bits, information elements (IEs) and encapsulated IE lists.
    The emitted C code is given a meaning as functions of the message schema, and the
    pair is proved correct for all schemas.
 */
module AsnCodec {
  import opened Options

  // ----- Schemas

  datatype Presence = Mandatory | Optional | Conditional

  /** An element of an encapsulated list: IE id and ASN.1 type. */
  datatype ItemIe = ItemIe(id: nat, name: nat)

  datatype Type = Plain(name: nat) | ListOf(items: seq<ItemIe>)

  datatype Ie = Ie(id: nat, typ: Type, presence: Presence)

  type Schema = seq<Ie>

  /** The emitted switch needs distinct labels, and the list encoder needs a first item. */
  predicate WellFormed(schema: Schema) {
    && (forall i, j :: 0 <= i < j < |schema| ==> schema[i].id != schema[j].id)
    && (forall i :: 0 <= i < |schema| && schema[i].typ.ListOf? ==> schema[i].typ.items != [])
  }

  /** Presence bits are numbered over the non-mandatory IEs in order. */
  function Bit(schema: Schema, i: nat): (b: nat)
    requires i <= |schema|
    ensures b <= i
  {
    if i == 0 then 0 else Bit(schema, i - 1) + (if schema[i - 1].presence.Mandatory? then 0 else 1)
  }

  /** presenceMask is a uint16_t, kept as the set of its one bits: a constant
      1 << shift with shift >= 16 vanishes in it. */
  const MASK_BITS: nat := 16

  // ----- Messages

  /** The value of a struct member: a scalar, or the array of an encapsulated list. */
  datatype Field = Scalar(payload: int) | Elements(values: seq<int>)

  datatype Struct = Struct(mask: set<nat>, fields: map<nat, Field>)

  predicate Fits(t: Type, f: Field) {
    t.Plain? <==> f.Scalar?
  }

  /** A C struct of the emitted type: one member per IE, a 16-bit mask. */
  predicate Typed(schema: Schema, m: Struct) {
    && (forall b :: b in m.mask ==> b < MASK_BITS)
    && (forall i :: 0 <= i < |schema| ==> schema[i].id in m.fields && Fits(schema[i].typ, m.fields[schema[i].id]))
    && (forall k :: k in m.fields ==> exists i :: 0 <= i < |schema| && schema[i].id == k)
  }

  function Zero(t: Type): Field {
    if t.Plain? then Scalar(0) else Elements([])
  }

  /** The zeroed struct into which a message is decoded. */
  ghost function Zeroed(schema: Schema): (m: Struct)
    requires WellFormed(schema)
    ensures Typed(schema, m)
  {
    ZeroedFields(schema);
    Struct({}, ZeroFields(schema, |schema|))
  }

  ghost function ZeroFields(schema: Schema, n: nat): map<nat, Field>
    requires n <= |schema|
  {
    if n == 0 then map[] else ZeroFields(schema, n - 1)[schema[n - 1].id := Zero(schema[n - 1].typ)]
  }

  lemma {:induction false} ZeroFieldsUpTo(schema: Schema, n: nat)
    requires WellFormed(schema) && n <= |schema|
    ensures forall i :: 0 <= i < n ==> schema[i].id in ZeroFields(schema, n) && ZeroFields(schema, n)[schema[i].id] == Zero(schema[i].typ)
    ensures forall k :: k in ZeroFields(schema, n) ==> exists i :: 0 <= i < n && schema[i].id == k
  {
    if n > 0 {
      ZeroFieldsUpTo(schema, n - 1);
    }
  }

  lemma {:induction false} ZeroedFields(schema: Schema)
    requires WellFormed(schema)
    ensures var f := ZeroFields(schema, |schema|);
      && (forall i :: 0 <= i < |schema| ==> schema[i].id in f && f[schema[i].id] == Zero(schema[i].typ))
      && (forall k :: k in f ==> exists i :: 0 <= i < |schema| && schema[i].id == k)
  {
    ZeroFieldsUpTo(schema, |schema|);
  }

  // ----- The wire

  /** An open-type container: a value with its ASN.1 type, an encoded list, or bytes
      that are neither. */
  datatype Any = Value(name: nat, payload: int) | Container(list: seq<WireIe>) | Garbage
  datatype WireIe = WireIe(id: nat, any: Any)

  // ----- The emitted encoder

  /** Bit test of an optional IE, or always for a mandatory one. */
  predicate Emitted(schema: Schema, m: Struct, i: nat)
    requires i < |schema|
  {
    schema[i].presence.Mandatory? || (Bit(schema, i) < MASK_BITS && Bit(schema, i) in m.mask)
  }

  /** The list encoder labels every element with the first item of the list type. */
  function EncodeList(items: seq<ItemIe>, values: seq<int>): (list: seq<WireIe>)
    requires items != []
    ensures |list| == |values|
    ensures forall k :: 0 <= k < |list| ==> list[k] == WireIe(items[0].id, Value(items[0].name, values[k]))
  {
    seq(|values|, k requires 0 <= k < |values| => WireIe(items[0].id, Value(items[0].name, values[k])))
  }

  /** Only the mandatory branch calls the list encoder; the optional one hands the
      unencoded list struct to the ASN.1 encoder under the list's type. */
  function Encoded(ie: Ie, f: Field): (w: WireIe)
    requires Fits(ie.typ, f) && (ie.typ.ListOf? ==> ie.typ.items != [])
  {
    WireIe(ie.id,
      if ie.typ.Plain? then Value(ie.typ.name, f.payload)
      else if ie.presence.Mandatory? then Container(EncodeList(ie.typ.items, f.values))
      else Garbage)
  }

  function EncodeUpTo(schema: Schema, m: Struct, n: nat): (w: seq<WireIe>)
    requires WellFormed(schema) && Typed(schema, m) && n <= |schema|
  {
    if n == 0 then []
    else
      var last := if Emitted(schema, m, n - 1) then [Encoded(schema[n - 1], m.fields[schema[n - 1].id])] else [];
      EncodeUpTo(schema, m, n - 1) + last
  }

  function Encode(schema: Schema, m: Struct): (w: seq<WireIe>)
    requires WellFormed(schema) && Typed(schema, m)
  {
    EncodeUpTo(schema, m, |schema|)
  }

  // ----- The emitted decoder

  /** The case of the switch, or -1 for default. */
  function FindIe(schema: Schema, id: nat, i: nat): (k: int)
    requires i <= |schema|
    ensures -1 <= k < |schema|
    ensures k == -1 ==> forall j :: i <= j < |schema| ==> schema[j].id != id
    ensures k >= 0 ==> i <= k && schema[k].id == id
    decreases |schema| - i
  {
    if i == |schema| then -1 else if schema[i].id == id then i else FindIe(schema, id, i + 1)
  }

  /** An element of a list decodes if its id and type are those of an item. */
  predicate ItemDecodes(items: seq<ItemIe>, w: WireIe) {
    w.any.Value? && ItemIe(w.id, w.any.name) in items
  }

  /** The list decoder stops at the first bad element; what was appended stays. */
  function DecodeList(items: seq<ItemIe>, list: seq<WireIe>): (values: seq<int>) {
    if list == [] || !ItemDecodes(items, list[0]) then []
    else [list[0].any.payload] + DecodeList(items, list[1..])
  }

  /** The open type holds the IE's type. */
  predicate Decodes(ie: Ie, any: Any) {
    if ie.typ.Plain? then any.Value? && any.name == ie.typ.name else any.Container?
  }

  /** One IE: set its presence bit, then copy the value or append the list; a failing
      list decoder is reported but not returned. */
  function DecodeIe(schema: Schema, k: nat, m: Struct, any: Any): (r: Struct)
    requires k < |schema| && Decodes(schema[k], any) && schema[k].id in m.fields
    requires Fits(schema[k].typ, m.fields[schema[k].id])
  {
    var ie := schema[k];
    var b := Bit(schema, k);
    Struct(
      if !ie.presence.Mandatory? && b < MASK_BITS then m.mask + {b} else m.mask,
      m.fields[ie.id :=
        if ie.typ.Plain? then Scalar(any.payload)
        else Elements(m.fields[ie.id].values + DecodeList(ie.typ.items, any.list))])
  }

  function DecodeFrom(schema: Schema, m: Struct, wire: seq<WireIe>): (r: Option<Struct>)
    requires Typed(schema, m)
    decreases |wire|
  {
    if wire == [] then Some(m)
    else
      var k := FindIe(schema, wire[0].id, 0);
      if k == -1 || !Decodes(schema[k], wire[0].any) then None
      else DecodeFrom(schema, DecodeIe(schema, k, m, wire[0].any), wire[1..])
  }

  ghost function Decode(schema: Schema, wire: seq<WireIe>): (r: Option<Struct>)
    requires WellFormed(schema)
  {
    DecodeFrom(schema, Zeroed(schema), wire)
  }

  // ----- What decoding means, for any order of the IEs

  predicate DistinctIds(wire: seq<WireIe>) {
    forall i, j :: 0 <= i < j < |wire| ==> wire[i].id != wire[j].id
  }

  predicate Acceptable(schema: Schema, w: WireIe) {
    exists k :: 0 <= k < |schema| && schema[k].id == w.id && Decodes(schema[k], w.any)
  }

  /** The field an accepted IE stands for. */
  function Meaning(t: Type, any: Any): Field
    requires t.Plain? ==> any.Value?
    requires t.ListOf? ==> any.Container?
  {
    if t.Plain? then Scalar(any.payload) else Elements(DecodeList(t.items, any.list))
  }

  predicate Carries(wire: seq<WireIe>, id: nat) {
    exists j :: 0 <= j < |wire| && wire[j].id == id
  }

  /** r is what the IEs of the wire say, on top of m. */
  ghost predicate Says(schema: Schema, m: Struct, wire: seq<WireIe>, r: Struct) {
    Typed(schema, r) && Untouched(schema, m, wire, r) && Filled(schema, wire, r) && MaskSaid(schema, m, wire, r)
  }

  predicate Untouched(schema: Schema, m: Struct, wire: seq<WireIe>, r: Struct)
    requires Typed(schema, r)
  {
    forall k :: 0 <= k < |schema| && schema[k].id in m.fields && !Carries(wire, schema[k].id) ==>
      r.fields[schema[k].id] == m.fields[schema[k].id]
  }

  predicate Filled(schema: Schema, wire: seq<WireIe>, r: Struct)
    requires Typed(schema, r)
  {
    forall j, k :: 0 <= j < |wire| && 0 <= k < |schema| && wire[j].id == schema[k].id ==>
      Decodes(schema[k], wire[j].any) && r.fields[schema[k].id] == Meaning(schema[k].typ, wire[j].any)
  }

  ghost predicate MaskSaid(schema: Schema, m: Struct, wire: seq<WireIe>, r: Struct) {
    forall b :: b in r.mask <==> b in m.mask || PresentBit(schema, wire, b)
  }

  /** Some IE of the wire has presence bit b, and the bit fits the mask. */
  predicate PresentBit(schema: Schema, wire: seq<WireIe>, b: nat) {
    b < MASK_BITS &&
    exists k :: 0 <= k < |schema| && !schema[k].presence.Mandatory? && Bit(schema, k) == b && Carries(wire, schema[k].id)
  }

  /** List members of m that the wire will fill are still empty. */
  predicate ListsEmpty(schema: Schema, m: Struct, wire: seq<WireIe>) {
    forall k :: 0 <= k < |schema| && schema[k].typ.ListOf? && Carries(wire, schema[k].id) ==>
      schema[k].id in m.fields && m.fields[schema[k].id] == Elements([])
  }

  lemma {:induction false} CarriesTail(wire: seq<WireIe>, id: nat)
    requires wire != []
    ensures Carries(wire, id) <==> wire[0].id == id || Carries(wire[1..], id)
  {
    if Carries(wire, id) && wire[0].id != id {
      var j :| 0 <= j < |wire| && wire[j].id == id;
      assert wire[1..][j - 1].id == id;
    }
    if Carries(wire[1..], id) {
      var j :| 0 <= j < |wire| - 1 && wire[1..][j].id == id;
      assert wire[j + 1].id == id;
    }
  }

  /** Decoding distinct, acceptable IEs succeeds and says what the IEs say. */
  lemma {:induction false} DecodeSays(schema: Schema, m: Struct, wire: seq<WireIe>)
    requires WellFormed(schema) && Typed(schema, m) && DistinctIds(wire) && ListsEmpty(schema, m, wire)
    requires forall j :: 0 <= j < |wire| ==> Acceptable(schema, wire[j])
    ensures DecodeFrom(schema, m, wire).Some? && Says(schema, m, wire, DecodeFrom(schema, m, wire).value)
    decreases |wire|
  {
    if wire != [] {
      assert Acceptable(schema, wire[0]);
      var k := FindIe(schema, wire[0].id, 0);
      var m' := DecodeIe(schema, k, m, wire[0].any);
      var rest := wire[1..];
      forall id ensures Carries(wire, id) <==> wire[0].id == id || Carries(rest, id) {
        CarriesTail(wire, id);
      }
      assert !Carries(rest, wire[0].id);
      DecodeSays(schema, m', rest);
      HeadSays(schema, m, wire, k, DecodeFrom(schema, m', rest).value);
    }
  }

  lemma {:induction false} HeadSays(schema: Schema, m: Struct, wire: seq<WireIe>, k: nat, r: Struct)
    requires WellFormed(schema) && Typed(schema, m) && wire != [] && ListsEmpty(schema, m, wire)
    requires k < |schema| && schema[k].id == wire[0].id && Decodes(schema[k], wire[0].any)
    requires forall id :: Carries(wire, id) <==> wire[0].id == id || Carries(wire[1..], id)
    requires !Carries(wire[1..], wire[0].id)
    requires Says(schema, DecodeIe(schema, k, m, wire[0].any), wire[1..], r)
    ensures Says(schema, m, wire, r)
  {
    var m' := DecodeIe(schema, k, m, wire[0].any);
    HeadDecoded(schema, m, wire, k);
    HeadUntouched(schema, m, wire, m', r);
    HeadFilled(schema, wire, k, m', r);
    HeadMask(schema, m, wire, k, m', r);
  }

  /** What decoding the first IE does: its field and its presence bit, nothing else. */
  lemma HeadDecoded(schema: Schema, m: Struct, wire: seq<WireIe>, k: nat)
    requires k < |schema| && schema[k].id in m.fields && Fits(schema[k].typ, m.fields[schema[k].id])
    requires wire != [] && schema[k].id == wire[0].id && Decodes(schema[k], wire[0].any) && ListsEmpty(schema, m, wire)
    ensures var m', b := DecodeIe(schema, k, m, wire[0].any), Bit(schema, k);
      && schema[k].id in m'.fields && m'.fields[schema[k].id] == Meaning(schema[k].typ, wire[0].any)
      && (forall id :: id in m.fields && id != wire[0].id ==> id in m'.fields && m'.fields[id] == m.fields[id])
      && m'.mask == if !schema[k].presence.Mandatory? && b < MASK_BITS then m.mask + {b} else m.mask
  {
    assert Carries(wire, schema[k].id);
  }

  lemma {:induction false} HeadUntouched(schema: Schema, m: Struct, wire: seq<WireIe>, m': Struct, r: Struct)
    requires wire != [] && Typed(schema, r)
    requires forall id :: Carries(wire, id) <==> wire[0].id == id || Carries(wire[1..], id)
    requires forall id :: id in m.fields && id != wire[0].id ==> id in m'.fields && m'.fields[id] == m.fields[id]
    requires Untouched(schema, m', wire[1..], r)
    ensures Untouched(schema, m, wire, r)
  {
  }

  lemma {:induction false} HeadFilled(schema: Schema, wire: seq<WireIe>, k: nat, m: Struct, r: Struct)
    requires WellFormed(schema) && wire != [] && Typed(schema, r)
    requires k < |schema| && schema[k].id == wire[0].id && Decodes(schema[k], wire[0].any)
    requires schema[k].id in m.fields && m.fields[schema[k].id] == Meaning(schema[k].typ, wire[0].any)
    requires !Carries(wire[1..], wire[0].id)
    requires Untouched(schema, m, wire[1..], r) && Filled(schema, wire[1..], r)
    ensures Filled(schema, wire, r)
  {
    forall j, i | 0 <= j < |wire| && 0 <= i < |schema| && wire[j].id == schema[i].id
      ensures Decodes(schema[i], wire[j].any) && r.fields[schema[i].id] == Meaning(schema[i].typ, wire[j].any)
    {
      if j == 0 {
        assert i == k;
      } else {
        assert wire[j] == wire[1..][j - 1];
      }
    }
  }

  lemma {:induction false} HeadMask(schema: Schema, m: Struct, wire: seq<WireIe>, k: nat, m': Struct, r: Struct)
    requires WellFormed(schema) && wire != [] && k < |schema| && schema[k].id == wire[0].id
    requires forall id :: Carries(wire, id) <==> wire[0].id == id || Carries(wire[1..], id)
    requires var b := Bit(schema, k);
      m'.mask == if !schema[k].presence.Mandatory? && b < MASK_BITS then m.mask + {b} else m.mask
    requires MaskSaid(schema, m', wire[1..], r)
    ensures MaskSaid(schema, m, wire, r)
  {
    forall b ensures b in r.mask <==> b in m.mask || PresentBit(schema, wire, b) {
      if PresentBit(schema, wire, b) && !PresentBit(schema, wire[1..], b) {
        var i :| 0 <= i < |schema| && !schema[i].presence.Mandatory? && Bit(schema, i) == b && Carries(wire, schema[i].id);
        assert schema[i].id == wire[0].id && i == k;
      }
      if PresentBit(schema, wire[1..], b) {
        var i :| 0 <= i < |schema| && !schema[i].presence.Mandatory? && Bit(schema, i) == b && Carries(wire[1..], schema[i].id);
        assert Carries(wire, schema[i].id);
      }
    }
  }

  /** The same IEs in another order say the same. */
  lemma {:induction false} SaysUnique(schema: Schema, m: Struct, w1: seq<WireIe>, r1: Struct, w2: seq<WireIe>, r2: Struct)
    requires WellFormed(schema) && Typed(schema, m) && Says(schema, m, w1, r1) && Says(schema, m, w2, r2)
    requires forall w :: w in w1 <==> w in w2
    ensures r1 == r2
  {
    forall id ensures Carries(w1, id) <==> Carries(w2, id) {
      SameCarried(w1, w2, id);
      SameCarried(w2, w1, id);
    }
    forall k | 0 <= k < |schema| ensures r1.fields[schema[k].id] == r2.fields[schema[k].id] {
      var id := schema[k].id;
      if Carries(w1, id) {
        var j :| 0 <= j < |w1| && w1[j].id == id;
        assert w1[j] in w2;
        var i :| 0 <= i < |w2| && w2[i] == w1[j];
      }
    }
    assert r1.fields.Keys == r2.fields.Keys;
    assert r1.fields == r2.fields;
    assert forall b :: PresentBit(schema, w1, b) <==> PresentBit(schema, w2, b);
    assert r1.mask == r2.mask;
  }

  lemma {:induction false} SameCarried(w1: seq<WireIe>, w2: seq<WireIe>, id: nat)
    requires forall w :: w in w1 ==> w in w2
    ensures Carries(w1, id) ==> Carries(w2, id)
  {
    if Carries(w1, id) {
      var j :| 0 <= j < |w1| && w1[j].id == id;
      assert w1[j] in w2;
      var i :| 0 <= i < |w2| && w2[i] == w1[j];
    }
  }

  // ----- What encoding produces

  /** x is the encoding of one of the first n IEs. */
  predicate Comes(schema: Schema, m: Struct, n: nat, x: WireIe)
    requires WellFormed(schema) && Typed(schema, m) && n <= |schema|
  {
    exists i :: 0 <= i < n && Emitted(schema, m, i) && x == Encoded(schema[i], m.fields[schema[i].id])
  }

  lemma {:induction false} EncodeSources(schema: Schema, m: Struct, n: nat)
    requires WellFormed(schema) && Typed(schema, m) && n <= |schema|
    ensures forall x :: x in EncodeUpTo(schema, m, n) ==> Comes(schema, m, n, x)
    ensures DistinctIds(EncodeUpTo(schema, m, n))
  {
    if n > 0 {
      EncodeSources(schema, m, n - 1);
      var w := EncodeUpTo(schema, m, n - 1);
      forall x | x in w ensures Comes(schema, m, n, x) && x.id != schema[n - 1].id {
        assert Comes(schema, m, n - 1, x);
        var i :| 0 <= i < n - 1 && Emitted(schema, m, i) && x == Encoded(schema[i], m.fields[schema[i].id]);
      }
    }
  }

  lemma {:induction false} EncodeTargets(schema: Schema, m: Struct, n: nat, i: nat)
    requires WellFormed(schema) && Typed(schema, m) && i < n <= |schema| && Emitted(schema, m, i)
    ensures Encoded(schema[i], m.fields[schema[i].id]) in EncodeUpTo(schema, m, n)
  {
    if i < n - 1 {
      EncodeTargets(schema, m, n - 1, i);
    }
  }

  lemma {:induction false} ListRoundTrip(items: seq<ItemIe>, values: seq<int>)
    requires items != []
    ensures DecodeList(items, EncodeList(items, values)) == values
  {
    if values != [] {
      ListRoundTrip(items, values[1..]);
      assert items[0] in items;
      assert EncodeList(items, values)[1..] == EncodeList(items, values[1..]);
    }
  }

  lemma {:induction false} BitsIncrease(schema: Schema, i: nat, j: nat)
    requires i < j <= |schema| && !schema[i].presence.Mandatory?
    ensures Bit(schema, i) < Bit(schema, j)
    decreases j
  {
    if i + 1 < j {
      BitsIncrease(schema, i, j - 1);
    }
  }

  lemma {:induction false} BitsDistinct(schema: Schema, i: nat, j: nat)
    requires i < |schema| && j < |schema| && Bit(schema, i) == Bit(schema, j)
    requires !schema[i].presence.Mandatory? && !schema[j].presence.Mandatory?
    ensures i == j
  {
    if i < j {
      BitsIncrease(schema, i, j);
    } else if j < i {
      BitsIncrease(schema, j, i);
    }
  }

  // ----- The round trip

  /** A list IE in the optional branch is sent. */
  predicate OptionalListSent(schema: Schema, m: Struct) {
    exists i :: 0 <= i < |schema| && schema[i].typ.ListOf? && !schema[i].presence.Mandatory? && Emitted(schema, m, i)
  }

  /** r is m as far as the protocol knows it: the bits assigned to IEs, the fields that
      are sent, and zero elsewhere. */
  ghost predicate Canonical(schema: Schema, m: Struct, r: Struct) {
    && Typed(schema, m) && Typed(schema, r)
    && (forall b :: b in r.mask <==>
          b in m.mask && exists i :: 0 <= i < |schema| && !schema[i].presence.Mandatory? && Bit(schema, i) == b)
    && (forall i :: 0 <= i < |schema| ==>
          r.fields[schema[i].id] == (if Emitted(schema, m, i) then m.fields[schema[i].id] else Zero(schema[i].typ)))
  }

  lemma {:induction false} EncodedCarries(schema: Schema, m: Struct, k: nat)
    requires WellFormed(schema) && Typed(schema, m) && k < |schema|
    ensures Carries(Encode(schema, m), schema[k].id) <==> Emitted(schema, m, k)
  {
    EncodeSources(schema, m, |schema|);
    var w := Encode(schema, m);
    if Emitted(schema, m, k) {
      var x := Encoded(schema[k], m.fields[schema[k].id]);
      EncodeTargets(schema, m, |schema|, k);
      var j :| 0 <= j < |w| && w[j] == x;
    }
    if Carries(w, schema[k].id) {
      var j :| 0 <= j < |w| && w[j].id == schema[k].id;
      assert Comes(schema, m, |schema|, w[j]);
      var i :| 0 <= i < |schema| && Emitted(schema, m, i) && w[j] == Encoded(schema[i], m.fields[schema[i].id]);
      assert i == k;
    }
  }

  lemma {:induction false} EncodedAcceptable(schema: Schema, m: Struct)
    requires WellFormed(schema) && Typed(schema, m) && !OptionalListSent(schema, m)
    ensures forall x :: x in Encode(schema, m) ==> Acceptable(schema, x)
  {
    EncodeSources(schema, m, |schema|);
    forall x | x in Encode(schema, m) ensures Acceptable(schema, x) {
      assert Comes(schema, m, |schema|, x);
      var i :| 0 <= i < |schema| && Emitted(schema, m, i) && x == Encoded(schema[i], m.fields[schema[i].id]);
      assert Decodes(schema[i], x.any);
    }
  }

  lemma {:induction false} EncodedField(schema: Schema, m: Struct, r: Struct, k: nat)
    requires WellFormed(schema) && Typed(schema, m) && Typed(schema, r) && !OptionalListSent(schema, m)
    requires k < |schema| && Filled(schema, Encode(schema, m), r) && Emitted(schema, m, k)
    ensures r.fields[schema[k].id] == m.fields[schema[k].id]
  {
    var w := Encode(schema, m);
    var x := Encoded(schema[k], m.fields[schema[k].id]);
    EncodeTargets(schema, m, |schema|, k);
    var j :| 0 <= j < |w| && w[j] == x;
    if schema[k].typ.ListOf? {
      ListRoundTrip(schema[k].typ.items, m.fields[schema[k].id].values);
    }
  }

  /** What the encoder's output says is the canonical message. */
  lemma {:induction false} EncodedSays(schema: Schema, m: Struct, r: Struct)
    requires WellFormed(schema) && Typed(schema, m) && !OptionalListSent(schema, m)
    requires Says(schema, Zeroed(schema), Encode(schema, m), r)
    ensures Canonical(schema, m, r)
  {
    forall k | 0 <= k < |schema|
      ensures r.fields[schema[k].id] == (if Emitted(schema, m, k) then m.fields[schema[k].id] else Zero(schema[k].typ))
    {
      if Emitted(schema, m, k) {
        EncodedField(schema, m, r, k);
      } else {
        EncodedCarries(schema, m, k);
        ZeroedFields(schema);
      }
    }
    MaskSays(schema, m, r);
  }

  lemma {:induction false} MaskSays(schema: Schema, m: Struct, r: Struct)
    requires WellFormed(schema) && Typed(schema, m)
    requires forall b :: b in r.mask <==> PresentBit(schema, Encode(schema, m), b)
    ensures forall b :: b in r.mask <==>
      b in m.mask && exists i :: 0 <= i < |schema| && !schema[i].presence.Mandatory? && Bit(schema, i) == b
  {
    var w := Encode(schema, m);
    forall b ensures b in r.mask <==>
      b in m.mask && exists i :: 0 <= i < |schema| && !schema[i].presence.Mandatory? && Bit(schema, i) == b
    {
      if PresentBit(schema, w, b) {
        var k :| 0 <= k < |schema| && !schema[k].presence.Mandatory? && Bit(schema, k) == b && Carries(w, schema[k].id);
        EncodedCarries(schema, m, k);
      }
      if b in m.mask && exists i :: 0 <= i < |schema| && !schema[i].presence.Mandatory? && Bit(schema, i) == b {
        var i :| 0 <= i < |schema| && !schema[i].presence.Mandatory? && Bit(schema, i) == b;
        EncodedCarries(schema, m, i);
        assert Emitted(schema, m, i);
      }
    }
  }

  /** For every schema and message without an optional list: decoding the encoder's
      output, in any order of its IEs, gives back the mandatory fields, the presence
      mask and the present optional fields. */
  lemma {:induction false} RoundTrip(schema: Schema, m: Struct, wire: seq<WireIe>)
    requires WellFormed(schema) && Typed(schema, m) && !OptionalListSent(schema, m)
    requires multiset(wire) == multiset(Encode(schema, m))
    ensures Decode(schema, wire).Some? && Canonical(schema, m, Decode(schema, wire).value)
  {
    var w := Encode(schema, m);
    var zero := Zeroed(schema);
    ZeroedFields(schema);
    EncodeSources(schema, m, |schema|);
    EncodedAcceptable(schema, m);
    forall j | 0 <= j < |w| ensures Acceptable(schema, w[j]) {
      assert w[j] in w;
    }
    assert ListsEmpty(schema, zero, w);
    DecodeSays(schema, zero, w);
    EncodedSays(schema, m, DecodeFrom(schema, zero, w).value);
    SameElements(w, wire);
    ReorderedDistinct(w, wire);
    forall j | 0 <= j < |wire| ensures Acceptable(schema, wire[j]) {
      assert wire[j] in wire;
    }
    DecodeSays(schema, zero, wire);
    SaysUnique(schema, zero, w, DecodeFrom(schema, zero, w).value, wire, DecodeFrom(schema, zero, wire).value);
  }

  lemma {:induction false} SameElements(a: seq<WireIe>, b: seq<WireIe>)
    requires multiset(a) == multiset(b)
    ensures forall x :: x in a <==> x in b
  {
    forall x ensures x in a <==> x in b {
      assert x in a <==> x in multiset(a);
      assert x in b <==> x in multiset(b);
    }
  }

  /** Reordering keeps ids distinct. */
  lemma {:induction false} ReorderedDistinct(a: seq<WireIe>, b: seq<WireIe>)
    requires multiset(a) == multiset(b) && DistinctIds(a)
    ensures DistinctIds(b)
  {
    forall i, j | 0 <= i < j < |b| && b[i].id == b[j].id ensures false {
      assert b[i] in multiset(b) && b[j] in multiset(b);
      assert b[i] in a && b[j] in a;
      var p :| 0 <= p < |a| && a[p] == b[i];
      var q :| 0 <= q < |a| && a[q] == b[j];
      assert p == q;
      TwiceIn(b, i, j);
      OnceIn(a, p);
    }
  }

  lemma {:induction false} TwiceIn(b: seq<WireIe>, i: nat, j: nat)
    requires i < j < |b| && b[i] == b[j]
    ensures multiset(b)[b[i]] >= 2
  {
    assert b == b[..j] + b[j..];
    assert b[i] in b[..j] && b[j] in b[j..];
    assert multiset(b) == multiset(b[..j]) + multiset(b[j..]);
    assert b[..j][i] == b[i];
  }

  lemma {:induction false} OnceIn(a: seq<WireIe>, p: nat)
    requires p < |a| && DistinctIds(a)
    ensures multiset(a)[a[p]] == 1
  {
    assert a == a[..p] + [a[p]] + a[p + 1..];
    assert multiset(a) == multiset(a[..p]) + multiset{a[p]} + multiset(a[p + 1..]);
    assert a[p] !in a[..p] && a[p] !in a[p + 1..];
  }

  /** A message with an optional list is not decoded at all. */
  lemma {:induction false} OptionalListBreaks(schema: Schema, m: Struct)
    requires WellFormed(schema) && Typed(schema, m) && OptionalListSent(schema, m)
    ensures Decode(schema, Encode(schema, m)).None?
  {
    var i :| 0 <= i < |schema| && schema[i].typ.ListOf? && !schema[i].presence.Mandatory? && Emitted(schema, m, i);
    var x := Encoded(schema[i], m.fields[schema[i].id]);
    var w := Encode(schema, m);
    EncodeTargets(schema, m, |schema|, i);
    var j :| 0 <= j < |w| && w[j] == x;
    GarbageFails(schema, Zeroed(schema), w, j, i);
  }

  lemma {:induction false} GarbageFails(schema: Schema, m: Struct, wire: seq<WireIe>, j: nat, i: nat)
    requires WellFormed(schema) && Typed(schema, m) && j < |wire| && i < |schema|
    requires wire[j].id == schema[i].id && wire[j].any.Garbage?
    ensures DecodeFrom(schema, m, wire).None?
    decreases |wire|
  {
    var k := FindIe(schema, wire[0].id, 0);
    if j == 0 {
      assert k == i;
    } else if k != -1 && Decodes(schema[k], wire[0].any) {
      GarbageFails(schema, DecodeIe(schema, k, m, wire[0].any), wire[1..], j - 1, i);
    }
  }

  /** Whatever peer sent the message: an accepted optional IE is reported as present
      exactly if its bit fits the 16-bit mask. */
  lemma {:induction false} PresenceReported(schema: Schema, wire: seq<WireIe>, k: nat)
    requires WellFormed(schema) && DistinctIds(wire) && k < |schema| && !schema[k].presence.Mandatory?
    requires forall j :: 0 <= j < |wire| ==> Acceptable(schema, wire[j])
    requires Carries(wire, schema[k].id)
    ensures Decode(schema, wire).Some?
    ensures Bit(schema, k) in Decode(schema, wire).value.mask <==> Bit(schema, k) < MASK_BITS
  {
    ZeroedFields(schema);
    DecodeSays(schema, Zeroed(schema), wire);
  }
}
