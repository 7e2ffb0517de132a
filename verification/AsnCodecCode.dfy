/** The generator's numbering loop and the emitted code as loops, proved against the
    functions of AsnCodec.
 */
module AsnCodecCode {
  import opened Options
  import opened AsnCodec

  /** The presence-mask loop: a running shift counts the non-mandatory IEs. */
  method AssignBits(schema: Schema) returns (shifts: seq<nat>, total: nat)
    ensures |shifts| == |schema| && forall i :: 0 <= i < |schema| ==> shifts[i] == Bit(schema, i)
    ensures total == Bit(schema, |schema|)
  {
    shifts, total := [], 0;
    for i := 0 to |schema|
      invariant |shifts| == i && total == Bit(schema, i)
      invariant forall j :: 0 <= j < i ==> shifts[j] == Bit(schema, j)
    {
      assert Bit(schema, i + 1) == Bit(schema, i) + (if schema[i].presence.Mandatory? then 0 else 1);
      shifts := shifts + [total];
      if schema[i].presence.Optional? || schema[i].presence.Conditional? {
        total := total + 1;
      }
    }
  }

  method EncodeItems(items: seq<ItemIe>, values: seq<int>) returns (list: seq<WireIe>)
    requires items != []
    ensures list == EncodeList(items, values)
  {
    list := [];
    for i := 0 to |values|
      invariant list == EncodeList(items, values)[..i]
    {
      list := list + [WireIe(items[0].id, Value(items[0].name, values[i]))];
    }
  }

  method EncodeMessage(schema: Schema, m: Struct) returns (wire: seq<WireIe>)
    requires WellFormed(schema) && Typed(schema, m)
    ensures wire == Encode(schema, m)
  {
    wire := [];
    var shifts, _ := AssignBits(schema);
    for i := 0 to |schema|
      invariant wire == EncodeUpTo(schema, m, i)
    {
      var ie := schema[i];
      var f := m.fields[ie.id];
      if !ie.presence.Mandatory? {
        if shifts[i] < MASK_BITS && shifts[i] in m.mask {
          wire := wire + [WireIe(ie.id, if ie.typ.Plain? then Value(ie.typ.name, f.payload) else Garbage)];
        }
      } else if ie.typ.ListOf? {
        var list := EncodeItems(ie.typ.items, f.values);
        wire := wire + [WireIe(ie.id, Container(list))];
      } else {
        wire := wire + [WireIe(ie.id, Value(ie.typ.name, f.payload))];
      }
    }
  }

  /** The switch over item ids inside the list decoder. */
  method FindItem(items: seq<ItemIe>, w: WireIe) returns (ok: bool)
    ensures ok <==> ItemDecodes(items, w)
  {
    if !w.any.Value? {
      return false;
    }
    for i := 0 to |items|
      invariant ItemIe(w.id, w.any.name) !in items[..i]
    {
      if items[i].id == w.id && items[i].name == w.any.name {
        return true;
      }
    }
    return false;
  }

  /** values is what was appended; ok is false for the error return. */
  method DecodeItems(items: seq<ItemIe>, list: seq<WireIe>) returns (ok: bool, values: seq<int>)
    ensures values == DecodeList(items, list)
    ensures ok <==> forall k :: 0 <= k < |list| ==> ItemDecodes(items, list[k])
  {
    values := [];
    for i := 0 to |list|
      invariant DecodeList(items, list) == values + DecodeList(items, list[i..])
      invariant forall k :: 0 <= k < i ==> ItemDecodes(items, list[k])
    {
      assert list[i..][1..] == list[i + 1..];
      var good := FindItem(items, list[i]);
      if !good {
        return false, values;
      }
      values := values + [list[i].any.payload];
    }
    ok := true;
  }

  method FindCase(schema: Schema, id: nat) returns (k: int)
    ensures k == FindIe(schema, id, 0)
  {
    for i := 0 to |schema|
      invariant FindIe(schema, id, 0) == FindIe(schema, id, i)
    {
      if schema[i].id == id {
        return i;
      }
    }
    return -1;
  }

  /** The emitted decoder, run on a struct already in memory. */
  method DecodeMessage(schema: Schema, target: Struct, wire: seq<WireIe>) returns (r: Option<Struct>)
    requires Typed(schema, target)
    ensures r == DecodeFrom(schema, target, wire)
  {
    var m := target;
    var shifts, _ := AssignBits(schema);
    for i := 0 to |wire|
      invariant Typed(schema, m)
      invariant DecodeFrom(schema, target, wire) == DecodeFrom(schema, m, wire[i..])
    {
      assert wire[i..][1..] == wire[i + 1..];
      var k := FindCase(schema, wire[i].id);
      if k == -1 {
        return None;
      }
      var ie := schema[k];
      ghost var before := m;
      if !Decodes(ie, wire[i].any) {
        return None;
      }
      if !ie.presence.Mandatory? && shifts[k] < MASK_BITS {
        m := m.(mask := m.mask + {shifts[k]});
      }
      if ie.typ.ListOf? {
        var _, values := DecodeItems(ie.typ.items, wire[i].any.list);
        m := m.(fields := m.fields[ie.id := Elements(m.fields[ie.id].values + values)]);
      } else {
        m := m.(fields := m.fields[ie.id := Scalar(wire[i].any.payload)]);
      }
      assert m == DecodeIe(schema, k, before, wire[i].any);
      DecodeIeTyped(schema, k, before, wire[i].any);
    }
    r := Some(m);
  }

  lemma DecodeIeTyped(schema: Schema, k: nat, m: Struct, any: Any)
    requires Typed(schema, m) && k < |schema| && Decodes(schema[k], any)
    requires forall i :: 0 <= i < |schema| && schema[i].id == schema[k].id ==> (schema[i].typ.Plain? <==> schema[k].typ.Plain?)
    ensures Typed(schema, DecodeIe(schema, k, m, any))
  {
  }
}
