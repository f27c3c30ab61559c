/** The size builder and the encoder as the code has them: objects that encoding appends to. */
module Encoder {
  import opened Basics
  import opened Wire
  import opened Schema
  import opened Encode
  import Varint

  class SizeBuilder {
    var inner: nat

    constructor ()
      ensures inner == 0
    {
      inner := 0;
    }

    method WriteTag(num: nat, w: WireType)
      modifies this
      ensures inner == old(inner) + |Tag(num, w)|
    {
      inner := inner + TagSize(num);
      TagSizeIsLength(num, w);
    }

    method WriteVarint(val: nat)
      modifies this
      ensures inner == old(inner) + |Varint.Encoded(val)|
    {
      inner := inner + Varint.Size(val);
      Varint.SizeIsLength(val);
    }

    method WriteBytes(len: nat)
      modifies this
      ensures inner == old(inner) + len
    {
      inner := inner + len;
    }

    method WriteFieldHead(field: Option<FieldOpt>, len: nat)
      modifies this
      ensures inner == old(inner) + |TagAndLen(field, len)|
    {
      if field.Some? {
        WriteTag(field.value.num, Len);
        WriteVarint(len);
      }
    }

    method WriteScalar(k: FieldKind)
      requires !k.KLen?
      modifies this
      ensures inner == old(inner) + |Payload(k)|
    {
      match k
      case KVarint(n) => WriteVarint(n);
      case KI32(_) => inner := inner + 4;
      case KI64(_) => inner := inner + 8;
    }

    /** `encoded_size`: adds exactly the number of bytes that encoding the value writes. */
    method EncodedSize(ty: Ty, v: Val, field: Option<FieldOpt>)
      requires WellFormed(ty) && HasType(ty, v)
      modifies this
      ensures inner == old(inner) + |Bytes(ty, v, field)|
      decreases ty, 4, 0
    {
      hide Bytes, Size, BytesOfFields, SizeOfFields, Tag, Payload;
      if Scalar(ty) {
        ScalarCase(ty, v, field);
        if field.Some? { WriteTag(field.value.num, ty.Wire()); }
        WriteScalar(ScalarKind(ty, v));
      } else if Flat(ty) {
        FlatCase(ty, v, field);
        WriteFieldHead(field, |v.bytes|);
        WriteBytes(|v.bytes|);
      } else if ty.Repeated() {
        if field.None? { AloneCase(ty, v); }
        RepeatedSize(ty, v, field.GetOr(FieldOpt(1, false)));
      } else {
        FieldsCase(ty, v, field);
        var size := new SizeBuilder();
        size.FieldsSize(ty, v);
        FieldsSizeAgrees(ty, v);
        WriteFieldHead(field, size.inner);
        WriteBytes(size.inner);
      }
    }

    method RepeatedSize(ty: Ty, v: Val, f: FieldOpt)
      requires WellFormed(ty) && ty.Repeated() && HasType(ty, v)
      modifies this
      ensures inner == old(inner) + |Bytes(ty, v, Some(f))|
      decreases ty, if f.nested then 3 else 2, 0
    {
      hide Bytes, Size, BytesOfItems, SizeOfItems, TagAndLen;
      if f.nested {
        NestedCase(ty, v, f.num);
        AloneCase(ty, v);
        SizeAgrees(ty, v, None);
        var size := new SizeBuilder();
        size.RepeatedSize(ty, v, FieldOpt(1, false));
        WriteFieldHead(Some(f), size.inner);
        WriteBytes(size.inner);
      } else if Packed(ty, v) {
        PackedCase(ty, v, f.num);
        var packed := new SizeBuilder();
        packed.ItemsSize(ty, v, None);
        ItemsSizeAgrees(ty, v, None, |Items(ty, v)|);
        WriteFieldHead(Some(f), packed.inner);
        WriteBytes(packed.inner);
      } else {
        ExpandedCase(ty, v, f.num);
        ItemsSize(ty, v, Some(FieldOpt(f.num, true)));
      }
    }

    method ItemsSize(ty: Ty, v: Val, field: Option<FieldOpt>)
      requires WellFormed(ty) && ty.Repeated() && HasType(ty, v)
      modifies this
      ensures inner == old(inner) + |BytesOfItems(ty, v, field, |Items(ty, v)|)|
      decreases ty, 1, 0
    {
      hide Bytes, BytesOfItems;
      assert BytesOfItems(ty, v, field, 0) == [] by { NoItems(ty, v, field); }
      var items := Items(ty, v);
      for i := 0 to |items|
        invariant inner == old(inner) + |BytesOfItems(ty, v, field, i)|
      {
        EncodedSize(ty.elem, items[i], field);
        ItemsStep(ty, v, field, i);
      }
    }

    method FieldsSize(ty: Ty, v: Val)
      requires WellFormed(ty) && (ty.TStruct? || ty.TOneof?) && HasType(ty, v)
      modifies this
      ensures inner == old(inner) + |BytesOfFields(ty, v)|
      decreases ty, 1, 0
    {
      hide Bytes, BytesOfFirst;
      if ty.TStruct? {
        NoFields(ty, v);
        for i := 0 to |ty.fields|
          invariant inner == old(inner) + |BytesOfFirst(ty, v, i)|
        {
          var f, x := ty.fields[i], v.fields[i];
          if !IsDefault(f.ty, x) {
            EncodedSize(f.ty, x, Some(FieldOpt(f.num, false)));
          }
          FirstStep(ty, v, i);
        }
      } else {
        var num := ty.variants[v.index].num;
        if v.VUnit? {
          WriteTag(num, Len);
          WriteVarint(0);
        } else {
          EncodedSize(ty.variants[v.index].ty, v.payload, Some(FieldOpt(num, false)));
        }
      }
    }
  }

  lemma NoHead(len: nat)
    ensures TagAndLen(None, len) == []
  {
  }

  class MessageEncoder {
    var inner: seq<Byte>

    constructor ()
      ensures inner == []
    {
      inner := [];
    }

    /** The varint write loop. It always ends by itself: no number below 2^64 has an eleventh group. */
    method WriteVarint(val: nat)
      requires val < U64
      modifies this
      ensures inner == old(inner) + Varint.Encoded(val)
    {
      assert Varint.Shifted(val, 0) == val;
      hide Varint.Shifted;
      var v: nat := val;
      for i := 0 to Varint.MAX_LEN
        invariant Varint.Shifted(v, i) < U64 && (i == 0 || v >= 1)
        invariant inner + Varint.Encoded(v) == old(inner) + Varint.Encoded(val)
      {
        Varint.SplitGroup(v, i);
        ghost var all, before := Varint.Encoded(v), inner;
        var b := v % 128;
        v := v / 128;
        if v > 0 {
          b := b + 128;
        }
        inner := inner + [b];
        if v == 0 {
          assert all == [b];
          return;
        }
        assert before + all == inner + Varint.Encoded(v);
      }
      Varint.GroupInRange(v, Varint.MAX_LEN);
      assert false;
    }

    method WriteTag(num: nat, w: WireType)
      modifies this
      ensures inner == old(inner) + Tag(num, w)
    {
      WriteVarint(ShiftedNumber(num) + w.AsNum());
    }

    method WriteBytes(bytes: seq<Byte>)
      modifies this
      ensures inner == old(inner) + bytes
    {
      inner := inner + bytes;
    }

    method WriteFieldHead(field: Option<FieldOpt>, len: nat)
      requires len < U64
      modifies this
      ensures inner == old(inner) + TagAndLen(field, len)
    {
      if field.Some? {
        WriteTag(field.value.num, Len);
        WriteVarint(len);
      }
    }

    method WriteScalar(k: FieldKind)
      requires !k.KLen? && k.InRange()
      modifies this
      ensures inner == old(inner) + Payload(k)
    {
      match k
      case KVarint(n) => WriteVarint(n);
      case KI32(n) => WriteBytes(LittleEndian(n, 4));
      case KI64(n) => WriteBytes(LittleEndian(n, 8));
    }

    /** `encode`. Each length prefix is computed by the size builder before the bytes it announces are
        written, so the size must already be right. */
    method Encode(ty: Ty, v: Val, field: Option<FieldOpt>)
      requires WellFormed(ty) && HasType(ty, v) && |Bytes(ty, v, field)| < U64
      modifies this
      ensures inner == old(inner) + Bytes(ty, v, field)
      decreases ty, 4, 0
    {
      hide Bytes, HasType, WellFormed;
      if Scalar(ty) {
        EncodeScalar(ty, v, field);
      } else if Flat(ty) {
        EncodeFlat(ty, v, field);
      } else if ty.Repeated() {
        if field.None? { AloneCase(ty, v); }
        EncodeRepeated(ty, v, field.GetOr(FieldOpt(1, false)));
      } else {
        EncodeMessage(ty, v, field);
      }
    }

    method EncodeFlat(ty: Ty, v: Val, field: Option<FieldOpt>)
      requires WellFormed(ty) && HasType(ty, v) && Flat(ty) && |Bytes(ty, v, field)| < U64
      modifies this
      ensures inner == old(inner) + Bytes(ty, v, field)
    {
      assert v.VBytes?;
      hide Bytes, TagAndLen, HasType, WellFormed;
      FlatCase(ty, v, field);
      WriteFieldHead(field, |v.bytes|);
      WriteBytes(v.bytes);
    }

    method EncodeScalar(ty: Ty, v: Val, field: Option<FieldOpt>)
      requires WellFormed(ty) && HasType(ty, v) && Scalar(ty)
      modifies this
      ensures inner == old(inner) + Bytes(ty, v, field)
    {
      hide Bytes, Tag, Payload;
      ScalarCase(ty, v, field);
      if field.Some? { WriteTag(field.value.num, ty.Wire()); }
      WriteScalar(ScalarKind(ty, v));
    }

    method EncodeMessage(ty: Ty, v: Val, field: Option<FieldOpt>)
      requires WellFormed(ty) && HasType(ty, v) && (ty.TStruct? || ty.TOneof?) && |Bytes(ty, v, field)| < U64
      modifies this
      ensures inner == old(inner) + Bytes(ty, v, field)
      decreases ty, 3, 0
    {
      hide Bytes, Size, BytesOfFields, SizeOfFields, TagAndLen;
      FieldsCase(ty, v, field);
      FieldsSizeAgrees(ty, v);
      if field.Some? {
        var size := new SizeBuilder();
        size.FieldsSize(ty, v);
        WriteFieldHead(field, size.inner);
      }
      EncodeFields(ty, v);
      assert field.None? ==> TagAndLen(field, SizeOfFields(ty, v)) == [] by { NoHead(SizeOfFields(ty, v)); }
    }

    method EncodeRepeated(ty: Ty, v: Val, f: FieldOpt)
      requires WellFormed(ty) && ty.Repeated() && HasType(ty, v) && |Bytes(ty, v, Some(f))| < U64
      modifies this
      ensures inner == old(inner) + Bytes(ty, v, Some(f))
      decreases ty, if f.nested then 3 else 2, 0
    {
      hide Bytes, Size, BytesOfItems, SizeOfItems, TagAndLen;
      if f.nested {
        NestedCase(ty, v, f.num);
        AloneCase(ty, v);
        SizeAgrees(ty, v, None);
        var size := new SizeBuilder();
        size.RepeatedSize(ty, v, FieldOpt(1, false));
        WriteFieldHead(Some(f), size.inner);
        EncodeRepeated(ty, v, FieldOpt(1, false));
      } else if Packed(ty, v) {
        PackedCase(ty, v, f.num);
        ItemsSizeAgrees(ty, v, None, |Items(ty, v)|);
        var packed := new SizeBuilder();
        packed.ItemsSize(ty, v, None);
        WriteFieldHead(Some(f), packed.inner);
        EncodeItems(ty, v, None);
      } else {
        ExpandedCase(ty, v, f.num);
        EncodeItems(ty, v, Some(FieldOpt(f.num, true)));
      }
    }

    method EncodeItems(ty: Ty, v: Val, field: Option<FieldOpt>)
      requires WellFormed(ty) && ty.Repeated() && HasType(ty, v)
      requires |BytesOfItems(ty, v, field, |Items(ty, v)|)| < U64
      modifies this
      ensures inner == old(inner) + BytesOfItems(ty, v, field, |Items(ty, v)|)
      decreases ty, 1, 0
    {
      hide Bytes, BytesOfItems;
      assert BytesOfItems(ty, v, field, 0) == [] by { NoItems(ty, v, field); }
      var items := Items(ty, v);
      for i := 0 to |items|
        invariant inner == old(inner) + BytesOfItems(ty, v, field, i)
      {
        ItemsFit(ty, v, field, i, |items|);
        Encode(ty.elem, items[i], field);
        ItemsStep(ty, v, field, i);
      }
    }

    method EncodeFields(ty: Ty, v: Val)
      requires WellFormed(ty) && (ty.TStruct? || ty.TOneof?) && HasType(ty, v) && |BytesOfFields(ty, v)| < U64
      modifies this
      ensures inner == old(inner) + BytesOfFields(ty, v)
      decreases ty, 1, 0
    {
      hide Bytes, BytesOfFirst;
      if ty.TStruct? {
        NoFields(ty, v);
        for i := 0 to |ty.fields|
          invariant inner == old(inner) + BytesOfFirst(ty, v, i)
        {
          var f, x := ty.fields[i], v.fields[i];
          FieldsFit(ty, v, i, |ty.fields|);
          if !IsDefault(f.ty, x) {
            Encode(f.ty, x, Some(FieldOpt(f.num, false)));
          }
          FirstStep(ty, v, i);
        }
      } else {
        var num := ty.variants[v.index].num;
        if v.VUnit? {
          WriteTag(num, Len);
          WriteVarint(0);
        } else {
          Encode(ty.variants[v.index].ty, v.payload, Some(FieldOpt(num, false)));
        }
      }
    }
  }
}
