/** What encoding writes and what the size builder counts, as functions of the schema and the value. */
module Encode {
  import opened Basics
  import opened Wire
  import opened Schema
  import Varint

  /** A field to write a value into: its number, and whether it must be exactly one record. */
  datatype FieldOpt = FieldOpt(num: nat, nested: bool)

  /** The scalar types: those a single payload without length holds. */
  predicate Scalar(ty: Ty) {
    ty.Wire().CanBePacked()
  }

  predicate Flat(ty: Ty) {
    ty.TBytes? || ty.TArray?
  }

  /** The number written for a varint scalar: a signed one is extended to 64 bits. */
  function ScalarKind(ty: Ty, v: Val): (k: FieldKind)
    requires Scalar(ty) && HasType(ty, v) && WellFormed(ty)
    ensures k.InRange() && k.Type() == ty.Wire()
  {
    match ty
    case TBool => KVarint(if v.b then 1 else 0)
    case TI32 | TI64 | TU32 | TU64 => KVarint(v.n % U64)
    case TEnum(_) => KVarint(v.number)
    case TF32 => KI32(v.bits)
    case TF64 => KI64(v.bits)
  }

  /** Scalar vectors of more than one element become one packed record. */
  predicate Packed(ty: Ty, v: Val)
    requires ty.Repeated() && HasType(ty, v)
  {
    ty.TVec? && Scalar(ty.elem) && |v.items| > 1
  }

  // ---- sizes --------------------------------------------------------------------------------

  function TagAndLenSize(field: Option<FieldOpt>, len: nat): nat {
    if field.Some? then TagSize(field.value.num) + Varint.Size(len) else 0
  }

  /** What `encoded_size` adds to a size builder. */
  function Size(ty: Ty, v: Val, field: Option<FieldOpt>): nat
    requires WellFormed(ty) && HasType(ty, v)
    decreases ty, if field.Some? && field.value.nested then 3 else 2, 0
  {
    if Scalar(ty) then
      var tag := if field.Some? then TagSize(field.value.num) else 0;
      tag + ScalarSize(ScalarKind(ty, v))
    else if Flat(ty) then
      TagAndLenSize(field, |v.bytes|) + |v.bytes|
    else if ty.Repeated() then
      var f := field.GetOr(FieldOpt(1, false));
      if f.nested then
        var size := Size(ty, v, None);
        TagAndLenSize(Some(f), size) + size
      else if Packed(ty, v) then
        var size := SizeOfItems(ty, v, None, |Items(ty, v)|);
        TagAndLenSize(Some(f), size) + size
      else
        SizeOfItems(ty, v, Some(FieldOpt(f.num, true)), |Items(ty, v)|)
    else
      var size := SizeOfFields(ty, v);
      TagAndLenSize(field, size) + size
  }

  function ScalarSize(k: FieldKind): nat {
    match k
    case KVarint(n) => Varint.Size(n)
    case KI32(_) => 4
    case KI64(_) => 8
    case KLen(b) => |b|
  }

  /** The first `count` elements of a repeated value, each written into `field`. */
  function SizeOfItems(ty: Ty, v: Val, field: Option<FieldOpt>, count: nat): nat
    requires WellFormed(ty) && ty.Repeated() && HasType(ty, v) && count <= |Items(ty, v)|
    decreases ty, 1, count
  {
    if count == 0 then 0
    else SizeOfItems(ty, v, field, count - 1) + Size(ty.elem, Items(ty, v)[count - 1], field)
  }

  /** The inside of a struct, a tuple or a payload enum. */
  function SizeOfFields(ty: Ty, v: Val): nat
    requires WellFormed(ty) && (ty.TStruct? || ty.TOneof?) && HasType(ty, v)
    decreases ty, 1, 0
  {
    if ty.TStruct? then SizeOfFirst(ty, v, |ty.fields|)
    else if v.VUnit? then TagSize(ty.variants[v.index].num) + Varint.Size(0)
    else Size(ty.variants[v.index].ty, v.payload, Some(FieldOpt(ty.variants[v.index].num, false)))
  }

  /** The first `count` fields of a struct, without those that are default. */
  function SizeOfFirst(ty: Ty, v: Val, count: nat): nat
    requires WellFormed(ty) && ty.TStruct? && HasType(ty, v) && count <= |ty.fields|
    decreases ty, 0, count
  {
    if count == 0 then 0 else
    var f, x := ty.fields[count - 1], v.fields[count - 1];
    SizeOfFirst(ty, v, count - 1) + if IsDefault(f.ty, x) then 0 else Size(f.ty, x, Some(FieldOpt(f.num, false)))
  }

  // ---- bytes --------------------------------------------------------------------------------

  function TagAndLen(field: Option<FieldOpt>, len: nat): seq<Byte> {
    if field.Some? then Tag(field.value.num, Len) + Varint.Encoded(len) else []
  }

  /** What `encode` appends to the writer. The length prefixes come from the size functions. */
  function Bytes(ty: Ty, v: Val, field: Option<FieldOpt>): seq<Byte>
    requires WellFormed(ty) && HasType(ty, v)
    decreases ty, if field.Some? && field.value.nested then 3 else 2, 0
  {
    if Scalar(ty) then
      var tag := if field.Some? then Tag(field.value.num, ty.Wire()) else [];
      tag + Payload(ScalarKind(ty, v))
    else if Flat(ty) then
      TagAndLen(field, |v.bytes|) + v.bytes
    else if ty.Repeated() then
      var f := field.GetOr(FieldOpt(1, false));
      if f.nested then
        TagAndLen(Some(f), Size(ty, v, None)) + Bytes(ty, v, None)
      else if Packed(ty, v) then
        TagAndLen(Some(f), SizeOfItems(ty, v, None, |Items(ty, v)|)) + BytesOfItems(ty, v, None, |Items(ty, v)|)
      else
        BytesOfItems(ty, v, Some(FieldOpt(f.num, true)), |Items(ty, v)|)
    else
      TagAndLen(field, SizeOfFields(ty, v)) + BytesOfFields(ty, v)
  }

  function BytesOfItems(ty: Ty, v: Val, field: Option<FieldOpt>, count: nat): seq<Byte>
    requires WellFormed(ty) && ty.Repeated() && HasType(ty, v) && count <= |Items(ty, v)|
    decreases ty, 1, count
  {
    if count == 0 then []
    else BytesOfItems(ty, v, field, count - 1) + Bytes(ty.elem, Items(ty, v)[count - 1], field)
  }

  function BytesOfFields(ty: Ty, v: Val): seq<Byte>
    requires WellFormed(ty) && (ty.TStruct? || ty.TOneof?) && HasType(ty, v)
    decreases ty, 1, 0
  {
    if ty.TStruct? then BytesOfFirst(ty, v, |ty.fields|)
    else if v.VUnit? then Tag(ty.variants[v.index].num, Len) + Varint.Encoded(0)
    else Bytes(ty.variants[v.index].ty, v.payload, Some(FieldOpt(ty.variants[v.index].num, false)))
  }

  function BytesOfFirst(ty: Ty, v: Val, count: nat): seq<Byte>
    requires WellFormed(ty) && ty.TStruct? && HasType(ty, v) && count <= |ty.fields|
    decreases ty, 0, count
  {
    if count == 0 then [] else
    var f, x := ty.fields[count - 1], v.fields[count - 1];
    BytesOfFirst(ty, v, count - 1) + if IsDefault(f.ty, x) then [] else Bytes(f.ty, x, Some(FieldOpt(f.num, false)))
  }

  /** `to_vec`. */
  function ToVec(ty: Ty, v: Val): seq<Byte>
    requires WellFormed(ty) && HasType(ty, v)
  {
    Bytes(ty, v, None)
  }

  // ---- the encoder case by case -------------------------------------------------------------

  lemma ScalarCase(ty: Ty, v: Val, field: Option<FieldOpt>)
    requires WellFormed(ty) && HasType(ty, v) && Scalar(ty)
    ensures Bytes(ty, v, field) ==
            (if field.Some? then Tag(field.value.num, ty.Wire()) else []) + Payload(ScalarKind(ty, v))
    ensures Size(ty, v, field) ==
            (if field.Some? then TagSize(field.value.num) else 0) + ScalarSize(ScalarKind(ty, v))
  {
  }

  lemma FlatCase(ty: Ty, v: Val, field: Option<FieldOpt>)
    requires WellFormed(ty) && HasType(ty, v) && Flat(ty)
    ensures Bytes(ty, v, field) == TagAndLen(field, |v.bytes|) + v.bytes
    ensures Size(ty, v, field) == TagAndLenSize(field, |v.bytes|) + |v.bytes|
  {
  }

  lemma FieldsCase(ty: Ty, v: Val, field: Option<FieldOpt>)
    requires WellFormed(ty) && HasType(ty, v) && (ty.TStruct? || ty.TOneof?)
    ensures Bytes(ty, v, field) == TagAndLen(field, SizeOfFields(ty, v)) + BytesOfFields(ty, v)
    ensures Size(ty, v, field) == TagAndLenSize(field, SizeOfFields(ty, v)) + SizeOfFields(ty, v)
  {
  }

  lemma AloneCase(ty: Ty, v: Val)
    requires WellFormed(ty) && HasType(ty, v) && ty.Repeated()
    ensures Bytes(ty, v, None) == Bytes(ty, v, Some(FieldOpt(1, false)))
    ensures Size(ty, v, None) == Size(ty, v, Some(FieldOpt(1, false)))
  {
  }

  lemma NestedCase(ty: Ty, v: Val, num: nat)
    requires WellFormed(ty) && HasType(ty, v) && ty.Repeated()
    ensures Bytes(ty, v, Some(FieldOpt(num, true))) ==
            TagAndLen(Some(FieldOpt(num, true)), Size(ty, v, None)) + Bytes(ty, v, None)
    ensures Size(ty, v, Some(FieldOpt(num, true))) ==
            TagAndLenSize(Some(FieldOpt(num, true)), Size(ty, v, None)) + Size(ty, v, None)
  {
  }

  lemma PackedCase(ty: Ty, v: Val, num: nat)
    requires WellFormed(ty) && HasType(ty, v) && ty.Repeated() && Packed(ty, v)
    ensures var n := |Items(ty, v)|; var f := Some(FieldOpt(num, false));
      && Bytes(ty, v, f) == TagAndLen(f, SizeOfItems(ty, v, None, n)) + BytesOfItems(ty, v, None, n)
      && Size(ty, v, f) == TagAndLenSize(f, SizeOfItems(ty, v, None, n)) + SizeOfItems(ty, v, None, n)
  {
  }

  lemma ExpandedCase(ty: Ty, v: Val, num: nat)
    requires WellFormed(ty) && HasType(ty, v) && ty.Repeated() && !Packed(ty, v)
    ensures var n := |Items(ty, v)|; var f := Some(FieldOpt(num, true));
      && Bytes(ty, v, Some(FieldOpt(num, false))) == BytesOfItems(ty, v, f, n)
      && Size(ty, v, Some(FieldOpt(num, false))) == SizeOfItems(ty, v, f, n)
  {
  }

  // ---- one step of each loop ----------------------------------------------------------------

  lemma NoItems(ty: Ty, v: Val, field: Option<FieldOpt>)
    requires WellFormed(ty) && ty.Repeated() && HasType(ty, v)
    ensures BytesOfItems(ty, v, field, 0) == []
  {
  }

  lemma NoFields(ty: Ty, v: Val)
    requires WellFormed(ty) && ty.TStruct? && HasType(ty, v)
    ensures BytesOfFirst(ty, v, 0) == []
  {
  }

  lemma ItemsStep(ty: Ty, v: Val, field: Option<FieldOpt>, i: nat)
    requires WellFormed(ty) && ty.Repeated() && HasType(ty, v) && i < |Items(ty, v)|
    ensures BytesOfItems(ty, v, field, i + 1) ==
            BytesOfItems(ty, v, field, i) + Bytes(ty.elem, Items(ty, v)[i], field)
  {
    hide Bytes;
  }

  lemma {:induction false} ItemsFit(ty: Ty, v: Val, field: Option<FieldOpt>, i: nat, count: nat)
    requires WellFormed(ty) && ty.Repeated() && HasType(ty, v) && i < count <= |Items(ty, v)|
    ensures |BytesOfItems(ty, v, field, i)| + |Bytes(ty.elem, Items(ty, v)[i], field)| <=
            |BytesOfItems(ty, v, field, count)|
    decreases count
  {
    hide Bytes, BytesOfItems;
    ItemsStep(ty, v, field, count - 1);
    if i + 1 < count { ItemsFit(ty, v, field, i, count - 1); }
  }

  /** What a struct writes for one of its fields. */
  function BytesOfField(f: FieldTy, x: Val): seq<Byte>
    requires WellFormed(f.ty) && HasType(f.ty, x)
  {
    if IsDefault(f.ty, x) then [] else Bytes(f.ty, x, Some(FieldOpt(f.num, false)))
  }

  lemma FirstStep(ty: Ty, v: Val, i: nat)
    requires WellFormed(ty) && ty.TStruct? && HasType(ty, v) && i < |ty.fields|
    ensures BytesOfFirst(ty, v, i + 1) == BytesOfFirst(ty, v, i) + BytesOfField(ty.fields[i], v.fields[i])
  {
    hide Bytes;
  }

  lemma {:induction false} FieldsFit(ty: Ty, v: Val, i: nat, count: nat)
    requires WellFormed(ty) && ty.TStruct? && HasType(ty, v) && i < count <= |ty.fields|
    ensures |BytesOfField(ty.fields[i], v.fields[i])| <= |BytesOfFirst(ty, v, count)|
    decreases count
  {
    hide BytesOfField, BytesOfFirst;
    FirstStep(ty, v, count - 1);
    if i + 1 < count { FieldsFit(ty, v, i, count - 1); }
  }

  // ---- size agreement -----------------------------------------------------------------------

  /** For every value and every way of writing it, the size builder counts exactly the bytes written. */
  lemma {:induction false} SizeAgrees(ty: Ty, v: Val, field: Option<FieldOpt>)
    requires WellFormed(ty) && HasType(ty, v)
    ensures Size(ty, v, field) == |Bytes(ty, v, field)|
    decreases ty, if field.Some? && field.value.nested then 3 else 2, 0
  {
    hide Bytes, Size, BytesOfItems, SizeOfItems, BytesOfFields, SizeOfFields;
    if Scalar(ty) {
      ScalarCase(ty, v, field);
      ScalarSizeAgrees(ScalarKind(ty, v));
      if field.Some? { TagSizeIsLength(field.value.num, ty.Wire()); }
    } else if Flat(ty) {
      FlatCase(ty, v, field);
      TagAndLenAgrees(field, |v.bytes|);
    } else if ty.Repeated() {
      var f := field.GetOr(FieldOpt(1, false));
      if field.None? { AloneCase(ty, v); }
      if f.nested {
        NestedCase(ty, v, f.num);
        SizeAgrees(ty, v, None);
        TagAndLenAgrees(Some(f), Size(ty, v, None));
      } else if Packed(ty, v) {
        PackedCase(ty, v, f.num);
        ItemsSizeAgrees(ty, v, None, |Items(ty, v)|);
        TagAndLenAgrees(Some(f), SizeOfItems(ty, v, None, |Items(ty, v)|));
      } else {
        ExpandedCase(ty, v, f.num);
        ItemsSizeAgrees(ty, v, Some(FieldOpt(f.num, true)), |Items(ty, v)|);
      }
    } else {
      FieldsCase(ty, v, field);
      FieldsSizeAgrees(ty, v);
      TagAndLenAgrees(field, SizeOfFields(ty, v));
    }
  }

  lemma ScalarSizeAgrees(k: FieldKind)
    requires !k.KLen?
    ensures ScalarSize(k) == |Payload(k)|
  {
    if k.KVarint? { Varint.SizeIsLength(k.num); }
  }

  lemma TagAndLenAgrees(field: Option<FieldOpt>, len: nat)
    ensures TagAndLenSize(field, len) == |TagAndLen(field, len)|
  {
    if field.Some? {
      TagSizeIsLength(field.value.num, Len);
      Varint.SizeIsLength(len);
    }
  }

  lemma {:induction false} ItemsSizeAgrees(ty: Ty, v: Val, field: Option<FieldOpt>, count: nat)
    requires WellFormed(ty) && ty.Repeated() && HasType(ty, v) && count <= |Items(ty, v)|
    ensures SizeOfItems(ty, v, field, count) == |BytesOfItems(ty, v, field, count)|
    decreases ty, 1, count
  {
    hide Bytes, Size;
    if count > 0 {
      ItemsSizeAgrees(ty, v, field, count - 1);
      SizeAgrees(ty.elem, Items(ty, v)[count - 1], field);
    }
  }

  lemma {:induction false} FieldsSizeAgrees(ty: Ty, v: Val)
    requires WellFormed(ty) && (ty.TStruct? || ty.TOneof?) && HasType(ty, v)
    ensures SizeOfFields(ty, v) == |BytesOfFields(ty, v)|
    decreases ty, 1, 0
  {
    hide Bytes, Size, BytesOfFirst, SizeOfFirst;
    if ty.TStruct? {
      FirstSizeAgrees(ty, v, |ty.fields|);
    } else {
      TagAndLenAgrees(Some(FieldOpt(ty.variants[v.index].num, false)), 0);
      if v.VCarrying? {
        SizeAgrees(ty.variants[v.index].ty, v.payload, Some(FieldOpt(ty.variants[v.index].num, false)));
      }
    }
  }

  lemma {:induction false} FirstSizeAgrees(ty: Ty, v: Val, count: nat)
    requires WellFormed(ty) && ty.TStruct? && HasType(ty, v) && count <= |ty.fields|
    ensures SizeOfFirst(ty, v, count) == |BytesOfFirst(ty, v, count)|
    decreases ty, 0, count
  {
    hide Bytes, Size;
    if count > 0 {
      var f, x := ty.fields[count - 1], v.fields[count - 1];
      FirstSizeAgrees(ty, v, count - 1);
      if !IsDefault(f.ty, x) {
        SizeAgrees(f.ty, x, Some(FieldOpt(f.num, false)));
      }
    }
  }

  // ---- the records of an encoding -----------------------------------------------------------

  /** The payload of a value that is exactly one record. */
  function KindOf(ty: Ty, v: Val): FieldKind
    requires WellFormed(ty) && HasType(ty, v)
  {
    if Scalar(ty) then ScalarKind(ty, v) else if Flat(ty) then KLen(v.bytes) else KLen(Bytes(ty, v, None))
  }

  function KindsOfItems(ty: Ty, v: Val, count: nat): (r: seq<FieldKind>)
    requires WellFormed(ty) && ty.Repeated() && HasType(ty, v) && count <= |Items(ty, v)|
    ensures |r| == count
    ensures forall i :: 0 <= i < count ==> r[i] == KindOf(ty.elem, Items(ty, v)[i])
  {
    if count == 0 then [] else KindsOfItems(ty, v, count - 1) + [KindOf(ty.elem, Items(ty, v)[count - 1])]
  }

  /** The payloads of a value that may be any number of records. */
  function KindsOf(ty: Ty, v: Val): seq<FieldKind>
    requires WellFormed(ty) && HasType(ty, v)
  {
    if !ty.Repeated() then [KindOf(ty, v)]
    else if Packed(ty, v) then [KLen(Payloads(KindsOfItems(ty, v, |Items(ty, v)|)))]
    else KindsOfItems(ty, v, |Items(ty, v)|)
  }

  lemma LenRecord(num: nat, b: seq<Byte>)
    ensures TagAndLen(Some(FieldOpt(num, true)), |b|) + b == Record(num, KLen(b))
    ensures TagAndLen(Some(FieldOpt(num, false)), |b|) + b == Record(num, KLen(b))
  {
  }

  lemma OneRecord(num: nat, k: FieldKind)
    ensures Records(num, [k]) == Record(num, k)
  {
    hide Record;
    assert [k][1..] == [];
  }

  lemma RepeatedIsOneRecord(ty: Ty, v: Val, num: nat)
    requires WellFormed(ty) && HasType(ty, v) && ty.Repeated()
    ensures Bytes(ty, v, Some(FieldOpt(num, true))) == Record(num, KindOf(ty, v))
  {
    NestedCase(ty, v, num);
    SizeAgrees(ty, v, None);
    hide Bytes, Size, HasType, WellFormed, Record, TagAndLen;
    LenRecord(num, Bytes(ty, v, None));
  }

  lemma MessageIsOneRecord(ty: Ty, v: Val, num: nat, nested: bool)
    requires WellFormed(ty) && HasType(ty, v) && (ty.TStruct? || ty.TOneof?)
    ensures Bytes(ty, v, Some(FieldOpt(num, nested))) == Record(num, KindOf(ty, v))
  {
    FieldsCase(ty, v, Some(FieldOpt(num, nested)));
    FieldsCase(ty, v, None);
    FieldsSizeAgrees(ty, v);
    var inside := BytesOfFields(ty, v);
    LenRecord(num, inside);
    assert TagAndLen(None, SizeOfFields(ty, v)) == [];
    hide Bytes, BytesOfFields, SizeOfFields, HasType, WellFormed, Record, TagAndLen;
    assert [] + inside == inside;
  }

  /** A nested encoding is exactly one record, and so is every encoding of a type that does not repeat. */
  lemma NestedIsOneRecord(ty: Ty, v: Val, num: nat, nested: bool)
    requires WellFormed(ty) && HasType(ty, v)
    requires nested || !ty.Repeated()
    ensures Bytes(ty, v, Some(FieldOpt(num, nested))) == Record(num, KindOf(ty, v))
  {
    assert Flat(ty) ==> v.VBytes?;
    hide Bytes, HasType, WellFormed;
    var field := Some(FieldOpt(num, nested));
    if Scalar(ty) {
      ScalarCase(ty, v, field);
    } else if Flat(ty) {
      FlatCase(ty, v, field);
      LenRecord(num, v.bytes);
    } else if ty.Repeated() {
      RepeatedIsOneRecord(ty, v, num);
    } else {
      MessageIsOneRecord(ty, v, num, nested);
    }
  }

  lemma {:induction false} ItemsAreRecords(ty: Ty, v: Val, num: nat, count: nat)
    requires WellFormed(ty) && ty.Repeated() && HasType(ty, v) && count <= |Items(ty, v)|
    ensures BytesOfItems(ty, v, Some(FieldOpt(num, true)), count) == Records(num, KindsOfItems(ty, v, count))
    decreases count
  {
    hide Bytes, Record, KindOf, HasType;
    if count > 0 {
      var x, before := Items(ty, v)[count - 1], KindsOfItems(ty, v, count - 1);
      ItemsAreRecords(ty, v, num, count - 1);
      NestedIsOneRecord(ty.elem, x, num, true);
      hide Items, Records;
      RecordsOfConcat(num, before, [KindOf(ty.elem, x)]);
      OneRecord(num, KindOf(ty.elem, x));
    }
  }

  lemma ScalarBytes(ty: Ty, v: Val)
    requires WellFormed(ty) && Scalar(ty) && HasType(ty, v)
    ensures Bytes(ty, v, None) == Payload(KindOf(ty, v))
  {
    ScalarCase(ty, v, None);
  }

  lemma {:induction false} ItemsArePayloads(ty: Ty, v: Val, count: nat)
    requires WellFormed(ty) && ty.Repeated() && Scalar(ty.elem) && HasType(ty, v) && count <= |Items(ty, v)|
    ensures BytesOfItems(ty, v, None, count) == Payloads(KindsOfItems(ty, v, count))
    decreases count
  {
    hide Bytes, Payload;
    if count > 0 {
      var x := Items(ty, v)[count - 1];
      ItemsArePayloads(ty, v, count - 1);
      ScalarBytes(ty.elem, x);
      PayloadsOfConcat(KindsOfItems(ty, v, count - 1), [KindOf(ty.elem, x)]);
      assert Payloads([KindOf(ty.elem, x)]) == Payload(KindOf(ty.elem, x));
    }
  }

  /** An encoding that is not nested is a run of records with the number of the field. */
  lemma FieldIsRecords(ty: Ty, v: Val, num: nat)
    requires WellFormed(ty) && HasType(ty, v)
    ensures Bytes(ty, v, Some(FieldOpt(num, false))) == Records(num, KindsOf(ty, v))
  {
    hide Bytes, Record, KindOf;
    if !ty.Repeated() {
      NestedIsOneRecord(ty, v, num, false);
      assert Records(num, [KindOf(ty, v)]) == Record(num, KindOf(ty, v));
    } else if Packed(ty, v) {
      PackedCase(ty, v, num);
      ItemsArePayloads(ty, v, |Items(ty, v)|);
      ItemsSizeAgrees(ty, v, None, |Items(ty, v)|);
      var inside := Payloads(KindsOfItems(ty, v, |Items(ty, v)|));
      LenRecord(num, inside);
      assert Records(num, [KLen(inside)]) == Record(num, KLen(inside));
    } else {
      ExpandedCase(ty, v, num);
      ItemsAreRecords(ty, v, num, |Items(ty, v)|);
    }
  }

  /** Standing alone, a repeated value is a message whose field 1 holds it. */
  lemma RepeatedRootIsFieldOne(ty: Ty, v: Val)
    requires WellFormed(ty) && ty.Repeated() && HasType(ty, v)
    ensures Bytes(ty, v, None) == Records(1, KindsOf(ty, v))
  {
    AloneCase(ty, v);
    FieldIsRecords(ty, v, 1);
  }
}
