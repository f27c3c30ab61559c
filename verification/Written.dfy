/** What is on the wire: which fields of a struct are written and in which order, how scalars look, and how elements
    are packed. */
module Written {
  import opened Basics
  import opened Wire
  import opened Schema
  import opened Encode
  import opened Decode
  import opened RoundTrip
  import opened MessageLaws
  import Varint

  // ---- which fields are written -------------------------------------------------------------

  /** A field that holds what decoding starts from, or negative zero. Structs, payload enums and arrays with elements
      are never left out. */
  predicate LeftOut(ty: Ty, v: Val)
    requires WellFormed(ty) && HasType(ty, v)
  {
    if ty.TStruct? || ty.TOneof? || (ty.TArray? && ty.len > 0) then false
    else v == Default(ty) || NegativeZero(ty, v)
  }

  lemma LeftOutIsDefault(ty: Ty, v: Val)
    requires WellFormed(ty) && HasType(ty, v)
    ensures LeftOut(ty, v) <==> IsDefault(ty, v)
  {
  }

  /** What a field writes. */
  function FieldRecords(f: FieldTy, x: Val): seq<Byte>
    requires WellFormed(f.ty) && HasType(f.ty, x)
  {
    if LeftOut(f.ty, x) then [] else Records(f.num, KindsOf(f.ty, x))
  }

  /** The fields of a struct from the i-th one on, in their order. */
  function FieldsFrom(ty: Ty, v: Val, i: nat): seq<Byte>
    requires WellFormed(ty) && ty.TStruct? && HasType(ty, v) && i <= |ty.fields|
    decreases |ty.fields| - i
  {
    if i == |ty.fields| then [] else FieldRecords(ty.fields[i], v.fields[i]) + FieldsFrom(ty, v, i + 1)
  }

  lemma FieldWritten(f: FieldTy, x: Val)
    requires WellFormed(f.ty) && HasType(f.ty, x)
    ensures BytesOfField(f, x) == FieldRecords(f, x)
  {
    hide Bytes, KindsOf, Records, LeftOut, IsDefault;
    LeftOutIsDefault(f.ty, x);
    FieldIsRecords(f.ty, x, f.num);
  }

  lemma FieldTyped(ty: Ty, v: Val, i: nat)
    requires WellFormed(ty) && ty.TStruct? && HasType(ty, v) && i < |ty.fields|
    ensures v.VStruct? && |v.fields| == |ty.fields|
    ensures ty.fields[i].num < U61 && WellFormed(ty.fields[i].ty) && HasType(ty.fields[i].ty, v.fields[i])
  {
  }

  lemma FromStep(ty: Ty, v: Val, i: nat)
    requires WellFormed(ty) && ty.TStruct? && HasType(ty, v) && i < |ty.fields|
    ensures FieldsFrom(ty, v, i) == FieldRecords(ty.fields[i], v.fields[i]) + FieldsFrom(ty, v, i + 1)
  {
    hide FieldRecords;
  }

  lemma NoMoreFields(ty: Ty, v: Val)
    requires WellFormed(ty) && ty.TStruct? && HasType(ty, v)
    ensures FieldsFrom(ty, v, |ty.fields|) == []
  {
  }

  lemma Regroup(a: seq<Byte>, b: seq<Byte>, c: seq<Byte>)
    ensures (a + b) + c == a + (b + c)
  {
  }

  lemma {:induction false} FirstAndRest(ty: Ty, v: Val, i: nat)
    requires WellFormed(ty) && ty.TStruct? && HasType(ty, v) && i <= |ty.fields|
    ensures BytesOfFirst(ty, v, i) + FieldsFrom(ty, v, i) == FieldsFrom(ty, v, 0)
  {
    if i == 0 {
      NoFields(ty, v);
      hide BytesOfFirst, FieldsFrom;
      assert [] + FieldsFrom(ty, v, 0) == FieldsFrom(ty, v, 0);
    } else {
      FieldTyped(ty, v, i - 1);
      hide HasType, WellFormed, FieldRecords, FieldsFrom, BytesOfFirst, BytesOfField;
      FirstAndRest(ty, v, i - 1);
      FirstStep(ty, v, i - 1);
      FieldWritten(ty.fields[i - 1], v.fields[i - 1]);
      FromStep(ty, v, i - 1);
      Regroup(BytesOfFirst(ty, v, i - 1), FieldRecords(ty.fields[i - 1], v.fields[i - 1]), FieldsFrom(ty, v, i));
    }
  }

  lemma StructBytes(ty: Ty, v: Val)
    requires WellFormed(ty) && ty.TStruct? && HasType(ty, v)
    ensures ToVec(ty, v) == BytesOfFirst(ty, v, |ty.fields|)
  {
    FieldsCase(ty, v, None);
    hide Bytes, BytesOfFirst;
    assert [] + BytesOfFirst(ty, v, |ty.fields|) == BytesOfFirst(ty, v, |ty.fields|);
  }

  /** A struct is written as the records of its fields, in order, without those that are left out. */
  lemma StructIsItsFields(ty: Ty, v: Val)
    requires WellFormed(ty) && ty.TStruct? && HasType(ty, v)
    ensures ToVec(ty, v) == FieldsFrom(ty, v, 0)
  {
    hide HasType, WellFormed, ToVec, BytesOfFirst, FieldsFrom;
    StructBytes(ty, v);
    FirstAndRest(ty, v, |ty.fields|);
    NoMoreFields(ty, v);
  }

  // ---- and which are not --------------------------------------------------------------------

  lemma {:induction false} AvoidsConcat(a: seq<Byte>, b: seq<Byte>, num: nat)
    requires Whole(a)
    ensures Avoids(a + b, num) <==> Avoids(a, num) && Avoids(b, num)
    ensures Whole(a + b) <==> Whole(b)
    decreases |a|
  {
    if a == [] {
      assert a + b == b;
    } else {
      NextFieldExtends(a, b);
      AvoidsConcat(NextField(a).value.rest, b, num);
    }
  }

  lemma {:induction false} RecordsAvoid(n: nat, ks: seq<FieldKind>, num: nat)
    requires n < U61 && AllInRange(ks)
    ensures Whole(Records(n, ks)) && (Avoids(Records(n, ks), num) <==> ks == [] || n != num)
  {
    hide Record;
    if ks != [] {
      NextFieldOfRecord(n, ks[0], Records(n, ks[1..]));
      RecordsAvoid(n, ks[1..], num);
    }
  }

  lemma SomeItems(ty: Ty, v: Val)
    requires WellFormed(ty) && HasType(ty, v) && ty.Repeated() && v != Default(ty)
    ensures Items(ty, v) != []
  {
  }

  /** Whatever is not left out writes a record. */
  lemma KeptIsWritten(ty: Ty, v: Val)
    requires WellFormed(ty) && HasType(ty, v) && !LeftOut(ty, v)
    ensures KindsOf(ty, v) != []
  {
    if ty.Repeated() { SomeItems(ty, v); }
    hide KindOf, HasType, WellFormed, Items, LeftOut, Packed;
  }

  lemma FieldAvoids(f: FieldTy, x: Val, num: nat)
    requires WellFormed(f.ty) && HasType(f.ty, x) && f.num < U61 && |FieldRecords(f, x)| < U64
    ensures Whole(FieldRecords(f, x))
    ensures Avoids(FieldRecords(f, x), num) <==> f.num != num || LeftOut(f.ty, x)
    ensures FieldRecords(f, x) == [] <==> LeftOut(f.ty, x)
  {
    hide HasType, WellFormed, LeftOut, KindsOf;
    if !LeftOut(f.ty, x) {
      KindsInRange(f.ty, x);
      KeptIsWritten(f.ty, x);
      hide Records;
      RecordsInRange(f.num, KindsOf(f.ty, x));
      RecordsAvoid(f.num, KindsOf(f.ty, x), num);
      assert |Records(f.num, KindsOf(f.ty, x))| >= 2;
    }
  }

  lemma AvoidStep(ty: Ty, v: Val, i: nat, num: nat)
    requires WellFormed(ty) && ty.TStruct? && HasType(ty, v) && i < |ty.fields| && |FieldsFrom(ty, v, i)| < U64
    ensures |FieldsFrom(ty, v, i + 1)| < U64
    ensures Avoids(FieldsFrom(ty, v, i), num) <==>
            (ty.fields[i].num != num || LeftOut(ty.fields[i].ty, v.fields[i])) && Avoids(FieldsFrom(ty, v, i + 1), num)
  {
    FieldTyped(ty, v, i);
    hide HasType, WellFormed, FieldRecords, FieldsFrom, LeftOut, Avoids, Whole;
    FromStep(ty, v, i);
    FieldAvoids(ty.fields[i], v.fields[i], num);
    AvoidsConcat(FieldRecords(ty.fields[i], v.fields[i]), FieldsFrom(ty, v, i + 1), num);
  }

  lemma NumbersDiffer(ty: Ty, i: nat, j: nat)
    requires WellFormed(ty) && ty.TStruct? && i < |ty.fields| && j < |ty.fields|
    ensures ty.fields[i].num == ty.fields[j].num <==> i == j
  {
  }

  lemma NothingAvoids(num: nat)
    ensures Avoids([], num)
  {
  }

  lemma {:induction false} FieldsAvoid(ty: Ty, v: Val, i: nat, j: nat)
    requires WellFormed(ty) && ty.TStruct? && HasType(ty, v) && i <= |ty.fields| && |FieldsFrom(ty, v, i)| < U64
    requires j < |ty.fields|
    ensures Avoids(FieldsFrom(ty, v, i), ty.fields[j].num) <==> j < i || LeftOut(ty.fields[j].ty, v.fields[j])
    decreases |ty.fields| - i
  {
    hide HasType, WellFormed, FieldRecords, FieldsFrom, LeftOut, Avoids;
    if i < |ty.fields| {
      NumbersDiffer(ty, i, j);
      AvoidStep(ty, v, i, ty.fields[j].num);
      FieldsAvoid(ty, v, i + 1, j);
    } else {
      NoMoreFields(ty, v);
      NothingAvoids(ty.fields[j].num);
    }
  }

  /** A struct has no record of a field if and only if the field is left out. */
  lemma WrittenUnlessLeftOut(ty: Ty, v: Val, i: nat)
    requires WellFormed(ty) && ty.TStruct? && HasType(ty, v) && |ToVec(ty, v)| < U64 && i < |ty.fields|
    ensures Avoids(ToVec(ty, v), ty.fields[i].num) <==> LeftOut(ty.fields[i].ty, v.fields[i])
  {
    FieldTyped(ty, v, i);
    hide HasType, WellFormed, FieldsFrom, LeftOut, ToVec, Avoids;
    StructIsItsFields(ty, v);
    FieldsAvoid(ty, v, 0, i);
  }

  predicate AllLeftOut(ty: Ty, v: Val, i: nat)
    requires WellFormed(ty) && ty.TStruct? && HasType(ty, v)
  {
    forall j :: i <= j < |ty.fields| ==> LeftOut(ty.fields[j].ty, v.fields[j])
  }

  lemma EmptyField(f: FieldTy, x: Val)
    requires WellFormed(f.ty) && HasType(f.ty, x)
    ensures FieldRecords(f, x) == [] <==> LeftOut(f.ty, x)
  {
    hide HasType, WellFormed, LeftOut, KindsOf, Records;
    if !LeftOut(f.ty, x) { KeptIsWritten(f.ty, x); }
  }

  lemma AllLeftOutStep(ty: Ty, v: Val, i: nat)
    requires WellFormed(ty) && ty.TStruct? && HasType(ty, v) && i < |ty.fields|
    ensures AllLeftOut(ty, v, i) <==> LeftOut(ty.fields[i].ty, v.fields[i]) && AllLeftOut(ty, v, i + 1)
  {
    hide LeftOut, HasType, WellFormed;
  }

  lemma EmptySum(a: seq<Byte>, b: seq<Byte>)
    ensures a + b == [] <==> a == [] && b == []
  {
    assert |a + b| == |a| + |b|;
  }

  lemma NothingStep(ty: Ty, v: Val, i: nat)
    requires WellFormed(ty) && ty.TStruct? && HasType(ty, v) && i < |ty.fields|
    ensures FieldsFrom(ty, v, i) == [] <==> LeftOut(ty.fields[i].ty, v.fields[i]) && FieldsFrom(ty, v, i + 1) == []
  {
    FieldTyped(ty, v, i);
    hide HasType, WellFormed, FieldRecords, FieldsFrom, LeftOut;
    FromStep(ty, v, i);
    EmptyField(ty.fields[i], v.fields[i]);
    EmptySum(FieldRecords(ty.fields[i], v.fields[i]), FieldsFrom(ty, v, i + 1));
  }

  lemma NothingLeft(ty: Ty, v: Val)
    requires WellFormed(ty) && ty.TStruct? && HasType(ty, v)
    ensures FieldsFrom(ty, v, |ty.fields|) == [] && AllLeftOut(ty, v, |ty.fields|)
  {
    hide LeftOut;
  }

  lemma {:induction false} NothingFrom(ty: Ty, v: Val, i: nat)
    requires WellFormed(ty) && ty.TStruct? && HasType(ty, v) && i <= |ty.fields|
    ensures FieldsFrom(ty, v, i) == [] <==> AllLeftOut(ty, v, i)
    decreases |ty.fields| - i
  {
    hide HasType, WellFormed, FieldRecords, FieldsFrom, LeftOut, AllLeftOut;
    if i < |ty.fields| {
      AllLeftOutStep(ty, v, i);
      NothingStep(ty, v, i);
      NothingFrom(ty, v, i + 1);
    } else {
      NothingLeft(ty, v);
    }
  }

  /** A struct is written as nothing at all if and only if all its fields are left out. */
  lemma DefaultsWriteNothing(ty: Ty, v: Val)
    requires WellFormed(ty) && ty.TStruct? && HasType(ty, v)
    ensures ToVec(ty, v) == [] <==> AllLeftOut(ty, v, 0)
  {
    hide HasType, WellFormed, FieldsFrom, AllLeftOut, ToVec;
    StructIsItsFields(ty, v);
    NothingFrom(ty, v, 0);
  }

  // ---- scalars ------------------------------------------------------------------------------

  lemma CutOfTwos(n: int)
    requires -U63 <= n < U64
    ensures n % U64 == if n < 0 then U64 + n else n
  {
  }

  predicate ReadAs(ty: Ty, k: FieldKind, n: int)
    requires Scalar(ty) && WellFormed(ty) && k.InRange()
  {
    MergeScalar(ty, k) == Ok(VInt(n))
  }

  /** Integer types share their numbers: what is written for one is read as the same number by every wider one, and
      what is written for a bool or an enum is its number. */
  lemma NumbersAreShared(ty: Ty, v: Val)
    requires WellFormed(ty) && HasType(ty, v) && Scalar(ty)
    ensures var k := ScalarKind(ty, v);
      && (ty.TI32? ==> ReadAs(TI64, k, v.n))
      && (ty.TU32? ==> ReadAs(TU64, k, v.n) && ReadAs(TI64, k, v.n))
      && ((ty.TI32? || ty.TI64?) && v.n >= 0 ==> ReadAs(TU64, k, v.n))
      && (ty.TBool? ==> ReadAs(TU32, k, if v.b then 1 else 0))
      && (ty.TEnum? ==> ReadAs(TI32, k, v.number))
  {
    if v.VInt? { CutOfTwos(v.n); }
  }

  lemma TenBytes(n: nat)
    requires U63 <= n < U64
    ensures |Varint.Encoded(n)| == 10
  {
    Varint.WeightTable();
    Varint.LongerThan(n, 9);
    Varint.AtMostTen(n);
  }

  /** A negative number takes ten bytes, whatever its type. */
  lemma NegativesTakeTen(ty: Ty, v: Val)
    requires (ty.TI32? || ty.TI64?) && HasType(ty, v) && v.n < 0
    ensures |ToVec(ty, v)| == 10
  {
    CutOfTwos(v.n);
    ScalarCase(ty, v, None);
    TenBytes(U64 + v.n);
  }

  /** A variant without a payload is an empty record. */
  lemma UnitIsEmptyRecord(ty: Ty, i: nat)
    requires WellFormed(ty) && ty.TOneof? && i < |ty.variants| && ty.variants[i].Unit?
    ensures ToVec(ty, VUnit(i)) == Record(ty.variants[i].num, KLen([]))
  {
    FieldsCase(ty, VUnit(i), None);
    hide Bytes;
    assert BytesOfFields(ty, VUnit(i)) == Tag(ty.variants[i].num, Len) + Varint.Encoded(0);
  }

  /** A variant with a payload is the records of the payload. */
  lemma PayloadIsField(ty: Ty, i: nat, x: Val)
    requires WellFormed(ty) && ty.TOneof? && HasType(ty, VCarrying(i, x))
    ensures ToVec(ty, VCarrying(i, x)) == Records(ty.variants[i].num, KindsOf(ty.variants[i].ty, x))
  {
    FieldsCase(ty, VCarrying(i, x), None);
    FieldIsRecords(ty.variants[i].ty, x, ty.variants[i].num);
    hide Bytes, Records, KindsOf;
  }

  // ---- elements -----------------------------------------------------------------------------

  /** The payloads of the elements of a repeated value. */
  function Elements(ty: Ty, v: Val): (r: seq<FieldKind>)
    requires WellFormed(ty) && ty.Repeated() && HasType(ty, v)
    ensures |r| == |Items(ty, v)| && forall i :: 0 <= i < |r| ==> r[i] == KindOf(ty.elem, Items(ty, v)[i])
  {
    KindsOfItems(ty, v, |Items(ty, v)|)
  }

  /** From two elements on, a vector of scalars is one packed record; one element is a record of its own, and everything
      else that repeats is one record for each element. */
  lemma VectorsArePacked(ty: Ty, v: Val, num: nat)
    requires WellFormed(ty) && ty.Repeated() && HasType(ty, v)
    ensures var ks := Elements(ty, v);
      Bytes(ty, v, Some(FieldOpt(num, false))) ==
      if ty.TVec? && Scalar(ty.elem) && |ks| >= 2 then Record(num, KLen(Payloads(ks))) else Records(num, ks)
  {
    FieldIsRecords(ty, v, num);
    hide Bytes, KindsOfItems, Record, Payloads;
    OneRecord(num, KLen(Payloads(Elements(ty, v))));
  }
}
