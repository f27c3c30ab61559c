/** What decoding makes of an encoded value, for every schema and every value. */
module RoundTrip {
  import opened Basics
  import opened Wire
  import opened Schema
  import opened Encode
  import opened Decode

  /** Payloads that write no record at all: an empty vector, an empty map, and None. */
  predicate WritesNothing(ty: Ty, v: Val)
    requires WellFormed(ty) && HasType(ty, v)
  {
    ty.Repeated() && Items(ty, v) == []
  }

  function InsertAll(es: seq<Val>, xs: seq<Val>): (r: seq<Val>)
    requires DistinctKeys(es)
    ensures DistinctKeys(r)
    ensures forall i :: 0 <= i < |r| ==> r[i] in es || r[i] in xs
    decreases |xs|
  {
    if xs == [] then es else InsertAll(Insert(es, xs[0]), xs[1..])
  }

  /** The map that inserting entries one after the other makes. */
  function MapOf(ty: Ty, xs: seq<Val>): (r: Val)
    requires WellFormed(ty) && ty.TMap? && forall i :: 0 <= i < |xs| ==> HasType(ty.elem, xs[i])
    ensures HasType(ty, r)
  {
    VMap(InsertAll([], xs))
  }

  /** The value that comes back. It differs from the value written in two places only: a float field of a
      struct holding negative zero comes back as zero, and a variant that is not the default one but whose
      payload writes nothing comes back as the default variant. */
  function Normal(ty: Ty, v: Val): (r: Val)
    requires WellFormed(ty) && HasType(ty, v)
    ensures HasType(ty, r)
    decreases ty, 1, 0
  {
    match ty
    case TVec(e) => VList(NormalItems(ty, v, |v.items|))
    case TOption(e) => if v.VNone? then v else VSome(Normal(e, v.inner))
    case TMap(e) => MapOf(ty, NormalItems(ty, v, |v.entries|))
    case TStruct(fs) => VStruct(NormalFields(ty, v, |fs|))
    case TOneof(vs, d) =>
      if v.VUnit? then v
      else if v.index != d && WritesNothing(vs[v.index].ty, v.payload) then Default(ty)
      else VCarrying(v.index, Normal(vs[v.index].ty, v.payload))
    case _ => v
  }

  function NormalField(ty: Ty, v: Val): (r: Val)
    requires WellFormed(ty) && HasType(ty, v)
    ensures HasType(ty, r)
    decreases ty, 2, 0
  {
    if IsDefault(ty, v) then Default(ty) else Normal(ty, v)
  }

  function NormalFields(ty: Ty, v: Val, count: nat): (r: seq<Val>)
    requires WellFormed(ty) && ty.TStruct? && HasType(ty, v) && count <= |ty.fields|
    ensures |r| == count
    ensures forall i :: 0 <= i < count ==> r[i] == NormalField(ty.fields[i].ty, v.fields[i])
    ensures forall i :: 0 <= i < count ==> HasType(ty.fields[i].ty, r[i])
    decreases ty, 0, count
  {
    if count == 0 then [] else
    NormalFields(ty, v, count - 1) + [NormalField(ty.fields[count - 1].ty, v.fields[count - 1])]
  }

  function NormalItems(ty: Ty, v: Val, count: nat): (r: seq<Val>)
    requires WellFormed(ty) && ty.Repeated() && HasType(ty, v) && count <= |Items(ty, v)|
    ensures |r| == count
    ensures forall i :: 0 <= i < count ==> r[i] == Normal(ty.elem, Items(ty, v)[i])
    decreases ty, 0, count
  {
    if count == 0 then [] else NormalItems(ty, v, count - 1) + [Normal(ty.elem, Items(ty, v)[count - 1])]
  }

  // ---- ranges -------------------------------------------------------------------------------

  /** A run of records shorter than 2^64 bytes has every length prefix in range. */
  lemma {:induction false} RecordsInRange(num: nat, ks: seq<FieldKind>)
    requires |Records(num, ks)| < U64
    requires forall i :: 0 <= i < |ks| ==> ks[i].KLen? || ks[i].InRange()
    ensures AllInRange(ks)
  {
    if ks != [] {
      RecordsInRange(num, ks[1..]);
      assert |Payload(ks[0])| < U64;
      assert forall i :: 1 <= i < |ks| ==> ks[i] == ks[1..][i - 1];
    }
  }

  lemma KindsInRange(ty: Ty, v: Val)
    requires WellFormed(ty) && HasType(ty, v)
    ensures forall i :: 0 <= i < |KindsOf(ty, v)| ==> KindsOf(ty, v)[i].KLen? || KindsOf(ty, v)[i].InRange()
  {
    hide Bytes;
  }

  lemma FieldInRange(ty: Ty, v: Val, num: nat)
    requires WellFormed(ty) && HasType(ty, v)
    requires |Bytes(ty, v, Some(FieldOpt(num, false)))| < U64
    ensures AllInRange(KindsOf(ty, v))
  {
    hide Bytes, KindsOf, Records;
    FieldIsRecords(ty, v, num);
    KindsInRange(ty, v);
    RecordsInRange(num, KindsOf(ty, v));
  }

  // ---- scalars ------------------------------------------------------------------------------

  lemma SignedBack(n: int, width: int)
    requires (width == U32 && -0x8000_0000 <= n < U31) || (width == U64 && -0x8000_0000_0000_0000 <= n < U63)
    ensures Signed(n % U64, width) == n
  {
  }

  lemma ScalarBack(ty: Ty, v: Val)
    requires Scalar(ty) && WellFormed(ty) && HasType(ty, v)
    ensures MergeScalar(ty, ScalarKind(ty, v)) == Ok(v)
  {
    match ty
    case TI32 => SignedBack(v.n, U32);
    case TI64 => SignedBack(v.n, U64);
    case _ =>
  }

  // ---- repeated types -----------------------------------------------------------------------

  lemma {:induction false} MergeFieldConcat(ty: Ty, cur: Val, a: seq<FieldKind>, b: seq<FieldKind>)
    requires WellFormed(ty) && HasType(ty, cur) && AllReadable(a) && AllReadable(b)
    ensures AllReadable(a + b)
    ensures MergeField(ty, cur, a + b) ==
            (match MergeField(ty, cur, a)
             case Err(e) => Err(e)
             case Ok(v) => MergeField(ty, v, b))
    decreases |a|
  {
    hide Merge;
    if a == [] {
      assert a + b == b;
    } else {
      assert (a + b)[1..] == a[1..] + b;
      match Merge(ty, cur, a[0], true)
      case Err(_) =>
      case Ok(v) => MergeFieldConcat(ty, v, a[1..], b);
    }
  }

  /** A packed record stands for the run of its elements as single records. */
  lemma {:induction false} PackedIsExpanded(ty: Ty, cur: Val, ks: seq<FieldKind>)
    requires WellFormed(ty) && ty.TVec? && Scalar(ty.elem) && HasType(ty, cur)
    requires forall i :: 0 <= i < |ks| ==> ks[i].Type() == ty.elem.Wire() && ks[i].InRange()
    ensures AllReadable(ks)
    ensures MergePacked(ty, cur, Payloads(ks)) == MergeField(ty, cur, ks)
    decreases |ks|
  {
    hide Merge, Payload, Absorb;
    if ks != [] {
      PackedStep(ty, cur, ks[0], Payloads(ks[1..]));
      MergeOfItem(ty, cur, ks[0]);
      match Merge(ty.elem, Default(ty.elem), ks[0], false)
      case Err(_) =>
      case Ok(x) => PackedIsExpanded(ty, Absorb(ty, cur, x), ks[1..]);
    }
  }

  lemma {:induction false} PackedStep(ty: Ty, cur: Val, k: FieldKind, rest: seq<Byte>)
    requires WellFormed(ty) && ty.TVec? && Scalar(ty.elem) && HasType(ty, cur)
    requires k.Type() == ty.elem.Wire() && k.InRange()
    ensures MergePacked(ty, cur, Payload(k) + rest) ==
            (match Merge(ty.elem, Default(ty.elem), k, false)
             case Err(e) => Err(e)
             case Ok(x) => MergePacked(ty, Absorb(ty, cur, x), rest))
  {
    hide Merge, Payload;
    NextKindOfPayload(k, rest);
  }

  lemma {:induction false} InsertAllSnoc(es: seq<Val>, xs: seq<Val>, x: Val)
    requires DistinctKeys(es)
    ensures InsertAll(es, xs + [x]) == Insert(InsertAll(es, xs), x)
    decreases |xs|
  {
    if xs == [] {
      assert (xs + [x])[1..] == [];
    } else {
      assert (xs + [x])[1..] == xs[1..] + [x];
      InsertAllSnoc(Insert(es, xs[0]), xs[1..], x);
    }
  }

  /** What the first `count` elements make, taken in one after the other. */
  function Absorbed(ty: Ty, v: Val, count: nat): (r: Val)
    requires WellFormed(ty) && ty.Repeated() && HasType(ty, v) && count <= |Items(ty, v)|
    ensures HasType(ty, r)
  {
    match ty
    case TVec(_) => VList(NormalItems(ty, v, count))
    case TOption(_) => if count == 0 then VNone else VSome(NormalItems(ty, v, 1)[0])
    case TMap(_) => MapOf(ty, NormalItems(ty, v, count))
  }

  lemma AbsorbOne(ty: Ty, v: Val, count: nat)
    requires WellFormed(ty) && ty.Repeated() && HasType(ty, v) && count < |Items(ty, v)|
    ensures Absorbed(ty, v, count + 1) == Absorb(ty, Absorbed(ty, v, count), Normal(ty.elem, Items(ty, v)[count]))
  {
    if ty.TMap? {
      InsertAllSnoc([], NormalItems(ty, v, count), Normal(ty.elem, Items(ty, v)[count]));
    }
  }

  lemma {:induction false} ItemsBack(ty: Ty, v: Val, count: nat)
    requires WellFormed(ty) && ty.Repeated() && HasType(ty, v) && count <= |Items(ty, v)|
    requires AllInRange(KindsOfItems(ty, v, count))
    ensures MergeField(ty, Default(ty), KindsOfItems(ty, v, count)) == Ok(Absorbed(ty, v, count))
    decreases ty, 1, count
  {
    hide Bytes, Merge, Normal, Absorb, Absorbed, KindOf, MergeField, KindsOfItems;
    if count == 0 {
      NothingAbsorbed(ty, v);
    } else {
      var ks, k := KindsOfItems(ty, v, count - 1), KindOf(ty.elem, Items(ty, v)[count - 1]);
      LastKind(ty, v, count);
      ItemsBack(ty, v, count - 1);
      OneItemBack(ty, v, count - 1);
      MergeFieldConcat(ty, Default(ty), ks, [k]);
      MergeFieldOne(ty, Absorbed(ty, v, count - 1), k);
    }
  }

  lemma LastKind(ty: Ty, v: Val, count: nat)
    requires WellFormed(ty) && ty.Repeated() && HasType(ty, v) && 0 < count <= |Items(ty, v)|
    requires AllInRange(KindsOfItems(ty, v, count))
    ensures KindsOfItems(ty, v, count) == KindsOfItems(ty, v, count - 1) + [KindOf(ty.elem, Items(ty, v)[count - 1])]
    ensures AllInRange(KindsOfItems(ty, v, count - 1)) && KindOf(ty.elem, Items(ty, v)[count - 1]).InRange()
  {
    hide KindOf;
    var all := KindsOfItems(ty, v, count);
    assert all[count - 1].InRange() && forall i :: 0 <= i < count - 1 ==> all[i].InRange();
  }

  lemma MergeFieldOne(ty: Ty, cur: Val, k: FieldKind)
    requires WellFormed(ty) && HasType(ty, cur) && Readable(k)
    ensures MergeField(ty, cur, [k]) == Merge(ty, cur, k, true)
  {
    hide Merge;
    assert [k][1..] == [];
  }

  lemma NothingAbsorbed(ty: Ty, v: Val)
    requires WellFormed(ty) && ty.Repeated() && HasType(ty, v)
    ensures Absorbed(ty, v, 0) == Default(ty)
    ensures MergeField(ty, Default(ty), KindsOfItems(ty, v, 0)) == Ok(Default(ty))
  {
  }

  lemma {:induction false} OneItemBack(ty: Ty, v: Val, i: nat)
    requires WellFormed(ty) && ty.Repeated() && HasType(ty, v) && i < |Items(ty, v)|
    requires KindOf(ty.elem, Items(ty, v)[i]).InRange()
    ensures Merge(ty, Absorbed(ty, v, i), KindOf(ty.elem, Items(ty, v)[i]), true) == Ok(Absorbed(ty, v, i + 1))
    decreases ty, 0, 0
  {
    hide Bytes, Merge, Normal, Absorb;
    NestedBack(ty.elem, Items(ty, v)[i]);
    MergeOfItem(ty, Absorbed(ty, v, i), KindOf(ty.elem, Items(ty, v)[i]));
    AbsorbOne(ty, v, i);
  }

  // ---- structs ------------------------------------------------------------------------------

  lemma {:induction false} StructRun(ty: Ty, cur: Val, i: nat, ks: seq<FieldKind>)
    requires WellFormed(ty) && ty.TStruct? && HasType(ty, cur) && i < |ty.fields| && AllReadable(ks)
    ensures MergeRun(ty, cur, ty.fields[i].num, ks) ==
            (match MergeField(ty.fields[i].ty, cur.fields[i], ks)
             case Err(e) => Err(e)
             case Ok(x) => Ok(VStruct(cur.fields[i := x])))
    decreases |ks|
  {
    hide Merge, MergeRecord;
    if ks == [] {
      assert cur.fields[i := cur.fields[i]] == cur.fields;
    } else {
      StructRecord(ty, cur, i, ks[0]);
      match Merge(ty.fields[i].ty, cur.fields[i], ks[0], true)
      case Err(_) =>
      case Ok(x) =>
        var next := VStruct(cur.fields[i := x]);
        StructRun(ty, next, i, ks[1..]);
        match MergeField(ty.fields[i].ty, x, ks[1..])
        case Err(_) =>
        case Ok(y) => assert next.fields[i := y] == cur.fields[i := y];
    }
  }

  lemma {:induction false} StructRecord(ty: Ty, cur: Val, i: nat, k: FieldKind)
    requires WellFormed(ty) && ty.TStruct? && HasType(ty, cur) && i < |ty.fields| && Readable(k)
    ensures MergeRecord(ty, cur, ty.fields[i].num, k) ==
            (match Merge(ty.fields[i].ty, cur.fields[i], k, true)
             case Err(e) => Err(e)
             case Ok(x) => Ok(VStruct(cur.fields[i := x])))
  {
    hide Merge, IndexOf, Numbers;
    assert IndexOf(Numbers(ty), ty.fields[i].num) == Some(i);
  }

  /** Records of one field at the head of a struct message go into that field and nowhere else. */
  lemma {:induction false} StructField(ty: Ty, cur: Val, i: nat, ks: seq<FieldKind>, rest: seq<Byte>)
    requires WellFormed(ty) && ty.TStruct? && HasType(ty, cur) && i < |ty.fields| && AllInRange(ks)
    ensures AllReadable(ks)
    ensures MergeMessage(ty, cur, Records(ty.fields[i].num, ks) + rest) ==
            (match MergeField(ty.fields[i].ty, cur.fields[i], ks)
             case Err(e) => Err(e)
             case Ok(x) => MergeMessage(ty, VStruct(cur.fields[i := x]), rest))
  {
    hide MergeMessage, Merge, MergeRecord, Records;
    StructRun(ty, cur, i, ks);
    MessageOfRecords(ty, cur, ty.fields[i].num, ks, rest);
  }

  /** The struct after its first `count` fields have been read. */
  function Partial(ty: Ty, v: Val, count: nat): (r: Val)
    requires WellFormed(ty) && ty.TStruct? && HasType(ty, v) && count <= |ty.fields|
    ensures HasType(ty, r)
  {
    VStruct(NormalFields(ty, v, count) + Default(ty).fields[count..])
  }

  lemma PartialStep(ty: Ty, v: Val, i: nat)
    requires WellFormed(ty) && ty.TStruct? && HasType(ty, v) && i < |ty.fields|
    ensures Partial(ty, v, i).fields[i] == Default(ty.fields[i].ty)
    ensures Partial(ty, v, i + 1) ==
            VStruct(Partial(ty, v, i).fields[i := NormalField(ty.fields[i].ty, v.fields[i])])
  {
    var done, all, x := NormalFields(ty, v, i), Default(ty).fields, NormalField(ty.fields[i].ty, v.fields[i]);
    NormalFieldsStep(ty, v, i);
    DefaultFields(ty);
    PartialFields(ty, v, i);
    PartialFields(ty, v, i + 1);
    hide Partial, NormalField, NormalFields, HasType, WellFormed, Default;
    ReplaceAt(done, all, x);
  }

  lemma PartialFields(ty: Ty, v: Val, count: nat)
    requires WellFormed(ty) && ty.TStruct? && HasType(ty, v) && count <= |ty.fields|
    ensures Partial(ty, v, count) == VStruct(NormalFields(ty, v, count) + Default(ty).fields[count..])
  {
  }

  lemma NormalFieldsStep(ty: Ty, v: Val, i: nat)
    requires WellFormed(ty) && ty.TStruct? && HasType(ty, v) && i < |ty.fields|
    ensures NormalFields(ty, v, i + 1) == NormalFields(ty, v, i) + [NormalField(ty.fields[i].ty, v.fields[i])]
  {
    hide NormalField;
  }

  lemma DefaultFields(ty: Ty)
    requires WellFormed(ty) && ty.TStruct?
    ensures Default(ty).VStruct? && |Default(ty).fields| == |ty.fields|
    ensures forall i :: 0 <= i < |ty.fields| ==> Default(ty).fields[i] == Default(ty.fields[i].ty)
  {
  }

  lemma ReplaceAt(done: seq<Val>, all: seq<Val>, x: Val)
    requires |done| < |all|
    ensures (done + all[|done|..])[|done|] == all[|done|]
    ensures done + [x] + all[|done| + 1..] == (done + all[|done|..])[|done| := x]
  {
  }

  lemma SkippedField(ty: Ty, v: Val, i: nat)
    requires WellFormed(ty) && ty.TStruct? && HasType(ty, v) && i < |ty.fields|
    requires IsDefault(ty.fields[i].ty, v.fields[i])
    ensures Partial(ty, v, i + 1) == Partial(ty, v, i)
  {
    PartialStep(ty, v, i);
    hide Partial;
    assert Partial(ty, v, i).fields[i := Default(ty.fields[i].ty)] == Partial(ty, v, i).fields;
  }

  /** One field of a struct: what it wrote, or did not write, brings the next field in place. */
  lemma {:induction false} OneFieldBack(ty: Ty, v: Val, i: nat, bytes: seq<Byte>, rest: seq<Byte>)
    requires WellFormed(ty) && ty.TStruct? && HasType(ty, v) && i < |ty.fields|
    requires bytes == BytesOfField(ty.fields[i], v.fields[i])
    requires |bytes| < U64
    ensures MergeMessage(ty, Partial(ty, v, i), bytes + rest) == MergeMessage(ty, Partial(ty, v, i + 1), rest)
    decreases ty, 0, 0
  {
    hide MergeMessage, MergeField, Bytes, Normal, Records, KindsOf, Partial;
    var f, x := ty.fields[i], v.fields[i];
    if IsDefault(f.ty, x) {
      SkippedField(ty, v, i);
      assert bytes + rest == rest;
    } else {
      PartialStep(ty, v, i);
      FieldIsRecords(f.ty, x, f.num);
      FieldInRange(f.ty, x, f.num);
      FieldBack(f.ty, x);
      StructField(ty, Partial(ty, v, i), i, KindsOf(f.ty, x), rest);
    }
  }

  lemma {:induction false} FirstFieldsBack(ty: Ty, v: Val, count: nat, rest: seq<Byte>)
    requires WellFormed(ty) && ty.TStruct? && HasType(ty, v) && count <= |ty.fields|
    requires |BytesOfFirst(ty, v, count)| < U64
    ensures MergeMessage(ty, Default(ty), BytesOfFirst(ty, v, count) + rest) ==
            MergeMessage(ty, Partial(ty, v, count), rest)
    decreases ty, 1, count
  {
    hide MergeMessage, Bytes, NormalField;
    if count == 0 {
      assert BytesOfFirst(ty, v, 0) + rest == rest;
      assert Partial(ty, v, 0).fields == Default(ty).fields;
    } else {
      var i := count - 1;
      var bytes := BytesOfField(ty.fields[i], v.fields[i]);
      FirstStep(ty, v, i);
      assert BytesOfFirst(ty, v, count) + rest == BytesOfFirst(ty, v, i) + (bytes + rest);
      FirstFieldsBack(ty, v, i, bytes + rest);
      OneFieldBack(ty, v, i, bytes, rest);
    }
  }

  // ---- enums with payload -------------------------------------------------------------------

  lemma {:induction false} OneofRun(ty: Ty, i: nat, payload: Val, ks: seq<FieldKind>)
    requires WellFormed(ty) && ty.TOneof? && i < |ty.variants| && ty.variants[i].Carrying?
    requires HasType(ty.variants[i].ty, payload) && AllReadable(ks)
    ensures MergeRun(ty, VCarrying(i, payload), ty.variants[i].num, ks) ==
            (match MergeField(ty.variants[i].ty, payload, ks)
             case Err(e) => Err(e)
             case Ok(x) => Ok(VCarrying(i, x)))
    decreases |ks|
  {
    hide Merge;
    assert IndexOf(Numbers(ty), ty.variants[i].num) == Some(i);
    if ks != [] {
      match Merge(ty.variants[i].ty, payload, ks[0], true)
      case Err(_) =>
      case Ok(x) => OneofRun(ty, i, x, ks[1..]);
    }
  }

  lemma {:induction false} OneofBack(ty: Ty, v: Val)
    requires WellFormed(ty) && ty.TOneof? && HasType(ty, v) && |BytesOfFields(ty, v)| < U64
    ensures MergeMessage(ty, Default(ty), BytesOfFields(ty, v)) == Ok(Normal(ty, v))
    decreases ty, 1, 0
  {
    hide Merge, MergeMessage, Bytes, Normal, Record;
    var num := ty.variants[v.index].num;
    assert IndexOf(Numbers(ty), num) == Some(v.index);
    var ks := if v.VUnit? then [KLen([])] else KindsOf(ty.variants[v.index].ty, v.payload);
    if v.VUnit? {
      LenRecord(num, []);
      assert Records(num, ks) == Record(num, KLen([])) == BytesOfFields(ty, v);
    } else {
      var t := ty.variants[v.index].ty;
      FieldIsRecords(t, v.payload, num);
      FieldInRange(t, v.payload, num);
      FieldBack(t, v.payload);
      OneofRun(ty, v.index, Default(t), ks);
    }
    assert Records(num, ks) + [] == BytesOfFields(ty, v);
    MessageOfRecords(ty, Default(ty), num, ks, []);
    OneofStart(ty, v, num, ks);
    MessageEnd(ty, Normal(ty, v));
  }

  /** The first record of a variant replaces any other variant by the default of its payload. */
  lemma OneofStart(ty: Ty, v: Val, num: nat, ks: seq<FieldKind>)
    requires WellFormed(ty) && ty.TOneof? && HasType(ty, v) && num == ty.variants[v.index].num
    requires IndexOf(Numbers(ty), num) == Some(v.index)
    requires ks == (if v.VUnit? then [KLen([])] else KindsOf(ty.variants[v.index].ty, v.payload)) && AllReadable(ks)
    requires v.VCarrying? ==>
      var t := ty.variants[v.index].ty;
      MergeField(t, Default(t), ks) == Ok(Normal(t, v.payload)) &&
      MergeRun(ty, VCarrying(v.index, Default(t)), num, ks) == Ok(VCarrying(v.index, Normal(t, v.payload)))
    ensures MergeRun(ty, Default(ty), num, ks) == Ok(Normal(ty, v))
  {
    if v.VCarrying? {
      var t := ty.variants[v.index].ty;
      assert WritesNothing(t, v.payload) <==> ks == [];
      if ks != [] {
        assert MergeRecord(ty, Default(ty), num, ks[0]) == MergeRecord(ty, VCarrying(v.index, Default(t)), num, ks[0]);
      }
    } else {
      assert MergeRecord(ty, Default(ty), num, ks[0]) == Ok(v);
      assert ks[1..] == [];
    }
  }

  // ---- the two halves -----------------------------------------------------------------------

  lemma RepeatedRecord(ty: Ty, cur: Val, k: FieldKind)
    requires WellFormed(ty) && ty.Repeated() && HasType(ty, cur) && Readable(k)
    ensures MergeRecord(ty, cur, 1, k) == Merge(ty, cur, k, true)
  {
  }

  lemma {:induction false} RepeatedRun(ty: Ty, cur: Val, ks: seq<FieldKind>)
    requires WellFormed(ty) && ty.Repeated() && HasType(ty, cur) && AllReadable(ks)
    ensures MergeRun(ty, cur, 1, ks) == MergeField(ty, cur, ks)
    decreases |ks|
  {
    hide Merge;
    if ks != [] {
      assert MergeRecord(ty, cur, 1, ks[0]) == Merge(ty, cur, ks[0], true) by { RepeatedRecord(ty, cur, ks[0]); }
      match Merge(ty, cur, ks[0], true)
      case Err(_) =>
      case Ok(v) => RepeatedRun(ty, v, ks[1..]);
    }
  }

  /** A value written as exactly one record is inverted by merging outside a field, from the default. */
  lemma {:induction false} NestedBack(ty: Ty, v: Val)
    requires WellFormed(ty) && HasType(ty, v) && KindOf(ty, v).InRange()
    ensures Merge(ty, Default(ty), KindOf(ty, v), false) == Ok(Normal(ty, v))
    decreases ty, 3, 0
  {
    hide Bytes, Merge, MergeMessage, MergeRun, MergeField, BytesOfFields, Normal, Records, KindsOf;
    if Scalar(ty) {
      ScalarMerge(ty, v);
    } else if ty.Repeated() {
      var ks := KindsOf(ty, v);
      RepeatedRootIsFieldOne(ty, v);
      KindsInRange(ty, v);
      RecordsInRange(1, ks);
      FieldOfRepeatedBack(ty, v);
      RepeatedRun(ty, Default(ty), ks);
      assert Records(1, ks) + [] == Bytes(ty, v, None);
      MessageOfRecords(ty, Default(ty), 1, ks, []);
      MessageEnd(ty, Normal(ty, v));
      MergeOfMessage(ty, Default(ty), Bytes(ty, v, None), false);
    } else if !Flat(ty) {
      FieldsCase(ty, v, None);
      assert Bytes(ty, v, None) == BytesOfFields(ty, v);
      MergeOfMessage(ty, Default(ty), Bytes(ty, v, None), false);
      if ty.TStruct? {
        AllFieldsBack(ty, v);
      } else {
        OneofBack(ty, v);
      }
    } else {
      FlatBack(ty, v);
    }
  }

  lemma FlatBack(ty: Ty, v: Val)
    requires WellFormed(ty) && Flat(ty) && HasType(ty, v)
    ensures Merge(ty, Default(ty), KLen(v.bytes), false) == Ok(v) && Normal(ty, v) == v
  {
  }

  lemma ScalarMerge(ty: Ty, v: Val)
    requires WellFormed(ty) && Scalar(ty) && HasType(ty, v)
    ensures Merge(ty, Default(ty), ScalarKind(ty, v), false) == Ok(v) && Normal(ty, v) == v
  {
    ScalarBack(ty, v);
  }

  lemma {:induction false} AllFieldsBack(ty: Ty, v: Val)
    requires WellFormed(ty) && ty.TStruct? && HasType(ty, v) && |BytesOfFields(ty, v)| < U64
    ensures MergeMessage(ty, Default(ty), BytesOfFields(ty, v)) == Ok(Normal(ty, v))
    decreases ty, 2, 0
  {
    hide BytesOfFirst, MergeMessage;
    var n := |ty.fields|;
    assert BytesOfFirst(ty, v, n) + [] == BytesOfFields(ty, v);
    FirstFieldsBack(ty, v, n, []);
    MessageEnd(ty, Partial(ty, v, n));
    assert Partial(ty, v, n).fields == Normal(ty, v).fields;
  }

  lemma {:induction false} FieldOfRepeatedBack(ty: Ty, v: Val)
    requires WellFormed(ty) && ty.Repeated() && HasType(ty, v) && AllInRange(KindsOf(ty, v))
    ensures AllReadable(KindsOf(ty, v))
    ensures MergeField(ty, Default(ty), KindsOf(ty, v)) == Ok(Normal(ty, v))
    decreases ty, 2, 0
  {
    hide Bytes, Merge, MergePacked, Payloads;
    var n := |Items(ty, v)|;
    var all := KindsOfItems(ty, v, n);
    if Packed(ty, v) {
      assert forall i :: 0 <= i < n ==> all[i].Type() == ty.elem.Wire() && all[i].InRange();
      PackedIsExpanded(ty, Default(ty), all);
      MergeOfPackedRecord(ty, Default(ty), Payloads(all));
      assert MergeField(ty, Default(ty), KindsOf(ty, v)) == Merge(ty, Default(ty), KLen(Payloads(all)), true);
    }
    ItemsBack(ty, v, n);
    AllAbsorbed(ty, v);
  }

  lemma AllAbsorbed(ty: Ty, v: Val)
    requires WellFormed(ty) && ty.Repeated() && HasType(ty, v)
    ensures Absorbed(ty, v, |Items(ty, v)|) == Normal(ty, v)
  {
  }

  /** A value written as a field is inverted by merging its records one after the other, from the default. */
  lemma {:induction false} FieldBack(ty: Ty, v: Val)
    requires WellFormed(ty) && HasType(ty, v) && AllInRange(KindsOf(ty, v))
    ensures AllReadable(KindsOf(ty, v))
    ensures MergeField(ty, Default(ty), KindsOf(ty, v)) == Ok(Normal(ty, v))
    decreases ty, 4, 0
  {
    hide Bytes, Merge, Normal;
    if ty.Repeated() {
      FieldOfRepeatedBack(ty, v);
    } else {
      assert KindsOf(ty, v)[0].InRange();
      NestedBack(ty, v);
      MergeOfOther(ty, Default(ty), KindOf(ty, v));
    }
  }

  // ---- exactly which values come back -------------------------------------------------------

  predicate NegativeZero(ty: Ty, v: Val)
    requires HasType(ty, v)
  {
    (ty.TF32? && v.bits == U31) || (ty.TF64? && v.bits == U63)
  }

  /** No struct has a negative zero as a field, and no variant but the default one has a payload that
      writes nothing. */
  predicate Canonical(ty: Ty, v: Val)
    requires WellFormed(ty) && HasType(ty, v)
    decreases ty
  {
    match ty
    case TVec(e) => forall i :: 0 <= i < |v.items| ==> Canonical(e, v.items[i])
    case TOption(e) => v.VSome? ==> Canonical(e, v.inner)
    case TMap(e) => forall i :: 0 <= i < |v.entries| ==> Canonical(e, v.entries[i])
    case TStruct(fs) =>
      forall i :: 0 <= i < |fs| ==> !NegativeZero(fs[i].ty, v.fields[i]) && Canonical(fs[i].ty, v.fields[i])
    case TOneof(vs, d) =>
      v.VCarrying? ==>
        && (v.index == d || !WritesNothing(vs[v.index].ty, v.payload))
        && Canonical(vs[v.index].ty, v.payload)
    case _ => true
  }

  lemma {:induction false} DefaultIsCanonical(ty: Ty)
    requires WellFormed(ty)
    ensures Canonical(ty, Default(ty))
    decreases ty
  {
    match ty
    case TStruct(fs) =>
      forall i | 0 <= i < |fs|
        ensures !NegativeZero(fs[i].ty, Default(ty).fields[i]) && Canonical(fs[i].ty, Default(ty).fields[i])
      {
        DefaultIsCanonical(fs[i].ty);
      }
    case TOneof(vs, d) => if vs[d].Carrying? { DefaultIsCanonical(vs[d].ty); }
    case _ =>
  }

  lemma {:induction false} InsertAllNonEmpty(es: seq<Val>, xs: seq<Val>)
    requires DistinctKeys(es) && (es != [] || xs != [])
    ensures InsertAll(es, xs) != []
    decreases |xs|
  {
    if xs != [] { InsertAllNonEmpty(Insert(es, xs[0]), xs[1..]); }
  }

  lemma NormalKeepsEmptiness(ty: Ty, v: Val)
    requires WellFormed(ty) && HasType(ty, v)
    ensures WritesNothing(ty, Normal(ty, v)) <==> WritesNothing(ty, v)
  {
    if ty.TMap? && v.entries != [] {
      InsertAllNonEmpty([], NormalItems(ty, v, |v.entries|));
    }
  }

  /** What comes back has none of the two exceptions left: reading and writing again changes nothing more. */
  lemma {:induction false} NormalIsCanonical(ty: Ty, v: Val)
    requires WellFormed(ty) && HasType(ty, v)
    ensures Canonical(ty, Normal(ty, v))
    decreases ty, 1
  {
    if ty.Repeated() {
      NormalItemsCanonical(ty, v);
    } else if ty.TStruct? {
      NormalStructCanonical(ty, v);
    } else if ty.TOneof? {
      NormalOneofCanonical(ty, v);
    }
  }

  lemma {:induction false} NormalItemsCanonical(ty: Ty, v: Val)
    requires WellFormed(ty) && HasType(ty, v) && ty.Repeated()
    ensures Canonical(ty, Normal(ty, v))
    decreases ty, 0
  {
    var n := |Items(ty, v)|;
    var r := NormalItems(ty, v, n);
    forall i | 0 <= i < n ensures Canonical(ty.elem, r[i]) {
      NormalIsCanonical(ty.elem, Items(ty, v)[i]);
    }
  }

  lemma {:induction false} NormalStructCanonical(ty: Ty, v: Val)
    requires WellFormed(ty) && HasType(ty, v) && ty.TStruct?
    ensures Canonical(ty, Normal(ty, v))
    decreases ty, 0
  {
    var fs := ty.fields;
    forall i | 0 <= i < |fs|
      ensures !NegativeZero(fs[i].ty, NormalField(fs[i].ty, v.fields[i]))
      ensures Canonical(fs[i].ty, NormalField(fs[i].ty, v.fields[i]))
    {
      DefaultIsCanonical(fs[i].ty);
      NormalIsCanonical(fs[i].ty, v.fields[i]);
    }
  }

  lemma {:induction false} NormalOneofCanonical(ty: Ty, v: Val)
    requires WellFormed(ty) && HasType(ty, v) && ty.TOneof?
    ensures Canonical(ty, Normal(ty, v))
    decreases ty, 0
  {
    DefaultIsCanonical(ty);
    if v.VCarrying? {
      NormalIsCanonical(ty.variants[v.index].ty, v.payload);
      NormalKeepsEmptiness(ty.variants[v.index].ty, v.payload);
    }
  }

  lemma {:induction false} InsertAllDistinct(es: seq<Val>, xs: seq<Val>)
    requires DistinctKeys(es + xs) && DistinctKeys(es)
    ensures InsertAll(es, xs) == es + xs
    decreases |xs|
  {
    if xs == [] {
      assert es + xs == es;
    } else {
      forall i | 0 <= i < |es| ensures Key(es[i]) != Key(xs[0]) {
        assert (es + xs)[i] == es[i] && (es + xs)[|es|] == xs[0];
      }
      assert Insert(es, xs[0]) == es + [xs[0]];
      assert es + [xs[0]] + xs[1..] == es + xs;
      InsertAllDistinct(es + [xs[0]], xs[1..]);
    }
  }

  /** A canonical value comes back as it was. */
  lemma {:induction false} CanonicalIsNormal(ty: Ty, v: Val)
    requires WellFormed(ty) && HasType(ty, v) && Canonical(ty, v)
    ensures Normal(ty, v) == v
    decreases ty, 1
  {
    if ty.Repeated() {
      ItemsAreNormal(ty, v);
    } else if ty.TStruct? {
      StructIsNormal(ty, v);
    } else if ty.TOneof? && v.VCarrying? {
      CanonicalIsNormal(ty.variants[v.index].ty, v.payload);
    }
  }

  lemma {:induction false} ItemsAreNormal(ty: Ty, v: Val)
    requires WellFormed(ty) && HasType(ty, v) && Canonical(ty, v) && ty.Repeated()
    ensures Normal(ty, v) == v
    decreases ty, 0
  {
    var n := |Items(ty, v)|;
    forall i | 0 <= i < n ensures NormalItems(ty, v, n)[i] == Items(ty, v)[i] {
      assert Canonical(ty.elem, Items(ty, v)[i]);
      CanonicalIsNormal(ty.elem, Items(ty, v)[i]);
    }
    assert NormalItems(ty, v, n) == Items(ty, v);
    if ty.TMap? {
      assert [] + v.entries == v.entries;
      InsertAllDistinct([], v.entries);
    }
  }

  lemma {:induction false} StructIsNormal(ty: Ty, v: Val)
    requires WellFormed(ty) && HasType(ty, v) && Canonical(ty, v) && ty.TStruct?
    ensures Normal(ty, v) == v
    decreases ty, 0
  {
    var fs := ty.fields;
    forall i | 0 <= i < |fs| ensures NormalField(fs[i].ty, v.fields[i]) == v.fields[i] {
      CanonicalIsNormal(fs[i].ty, v.fields[i]);
      assert IsDefault(fs[i].ty, v.fields[i]) ==> v.fields[i] == Default(fs[i].ty);
    }
    assert Normal(ty, v).fields == v.fields;
  }

  // ---- the round trip -----------------------------------------------------------------------

  function ExpectedError(w: WireType): DecodeError {
    match w
    case Varint => ExpectedVarintWireType
    case I32 => ExpectedI32WireType
    case I64 => ExpectedI64WireType
    case Len => ExpectedLenWireType
  }

  /** `from_slice(to_vec(v))`, for every well-formed type and every value of it. A scalar is no message of
      its own: its bare bytes are refused. Everything else decodes, to the normal form of the value. */
  lemma RoundTrip(ty: Ty, v: Val)
    requires WellFormed(ty) && HasType(ty, v) && |ToVec(ty, v)| < U64
    ensures FromSlice(ty, ToVec(ty, v)) ==
            if ty.Wire().Len? then Ok(Normal(ty, v)) else Err(ExpectedError(ty.Wire()))
  {
    if ty.Wire().Len? {
      assert KindOf(ty, v) == KLen(ToVec(ty, v));
      NestedBack(ty, v);
    }
  }

  /** The value comes back unchanged if and only if its type is read as a length-delimited message and the
      value is canonical. */
  lemma RoundTripExactly(ty: Ty, v: Val)
    requires WellFormed(ty) && HasType(ty, v) && |ToVec(ty, v)| < U64
    ensures FromSlice(ty, ToVec(ty, v)) == Ok(v) <==> ty.Wire().Len? && Canonical(ty, v)
  {
    RoundTrip(ty, v);
    if Canonical(ty, v) {
      CanonicalIsNormal(ty, v);
    }
    NormalIsCanonical(ty, v);
  }

  const ONE_FLOAT := TStruct([FieldTy(1, TF32)])
  const NEGATIVE_ZERO := VStruct([VBits(U31)])

  /** The struct exception at work: `{ 1: -0.0 }` writes nothing and comes back as `{ 1: 0.0 }`. */
  lemma NegativeZeroIsLost()
    ensures WellFormed(ONE_FLOAT) && HasType(ONE_FLOAT, NEGATIVE_ZERO)
    ensures FromSlice(ONE_FLOAT, ToVec(ONE_FLOAT, NEGATIVE_ZERO)) == Ok(VStruct([VBits(0)]))
  {
    NegativeZeroWritesNothing();
    hide FromSlice, Normal;
    RoundTrip(ONE_FLOAT, NEGATIVE_ZERO);
    NegativeZeroIsZero();
  }

  lemma NegativeZeroWritesNothing()
    ensures WellFormed(ONE_FLOAT) && HasType(ONE_FLOAT, NEGATIVE_ZERO)
    ensures ToVec(ONE_FLOAT, NEGATIVE_ZERO) == []
  {
    assert BytesOfFirst(ONE_FLOAT, NEGATIVE_ZERO, 1) == BytesOfFirst(ONE_FLOAT, NEGATIVE_ZERO, 0) + [] == [];
  }

  lemma NegativeZeroIsZero()
    ensures WellFormed(ONE_FLOAT) && HasType(ONE_FLOAT, NEGATIVE_ZERO)
    ensures Normal(ONE_FLOAT, NEGATIVE_ZERO) == VStruct([VBits(0)])
  {
    assert NormalFields(ONE_FLOAT, NEGATIVE_ZERO, 1) == [VBits(0)];
  }

  const LIST_OR_UNIT := TOneof([Carrying(1, TVec(TU32)), Unit(2)], 1)
  const EMPTY_LIST := VCarrying(0, VList([]))

  /** The variant exception at work: a variant holding an empty vector comes back as the default variant. */
  lemma EmptyPayloadIsLost()
    ensures WellFormed(LIST_OR_UNIT) && HasType(LIST_OR_UNIT, EMPTY_LIST)
    ensures FromSlice(LIST_OR_UNIT, ToVec(LIST_OR_UNIT, EMPTY_LIST)) == Ok(VUnit(1))
  {
    EmptyPayloadWritesNothing();
    hide FromSlice, Normal;
    RoundTrip(LIST_OR_UNIT, EMPTY_LIST);
    EmptyPayloadIsDefault();
  }

  lemma EmptyPayloadWritesNothing()
    ensures WellFormed(LIST_OR_UNIT) && HasType(LIST_OR_UNIT, EMPTY_LIST)
    ensures ToVec(LIST_OR_UNIT, EMPTY_LIST) == []
  {
    assert WellFormed(TVec(TU32)) && HasType(TVec(TU32), VList([]));
    assert Bytes(TVec(TU32), VList([]), Some(FieldOpt(1, false))) == [];
  }

  lemma EmptyPayloadIsDefault()
    ensures WellFormed(LIST_OR_UNIT) && HasType(LIST_OR_UNIT, EMPTY_LIST)
    ensures Normal(LIST_OR_UNIT, EMPTY_LIST) == VUnit(1)
  {
    assert WellFormed(TVec(TU32)) && HasType(TVec(TU32), VList([]));
    assert WritesNothing(TVec(TU32), VList([]));
    assert Default(LIST_OR_UNIT) == VUnit(1);
  }
}
