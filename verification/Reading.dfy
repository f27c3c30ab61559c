/** How single records are read: payload enums, scalars, and payloads of the wrong form. All of it is about whole
    messages. */
module Reading {
  import opened Basics
  import opened Wire
  import opened Schema
  import opened Encode
  import opened Decode
  import opened RoundTrip
  import opened MessageLaws

  // ---- payload enums: the last variant wins -------------------------------------------------

  /** A run of complete records, none of them with a number the message listens to. */
  predicate NoneListed(ty: Ty, s: seq<Byte>)
    requires ty.Message()
    decreases |s|
  {
    s == [] || (NextField(s).Ok? && !Listed(ty, NextField(s).value.num) && NoneListed(ty, NextField(s).value.rest))
  }

  lemma {:induction false} NoneListedIsWhole(ty: Ty, s: seq<Byte>)
    requires ty.Message() && NoneListed(ty, s)
    ensures Whole(s)
    decreases |s|
  {
    hide Listed;
    if s != [] { NoneListedIsWhole(ty, NextField(s).value.rest); }
  }

  lemma {:induction false} NoneListedChangesNothing(ty: Ty, cur: Val, s: seq<Byte>)
    requires WellFormed(ty) && ty.Message() && HasType(ty, cur) && NoneListed(ty, s)
    ensures MergeMessage(ty, cur, s) == Ok(cur)
    decreases |s|
  {
    hide Listed, MergeRecord, WellFormed, HasType;
    if s != [] {
      var f := NextField(s).value;
      NextFieldReadable(s);
      UnlistedRecord(ty, cur, f.num, f.kind);
      NoneListedChangesNothing(ty, cur, f.rest);
    }
  }

  /** A variant with what its record holds, merged into what the enum already holds if it is the same variant. */
  function ReadVariant(ty: Ty, v: Val, i: nat, k: FieldKind): Merged
    requires WellFormed(ty) && ty.TOneof? && HasType(ty, v) && i < |ty.variants| && k.InRange()
  {
    match ty.variants[i]
    case Unit(_) => Ok(VUnit(i))
    case Carrying(_, t) =>
      var r := Merge(t, if v.VCarrying? && v.index == i then v.payload else Default(t), k, true);
      if r.Ok? then Ok(VCarrying(i, r.value)) else r
  }

  lemma VariantAt(ty: Ty, i: nat)
    requires WellFormed(ty) && ty.TOneof? && i < |ty.variants|
    ensures IndexOf(Numbers(ty), ty.variants[i].num) == Some(i)
  {
    assert Numbers(ty)[i] == ty.variants[i].num;
  }

  lemma VariantRecord(ty: Ty, v: Val, i: nat, k: FieldKind)
    requires WellFormed(ty) && ty.TOneof? && HasType(ty, v) && i < |ty.variants| && k.InRange()
    ensures MergeRecord(ty, v, ty.variants[i].num, k) == ReadVariant(ty, v, i, k)
  {
    VariantAt(ty, i);
    hide Merge, Numbers, IndexOf;
  }

  lemma VariantStep(ty: Ty, v: Val, i: nat, k: FieldKind, rest: seq<Byte>)
    requires WellFormed(ty) && ty.TOneof? && HasType(ty, v) && i < |ty.variants| && k.InRange()
    ensures MergeMessage(ty, v, Record(ty.variants[i].num, k) + rest) ==
            var r := ReadVariant(ty, v, i, k); if r.Ok? then MergeMessage(ty, r.value, rest) else r
  {
    VariantRecord(ty, v, i, k);
    hide MergeMessage, MergeRecord, Record, ReadVariant;
    MessageStep(ty, v, ty.variants[i].num, k, rest);
  }

  /** Last one wins: whatever complete records come before, the last record of a listed variant decides the variant,
      and what it holds is merged into the payload so far only if that is of the same variant. */
  lemma LastVariantWins(ty: Ty, cur: Val, a: seq<Byte>, i: nat, k: FieldKind, b: seq<Byte>)
    requires WellFormed(ty) && ty.TOneof? && HasType(ty, cur) && Whole(a)
    requires i < |ty.variants| && k.InRange() && NoneListed(ty, b)
    ensures var v := MergeMessage(ty, cur, a); var all := MergeMessage(ty, cur, a + (Record(ty.variants[i].num, k) + b));
      && (v.Err? ==> all == v)
      && (v.Ok? && ty.variants[i].Unit? ==> all == Ok(VUnit(i)))
      && (v.Ok? && ty.variants[i].Carrying? ==>
            var t := ty.variants[i].ty;
            var r := Merge(t, if v.value.VCarrying? && v.value.index == i then v.value.payload else Default(t), k, true);
            all == if r.Ok? then Ok(VCarrying(i, r.value)) else r)
  {
    ConcatIsFold(ty, cur, a, Record(ty.variants[i].num, k) + b);
    hide MergeMessage, Merge, Record, Whole, NoneListed;
    match MergeMessage(ty, cur, a)
    case Err(_) =>
    case Ok(v) =>
      VariantStep(ty, v, i, k, b);
      var r := ReadVariant(ty, v, i, k);
      if r.Ok? { NoneListedChangesNothing(ty, r.value, b); }
  }

  /** A record of another variant wipes out all that came before: what follows is read as into any value that is not
      of this variant. */
  lemma OtherVariantIsForgotten(ty: Ty, cur: Val, a: seq<Byte>, other: Val, i: nat, k: FieldKind, c: seq<Byte>)
    requires WellFormed(ty) && ty.TOneof? && HasType(ty, cur) && HasType(ty, other) && Whole(a)
    requires i < |ty.variants| && k.InRange() && other.index != i
    requires var v := MergeMessage(ty, cur, a); v.Ok? && v.value.index != i
    ensures var tail := Record(ty.variants[i].num, k) + c;
      MergeMessage(ty, cur, a + tail) == MergeMessage(ty, other, tail)
  {
    ConcatIsFold(ty, cur, a, Record(ty.variants[i].num, k) + c);
    hide MergeMessage, Record, Whole, Merge;
    VariantStep(ty, MergeMessage(ty, cur, a).value, i, k, c);
    VariantStep(ty, other, i, k, c);
  }

  /** The payload of a variant may be split over two records, with unlisted records between them. */
  lemma VariantPayloadsMerge(ty: Ty, cur: Val, i: nat, x: seq<Byte>, b: seq<Byte>, y: seq<Byte>, c: seq<Byte>)
    requires WellFormed(ty) && ty.TOneof? && HasType(ty, cur) && i < |ty.variants| && |x| + |y| < U64
    requires ty.variants[i].Carrying? && Mergeable(ty.variants[i].ty) && NoneListed(ty, b)
    requires ReadVariant(ty, cur, i, KLen(x)).Ok?
    ensures var n := ty.variants[i].num;
      MergeMessage(ty, cur, Record(n, KLen(x)) + (b + (Record(n, KLen(y)) + c))) ==
      MergeMessage(ty, cur, Record(n, KLen(x + y)) + c)
  {
    var n, t := ty.variants[i].num, ty.variants[i].ty;
    var start := if cur.VCarrying? && cur.index == i then cur.payload else Default(t);
    var v := ReadVariant(ty, cur, i, KLen(x)).value;
    assert v == VCarrying(i, Merge(t, start, KLen(x), true).value);
    hide MergeMessage, Merge, Record, Mergeable, NoneListed;
    VariantStep(ty, cur, i, KLen(x), b + (Record(n, KLen(y)) + c));
    NoneListedIsWhole(ty, b);
    NoneListedChangesNothing(ty, v, b);
    ConcatIsFold(ty, v, b, Record(n, KLen(y)) + c);
    VariantStep(ty, v, i, KLen(y), c);
    VariantStep(ty, cur, i, KLen(x + y), c);
    SplitRecordsMerge(t, start, x, y);
  }

  // ---- scalars ------------------------------------------------------------------------------

  /** The value of a scalar type a payload stands for: signed and unsigned numbers are cut to their width, any number
      but 0 is true, a number an enum does not list is its default, and floats are their bits. */
  predicate StandsFor(ty: Ty, k: FieldKind, x: Val)
    requires Scalar(ty) && HasType(ty, x) && k.Type() == ty.Wire()
  {
    match ty
    case TBool => x.b <==> k.num != 0
    case TI32 | TU32 => (x.n - k.num) % U32 == 0
    case TI64 | TU64 => (x.n - k.num) % U64 == 0
    case TEnum(ns) => x.number == if k.num in ns then k.num else 0
    case TF32 | TF64 => x.bits == k.bits
  }

  lemma CutOnce(a: int, b: int, width: int)
    requires (width == U32 || width == U64) && a % width == b % width && -width < a - b < width
    ensures a == b
  {
    if width == U32 {
      assert a - b == U32 * (a / U32 - b / U32);
    } else {
      assert a - b == U64 * (a / U64 - b / U64);
    }
  }

  /** A payload stands for one value only. */
  lemma StandsForOne(ty: Ty, k: FieldKind, x: Val, y: Val)
    requires WellFormed(ty) && Scalar(ty) && HasType(ty, x) && HasType(ty, y) && k.Type() == ty.Wire()
    requires StandsFor(ty, k, x) && StandsFor(ty, k, y)
    ensures x == y
  {
    match ty
    case TI32 | TU32 => CutOnce(x.n - k.num, y.n - k.num, U32);
    case TI64 | TU64 => CutOnce(x.n - k.num, y.n - k.num, U64);
    case _ =>
  }

  lemma SignedCuts(n: nat, width: int)
    requires width == U32 || width == U64
    ensures (Signed(n, width) - n) % width == 0 && (n % width - n) % width == 0
  {
    assert (n % width - n) % width == 0;
    assert (n % width - width - n) % width == 0;
  }

  lemma NumberStandsFor(ty: Ty, k: FieldKind)
    requires (ty.TI32? || ty.TI64? || ty.TU32? || ty.TU64?) && k.KVarint? && k.InRange()
    ensures var r := MergeScalar(ty, k); r.Ok? && HasType(ty, r.value) && StandsFor(ty, k, r.value)
  {
    SignedCuts(k.num, if ty.TI32? || ty.TU32? then U32 else U64);
    hide Signed;
  }

  lemma ScalarStandsFor(ty: Ty, k: FieldKind)
    requires WellFormed(ty) && Scalar(ty) && k.InRange()
    ensures var r := MergeScalar(ty, k);
      if k.Type() == ty.Wire() then r.Ok? && HasType(ty, r.value) && StandsFor(ty, k, r.value)
      else r == Err(ExpectedError(ty.Wire()))
  {
    match ty
    case TI32 | TI64 | TU32 | TU64 =>
      if k.KVarint? { NumberStandsFor(ty, k); hide MergeScalar, StandsFor, HasType; }
    case _ =>
  }

  /** A record of a scalar field: its payload must be of the field's wire type, and then the field holds the value it
      stands for. */
  lemma ScalarFieldReads(ty: Ty, cur: Val, i: nat, k: FieldKind, rest: seq<Byte>) returns (x: Val)
    requires WellFormed(ty) && ty.TStruct? && HasType(ty, cur) && i < |ty.fields| && Scalar(ty.fields[i].ty) && k.InRange()
    ensures var t := ty.fields[i].ty; var m := MergeMessage(ty, cur, Record(ty.fields[i].num, k) + rest);
      if k.Type() == t.Wire() then HasType(t, x) && StandsFor(t, k, x) && m == MergeMessage(ty, Put(cur, i, x), rest)
      else m == Err(ExpectedError(t.Wire()))
  {
    var t := ty.fields[i].ty;
    assert Merge(t, cur.fields[i], k, true) == MergeScalar(t, k);
    hide Merge, MergeScalar, MergeMessage, Record, StandsFor;
    ScalarStandsFor(t, k);
    StructStep(ty, cur, i, k, rest);
    x := if k.Type() == t.Wire() then MergeScalar(t, k).value else Default(t);
  }

  // ---- bytes --------------------------------------------------------------------------------

  /** A record of a byte field must be length-delimited, and of an array's length if it is one. */
  lemma FlatFieldReads(ty: Ty, cur: Val, i: nat, k: FieldKind, rest: seq<Byte>)
    requires WellFormed(ty) && ty.TStruct? && HasType(ty, cur) && i < |ty.fields| && Flat(ty.fields[i].ty) && k.InRange()
    ensures var t := ty.fields[i].ty; var m := MergeMessage(ty, cur, Record(ty.fields[i].num, k) + rest);
      if !k.KLen? then m == Err(ExpectedLenWireType)
      else if t.TArray? && |k.bytes| != t.len then m == Err(ExpectedArrayLen(t.len))
      else m == MergeMessage(ty, Put(cur, i, VBytes(k.bytes)), rest)
  {
    hide MergeMessage, Record;
    StructStep(ty, cur, i, k, rest);
  }

  /** Inside a struct a submessage must be length-delimited, and its error is the error of the whole. */
  lemma MessageFieldReads(ty: Ty, cur: Val, i: nat, k: FieldKind, rest: seq<Byte>)
    requires WellFormed(ty) && ty.TStruct? && HasType(ty, cur) && i < |ty.fields| && k.InRange()
    requires ty.fields[i].ty.TStruct? || ty.fields[i].ty.TOneof?
    ensures var t := ty.fields[i].ty; var m := MergeMessage(ty, cur, Record(ty.fields[i].num, k) + rest);
      if !k.KLen? then m == Err(ExpectedLenWireType)
      else
        var r := MergeMessage(t, cur.fields[i], k.bytes);
        m == if r.Ok? then MergeMessage(ty, Put(cur, i, r.value), rest) else r
  {
    var t := ty.fields[i].ty;
    assert k.KLen? ==> Merge(t, cur.fields[i], k, true) == MergeMessage(t, cur.fields[i], k.bytes);
    assert !k.KLen? ==> Merge(t, cur.fields[i], k, true) == Err(ExpectedLenWireType);
    hide MergeMessage, Merge, Record;
    StructStep(ty, cur, i, k, rest);
  }

  // ---- defaults -----------------------------------------------------------------------------

  /** The payload that is all zeros, or has nothing in it. */
  function ZeroPayload(ty: Ty): FieldKind
    requires Scalar(ty) || Flat(ty)
  {
    match ty.Wire()
    case Varint => KVarint(0)
    case I32 => KI32(0)
    case I64 => KI64(0)
    case Len => KLen(if ty.TArray? then seq(ty.len, _ => 0) else [])
  }

  /** What decoding starts from is what a payload of zeros is read as. */
  lemma DefaultIsZero(ty: Ty, cur: Val)
    requires WellFormed(ty) && (Scalar(ty) || Flat(ty)) && HasType(ty, cur)
    ensures Merge(ty, cur, ZeroPayload(ty), true) == Ok(Default(ty))
  {
  }

  /** A field of which there is no record keeps the default of its type. */
  lemma MissingFieldIsDefault(ty: Ty, s: seq<Byte>, i: nat)
    requires WellFormed(ty) && ty.TStruct? && i < |ty.fields| && Avoids(s, ty.fields[i].num) && FromSlice(ty, s).Ok?
    ensures FromSlice(ty, s).value.fields[i] == Default(ty.fields[i].ty)
  {
    var f, d := ty.fields[i], Default(ty);
    assert d.fields[i] == Default(f.ty);
    MergeOfMessage(ty, d, s, false);
    hide Merge, MergeMessage, Default, Avoids;
    MessageApart(ty, d, i, d.fields[i], s);
  }

  // ---- broken packed records ----------------------------------------------------------------

  lemma BrokenPayload(ty: Ty, cur: Val, k: FieldKind, cut: nat)
    requires WellFormed(ty) && ty.TVec? && Scalar(ty.elem) && HasType(ty, cur) && k.InRange()
    requires k.Type() == ty.elem.Wire() && 0 < cut < |Payload(k)|
    ensures MergePacked(ty, cur, Payload(k)[..cut]) == Err(if k.KVarint? then InvalidVarint else UnexpectedEof)
  {
    CutPayload(k, cut);
  }

  /** An element of the right form never fails. */
  lemma NextElement(ty: Ty, cur: Val, k: FieldKind, rest: seq<Byte>) returns (v: Val)
    requires WellFormed(ty) && ty.TVec? && Scalar(ty.elem) && HasType(ty, cur) && k.InRange() && k.Type() == ty.elem.Wire()
    ensures HasType(ty, v) && MergePacked(ty, cur, Payload(k) + rest) == MergePacked(ty, v, rest)
  {
    hide MergePacked, Payload;
    PackedStep(ty, cur, k, rest);
    ScalarStandsFor(ty.elem, k);
    v := Absorb(ty, cur, MergeScalar(ty.elem, k).value);
  }

  lemma FirstElement(w: WireType, ks: seq<FieldKind>, part: seq<Byte>)
    requires ks != [] && ElementsOf(w, ks)
    ensures ks[0].InRange() && ks[0].Type() == w && ElementsOf(w, ks[1..])
    ensures Payloads(ks) + part == Payload(ks[0]) + (Payloads(ks[1..]) + part)
  {
    hide Payload;
  }

  lemma {:induction false} BrokenRun(ty: Ty, cur: Val, ks: seq<FieldKind>, k: FieldKind, cut: nat)
    requires WellFormed(ty) && ty.TVec? && Scalar(ty.elem) && HasType(ty, cur) && ElementsOf(ty.elem.Wire(), ks)
    requires k.InRange() && k.Type() == ty.elem.Wire() && 0 < cut < |Payload(k)|
    ensures MergePacked(ty, cur, Payloads(ks) + Payload(k)[..cut]) == Err(if k.KVarint? then InvalidVarint else UnexpectedEof)
    decreases |ks|
  {
    var part := Payload(k)[..cut];
    if ks == [] { assert Payloads(ks) + part == part; }
    hide MergePacked, Payload, Payloads, HasType, WellFormed, ElementsOf;
    if ks == [] {
      BrokenPayload(ty, cur, k, cut);
    } else {
      FirstElement(ty.elem.Wire(), ks, part);
      var v := NextElement(ty, cur, ks[0], Payloads(ks[1..]) + part);
      BrokenRun(ty, v, ks[1..], k, cut);
    }
  }

  /** A packed record in which the last element is cut off is an error, whatever came before. */
  lemma BrokenPackedRecord(ty: Ty, cur: Val, ks: seq<FieldKind>, k: FieldKind, cut: nat)
    requires WellFormed(ty) && ty.TVec? && Scalar(ty.elem) && HasType(ty, cur) && ElementsOf(ty.elem.Wire(), ks)
    requires k.InRange() && k.Type() == ty.elem.Wire() && 0 < cut < |Payload(k)|
    ensures Merge(ty, cur, KLen(Payloads(ks) + Payload(k)[..cut]), true) ==
            Err(if k.KVarint? then InvalidVarint else UnexpectedEof)
  {
    hide Merge, MergePacked, Payload, Payloads, HasType, WellFormed;
    BrokenRun(ty, cur, ks, k, cut);
    MergeOfPackedRecord(ty, cur, Payloads(ks) + Payload(k)[..cut]);
  }
}
