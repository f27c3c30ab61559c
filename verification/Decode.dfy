/** Merging wire data into a value, as functions of the schema. */
module Decode {
  import opened Basics
  import opened Wire
  import opened Schema
  import opened Encode
  import Varint

  type Merged = Result<Val, DecodeError>

  /** Truncation to the width of a signed type, read as two's complement. */
  function Signed(n: nat, width: int): int
    requires width > 0
  {
    var m := n % width;
    if 2 * m < width then m else m - width
  }

  function MergeScalar(ty: Ty, kind: FieldKind): (r: Merged)
    requires Scalar(ty)
    ensures r.Ok? && (ty.TF32? || ty.TF64? ==> kind.InRange()) ==> HasType(ty, r.value)
  {
    match ty.Wire()
    case Varint =>
      if !kind.KVarint? then Err(ExpectedVarintWireType) else
      (match ty
       case TBool => Ok(VBool(kind.num != 0))
       case TI32 => Ok(VInt(Signed(kind.num, U32)))
       case TI64 => Ok(VInt(Signed(kind.num, U64)))
       case TU32 => Ok(VInt(kind.num % U32))
       case TU64 => Ok(VInt(kind.num % U64))
       case TEnum(ns) => Ok(VEnum(if kind.num in ns then kind.num else 0)))
    case I32 => if kind.KI32? then Ok(VBits(kind.bits)) else Err(ExpectedI32WireType)
    case I64 => if kind.KI64? then Ok(VBits(kind.bits)) else Err(ExpectedI64WireType)
  }

  /** Payloads of fixed width stay within their width. */
  predicate Readable(kind: FieldKind) {
    kind.KLen? || kind.InRange()
  }

  /** `merge`. Inside a struct or an enum (`isField`) a repeated type takes one record at a time;
      elsewhere it is a message whose field 1 holds the records. */
  function Merge(ty: Ty, cur: Val, kind: FieldKind, isField: bool): (r: Merged)
    requires WellFormed(ty) && HasType(ty, cur) && Readable(kind)
    ensures r.Ok? ==> HasType(ty, r.value)
    decreases ty, 5, 0
  {
    if Scalar(ty) then MergeScalar(ty, kind)
    else if ty.Repeated() && isField then MergeItem(ty, cur, kind)
    else if !kind.KLen? then Err(ExpectedLenWireType)
    else if ty.TBytes? then Ok(VBytes(kind.bytes))
    else if ty.TArray? then
      if |kind.bytes| == ty.len then Ok(VBytes(kind.bytes)) else Err(ExpectedArrayLen(ty.len))
    else MergeMessage(ty, cur, kind.bytes)
  }

  /** The loop over the records of a message. */
  function MergeMessage(ty: Ty, cur: Val, s: seq<Byte>): (r: Merged)
    requires WellFormed(ty) && ty.Message() && HasType(ty, cur)
    ensures r.Ok? ==> HasType(ty, r.value)
    decreases ty, 4, |s|
  {
    match NextField(s)
    case Err(e) => Err(e)
    case Ok(End) => Ok(cur)
    case Ok(Field(num, kind, rest)) =>
      NextFieldReadable(s);
      match MergeRecord(ty, cur, num, kind)
      case Err(e) => Err(e)
      case Ok(v) => MergeMessage(ty, v, rest)
  }

  lemma NextFieldReadable(s: seq<Byte>)
    requires NextField(s).Ok? && NextField(s).value.Field?
    ensures Readable(NextField(s).value.kind)
  {
    var (tag, after) := Varint.Decode(s).value;
    NextKindInRange(WireTypeOfTag(tag).value, after);
  }

  /** The numbers of the fields of a struct, or of the variants of an enum. */
  function Numbers(ty: Ty): (r: seq<nat>)
    requires ty.TStruct? || ty.TOneof?
    ensures ty.TStruct? ==> |r| == |ty.fields| && forall i :: 0 <= i < |r| ==> r[i] == ty.fields[i].num
    ensures ty.TOneof? ==> |r| == |ty.variants| && forall i :: 0 <= i < |r| ==> r[i] == ty.variants[i].num
  {
    if ty.TStruct? then seq(|ty.fields|, i requires 0 <= i < |ty.fields| => ty.fields[i].num)
    else seq(|ty.variants|, i requires 0 <= i < |ty.variants| => ty.variants[i].num)
  }

  /** The position of a number. */
  function IndexOf(nums: seq<nat>, num: nat): (r: Option<nat>)
    ensures r.Some? ==> r.value < |nums| && nums[r.value] == num
    ensures r.None? ==> forall i :: 0 <= i < |nums| ==> nums[i] != num
  {
    if nums == [] then None
    else if nums[|nums| - 1] == num then Some(|nums| - 1)
    else IndexOf(nums[..|nums| - 1], num)
  }

  /** One record of a message: the field or variant with its number, and nothing for an unknown number. */
  function MergeRecord(ty: Ty, cur: Val, num: nat, kind: FieldKind): (r: Merged)
    requires WellFormed(ty) && ty.Message() && HasType(ty, cur) && Readable(kind)
    ensures r.Ok? ==> HasType(ty, r.value)
    decreases ty, 3, 0
  {
    if ty.Repeated() then
      if num == 1 then MergeItem(ty, cur, kind) else Ok(cur)
    else if ty.TStruct? then
      match IndexOf(Numbers(ty), num)
      case None => Ok(cur)
      case Some(i) =>
        (match Merge(ty.fields[i].ty, cur.fields[i], kind, true)
         case Err(e) => Err(e)
         case Ok(x) => Ok(VStruct(cur.fields[i := x])))
    else
      match IndexOf(Numbers(ty), num)
      case None => Ok(cur)
      case Some(i) =>
        match ty.variants[i]
        case Unit(_) => Ok(VUnit(i))
        case Carrying(_, t) =>
          var start := if cur.VCarrying? && cur.index == i then cur.payload else Default(t);
          match Merge(t, start, kind, true)
          case Err(e) => Err(e)
          case Ok(x) => Ok(VCarrying(i, x))
  }

  /** One record of a repeated type: pushed, inserted, or merged into what an option already holds. */
  function MergeItem(ty: Ty, cur: Val, kind: FieldKind): (r: Merged)
    requires WellFormed(ty) && ty.Repeated() && HasType(ty, cur) && Readable(kind)
    ensures r.Ok? ==> HasType(ty, r.value)
    decreases ty, 2, 0
  {
    if ty.TVec? && kind.KLen? && Scalar(ty.elem) then MergePacked(ty, cur, kind.bytes)
    else
      var start := if ty.TOption? && cur.VSome? then cur.inner else Default(ty.elem);
      match Merge(ty.elem, start, kind, false)
      case Err(e) => Err(e)
      case Ok(x) => Ok(Absorb(ty, cur, x))
  }

  /** A repeated value with one more element. */
  function Absorb(ty: Ty, cur: Val, x: Val): (r: Val)
    requires WellFormed(ty) && ty.Repeated() && HasType(ty, cur) && HasType(ty.elem, x)
    ensures HasType(ty, r)
  {
    match ty
    case TVec(_) => VList(cur.items + [x])
    case TOption(_) => VSome(x)
    case TMap(_) => VMap(Insert(cur.entries, x))
  }

  /** The loop over a packed record: payloads without tags. */
  function MergePacked(ty: Ty, cur: Val, s: seq<Byte>): (r: Merged)
    requires WellFormed(ty) && ty.TVec? && Scalar(ty.elem) && HasType(ty, cur)
    ensures r.Ok? ==> HasType(ty, r.value)
    decreases ty, 1, |s|
  {
    if s == [] then Ok(cur) else
    match NextKind(ty.elem.Wire(), s)
    case Err(e) => Err(e)
    case Ok((kind, rest)) =>
      NextKindInRange(ty.elem.Wire(), s);
      match Merge(ty.elem, Default(ty.elem), kind, false)
      case Err(e) => Err(e)
      case Ok(x) => MergePacked(ty, VList(cur.items + [x]), rest)
  }

  /** `from_slice`. */
  function FromSlice(ty: Ty, s: seq<Byte>): Merged
    requires WellFormed(ty)
  {
    Merge(ty, Default(ty), KLen(s), false)
  }

  // ---- merging case by case -----------------------------------------------------------------

  lemma MergeOfMessage(ty: Ty, cur: Val, s: seq<Byte>, isField: bool)
    requires WellFormed(ty) && ty.Message() && HasType(ty, cur) && !(ty.Repeated() && isField)
    ensures Merge(ty, cur, KLen(s), isField) == MergeMessage(ty, cur, s)
  {
  }

  lemma MergeOfPackedRecord(ty: Ty, cur: Val, s: seq<Byte>)
    requires WellFormed(ty) && ty.TVec? && Scalar(ty.elem) && HasType(ty, cur)
    ensures Merge(ty, cur, KLen(s), true) == MergePacked(ty, cur, s)
  {
  }

  /** One record of a repeated type that is not packed. */
  lemma {:induction false} MergeOfItem(ty: Ty, cur: Val, kind: FieldKind)
    requires WellFormed(ty) && ty.Repeated() && HasType(ty, cur) && Readable(kind)
    requires !(ty.TVec? && kind.KLen? && Scalar(ty.elem))
    ensures Merge(ty, cur, kind, true) ==
            (match Merge(ty.elem, if ty.TOption? && cur.VSome? then cur.inner else Default(ty.elem), kind, false)
             case Err(e) => Err(e)
             case Ok(x) => Ok(Absorb(ty, cur, x)))
  {
    assert Merge(ty, cur, kind, true) == MergeItem(ty, cur, kind);
  }

  lemma MergeOfOther(ty: Ty, cur: Val, kind: FieldKind)
    requires WellFormed(ty) && !ty.Repeated() && HasType(ty, cur) && Readable(kind)
    ensures Merge(ty, cur, kind, true) == Merge(ty, cur, kind, false)
  {
  }

  lemma {:induction false} MessageStep(ty: Ty, cur: Val, num: nat, k: FieldKind, rest: seq<Byte>)
    requires WellFormed(ty) && ty.Message() && HasType(ty, cur) && num < U61 && k.InRange()
    ensures MergeMessage(ty, cur, Record(num, k) + rest) ==
            (match MergeRecord(ty, cur, num, k)
             case Err(e) => Err(e)
             case Ok(v) => MergeMessage(ty, v, rest))
  {
    hide MergeRecord, Record;
    NextFieldOfRecord(num, k, rest);
  }

  lemma MessageEnd(ty: Ty, cur: Val)
    requires WellFormed(ty) && ty.Message() && HasType(ty, cur)
    ensures MergeMessage(ty, cur, []) == Ok(cur)
  {
  }

  // ---- folds over records -------------------------------------------------------------------

  predicate AllReadable(ks: seq<FieldKind>) {
    forall i :: 0 <= i < |ks| ==> Readable(ks[i])
  }

  /** Records that share a number, merged one after the other into the same message. */
  function MergeRun(ty: Ty, cur: Val, num: nat, ks: seq<FieldKind>): (r: Merged)
    requires WellFormed(ty) && ty.Message() && HasType(ty, cur) && AllReadable(ks)
    ensures r.Ok? ==> HasType(ty, r.value)
    decreases |ks|
  {
    if ks == [] then Ok(cur) else
    match MergeRecord(ty, cur, num, ks[0])
    case Err(e) => Err(e)
    case Ok(v) => MergeRun(ty, v, num, ks[1..])
  }

  /** The same records, merged one after the other into the field they belong to. */
  function MergeField(ty: Ty, cur: Val, ks: seq<FieldKind>): (r: Merged)
    requires WellFormed(ty) && HasType(ty, cur) && AllReadable(ks)
    ensures r.Ok? ==> HasType(ty, r.value)
    decreases |ks|
  {
    if ks == [] then Ok(cur) else
    match Merge(ty, cur, ks[0], true)
    case Err(e) => Err(e)
    case Ok(v) => MergeField(ty, v, ks[1..])
  }

  predicate AllInRange(ks: seq<FieldKind>) {
    forall i :: 0 <= i < |ks| ==> ks[i].InRange()
  }

  /** Written records are read back as the run they came from. */
  lemma {:induction false} MessageOfRecords(ty: Ty, cur: Val, num: nat, ks: seq<FieldKind>, rest: seq<Byte>)
    requires WellFormed(ty) && ty.Message() && HasType(ty, cur) && num < U61 && AllInRange(ks)
    ensures AllReadable(ks)
    ensures MergeMessage(ty, cur, Records(num, ks) + rest) ==
            (match MergeRun(ty, cur, num, ks)
             case Err(e) => Err(e)
             case Ok(v) => MergeMessage(ty, v, rest))
    decreases |ks|
  {
    hide MergeRecord, MergeMessage, Record;
    if ks == [] {
      assert Records(num, ks) + rest == rest;
    } else {
      var after := Records(num, ks[1..]) + rest;
      assert Records(num, ks) + rest == Record(num, ks[0]) + after;
      MessageStep(ty, cur, num, ks[0], after);
      match MergeRecord(ty, cur, num, ks[0])
      case Err(_) =>
      case Ok(v) => MessageOfRecords(ty, v, num, ks[1..], rest);
    }
  }
}
