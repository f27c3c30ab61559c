/** The types a message may have, their values, and what a value becomes on the wire and back. */
module Schema {
  import opened Basics
  import opened Wire

  /** A type with an encoder and a decoder.
      - `TBytes` is a byte vector or a string, `TArray` a byte array of fixed length.
      - `TMap` carries the type of its entries, the two-tuple of key and value.
      - `TStruct` is a struct or a tuple: the number of each field and its type, in order.
      - `TEnum` is an enum with explicit discriminants: those besides the default one, which is 0.
      - `TOneof` is an enum whose variants may carry one field. */
  datatype Ty =
    | TBool | TI32 | TI64 | TU32 | TU64 | TF32 | TF64
    | TBytes | TArray(len: nat)
    | TVec(elem: Ty) | TOption(elem: Ty) | TMap(elem: Ty)
    | TStruct(fields: seq<FieldTy>)
    | TEnum(numbers: seq<nat>)
    | TOneof(variants: seq<Variant>, default: nat)
  {
    function Wire(): WireType {
      match this
      case TBool | TI32 | TI64 | TU32 | TU64 | TEnum(_) => WireType.Varint
      case TF32 => I32
      case TF64 => I64
      case _ => Len
    }

    /** The types that become a run of records when they are a field. */
    predicate Repeated() {
      TVec? || TOption? || TMap?
    }

    /** The types read as a message when they are not a field. */
    predicate Message() {
      Repeated() || TStruct? || TOneof?
    }
  }

  datatype FieldTy = FieldTy(num: nat, ty: Ty)

  datatype Variant = Unit(num: nat) | Carrying(num: nat, ty: Ty)

  /** Floats are their bits. A map is its entries in iteration order, each a `VStruct` of key and value. */
  datatype Val =
    | VBool(b: bool)
    | VInt(n: int)
    | VBits(bits: nat)
    | VBytes(bytes: seq<Byte>)
    | VList(items: seq<Val>)
    | VNone | VSome(inner: Val)
    | VMap(entries: seq<Val>)
    | VStruct(fields: seq<Val>)
    | VEnum(number: nat)
    | VUnit(index: nat)
    | VCarrying(index: nat, payload: Val)

  // ---- well-formed schemas ------------------------------------------------------------------

  /** Derive macros and tuples: field numbers are distinct. Below 2^61 they survive the shift by three. */
  predicate WellFormed(ty: Ty) {
    match ty
    case TVec(e) => WellFormed(e)
    case TOption(e) => WellFormed(e)
    case TMap(e) => WellFormed(e) && EntryShaped(e)
    case TStruct(fs) =>
      && (forall i :: 0 <= i < |fs| ==> fs[i].num < U61 && WellFormed(fs[i].ty))
      && (forall i, j :: 0 <= i < j < |fs| ==> fs[i].num != fs[j].num)
    case TEnum(ns) => forall i :: 0 <= i < |ns| ==> 0 < ns[i] < U31
    case TOneof(vs, d) =>
      && d < |vs|
      && (forall i :: 0 <= i < |vs| ==> vs[i].num < U61 && (vs[i].Carrying? ==> WellFormed(vs[i].ty)))
      && (forall i, j :: 0 <= i < j < |vs| ==> vs[i].num != vs[j].num)
    case _ => true
  }

  predicate EntryShaped(e: Ty) {
    e.TStruct? && |e.fields| == 2 && e.fields[0].num == 0 && e.fields[1].num == 1 && Hashable(e.fields[0].ty)
  }

  /** Types that can be a map key: neither floats nor maps have the equality a key needs. */
  predicate Hashable(ty: Ty) {
    match ty
    case TF32 | TF64 | TMap(_) => false
    case TVec(e) => Hashable(e)
    case TOption(e) => Hashable(e)
    case TStruct(fs) => forall i :: 0 <= i < |fs| ==> Hashable(fs[i].ty)
    case TOneof(vs, _) => forall i :: 0 <= i < |vs| && vs[i].Carrying? ==> Hashable(vs[i].ty)
    case _ => true
  }

  // ---- typed values -------------------------------------------------------------------------

  predicate HasType(ty: Ty, v: Val) {
    match ty
    case TBool => v.VBool?
    case TI32 => v.VInt? && -U31 <= v.n < U31
    case TI64 => v.VInt? && -U63 <= v.n < U63
    case TU32 => v.VInt? && 0 <= v.n < U32
    case TU64 => v.VInt? && 0 <= v.n < U64
    case TF32 => v.VBits? && v.bits < U32
    case TF64 => v.VBits? && v.bits < U64
    case TBytes => v.VBytes?
    case TArray(len) => v.VBytes? && |v.bytes| == len
    case TVec(e) => v.VList? && forall i :: 0 <= i < |v.items| ==> HasType(e, v.items[i])
    case TOption(e) => v.VNone? || (v.VSome? && HasType(e, v.inner))
    case TMap(e) =>
      && v.VMap?
      && (forall i :: 0 <= i < |v.entries| ==> HasType(e, v.entries[i]) && IsEntry(v.entries[i]))
      && DistinctKeys(v.entries)
    case TStruct(fs) =>
      v.VStruct? && |v.fields| == |fs| && forall i :: 0 <= i < |fs| ==> HasType(fs[i].ty, v.fields[i])
    case TEnum(ns) => v.VEnum? && (v.number == 0 || v.number in ns)
    case TOneof(vs, _) =>
      || (v.VUnit? && v.index < |vs| && vs[v.index].Unit?)
      || (v.VCarrying? && v.index < |vs| && vs[v.index].Carrying? && HasType(vs[v.index].ty, v.payload))
  }

  predicate IsEntry(v: Val) {
    v.VStruct? && |v.fields| == 2
  }

  /** The key of a map entry. */
  function Key(e: Val): Val {
    if IsEntry(e) then e.fields[0] else e
  }

  predicate DistinctKeys(es: seq<Val>) {
    forall i, j :: 0 <= i < j < |es| ==> Key(es[i]) != Key(es[j])
  }

  /** The value decoding starts from. */
  function Default(ty: Ty): (v: Val)
    requires WellFormed(ty)
    ensures HasType(ty, v)
  {
    match ty
    case TBool => VBool(false)
    case TI32 | TI64 | TU32 | TU64 => VInt(0)
    case TF32 | TF64 => VBits(0)
    case TBytes => VBytes([])
    case TArray(len) => VBytes(seq(len, _ => 0))
    case TVec(_) => VList([])
    case TOption(_) => VNone
    case TMap(_) => VMap([])
    case TStruct(fs) => VStruct(seq(|fs|, i requires 0 <= i < |fs| => Default(fs[i].ty)))
    case TEnum(_) => VEnum(0)
    case TOneof(vs, d) =>
      match vs[d]
      case Unit(_) => VUnit(d)
      case Carrying(_, t) => VCarrying(d, Default(t))
  }

  /** The test by which structs and tuples leave a field out. Both float zeros pass it. */
  predicate IsDefault(ty: Ty, v: Val)
    requires HasType(ty, v)
  {
    match ty
    case TBool => !v.b
    case TI32 | TI64 | TU32 | TU64 => v.n == 0
    case TF32 => v.bits == 0 || v.bits == U31
    case TF64 => v.bits == 0 || v.bits == U63
    case TBytes => v.bytes == []
    case TArray(_) => v.bytes == []
    case TVec(_) => v.items == []
    case TOption(_) => v.VNone?
    case TMap(_) => v.entries == []
    case TEnum(_) => v.number == 0
    case TStruct(_) | TOneof(_, _) => false
  }

  /** The elements of a repeated value, in the order they are written. */
  function Items(ty: Ty, v: Val): (r: seq<Val>)
    requires ty.Repeated() && HasType(ty, v)
    ensures forall i :: 0 <= i < |r| ==> HasType(ty.elem, r[i])
  {
    match ty
    case TVec(_) => v.items
    case TOption(_) => if v.VNone? then [] else [v.inner]
    case TMap(_) => v.entries
  }

  // ---- maps ---------------------------------------------------------------------------------

  function IndexOfKey(es: seq<Val>, key: Val): (r: Option<nat>)
    ensures r.Some? ==> r.value < |es| && Key(es[r.value]) == key
    ensures r.None? ==> forall i :: 0 <= i < |es| ==> Key(es[i]) != key
  {
    if es == [] then None
    else if Key(es[|es| - 1]) == key then Some(|es| - 1)
    else IndexOfKey(es[..|es| - 1], key)
  }

  /** Inserting into a hash map: an equal key keeps its place and gets the new value. */
  function Insert(es: seq<Val>, e: Val): (r: seq<Val>)
    requires DistinctKeys(es)
    ensures forall i :: 0 <= i < |r| ==> r[i] == e || (i < |es| && r[i] == es[i])
    ensures DistinctKeys(r) && e in r
    ensures forall x <- es :: Key(x) != Key(e) ==> x in r
  {
    match IndexOfKey(es, Key(e))
    case Some(i) => es[i := e]
    case None => es + [e]
  }
}
