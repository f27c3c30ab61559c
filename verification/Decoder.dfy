/** The decoder as the code has it: a cursor over a message, and merge loops that drive it. */
module Decoder {
  import opened Basics
  import opened Wire
  import opened Schema
  import opened Encode
  import opened Decode
  import Varint
  import Encoder
  import RoundTrip

  class MessageDecoder {
    const data: seq<Byte>
    var pos: nat

    predicate Valid()
      reads this
    {
      pos <= |data|
    }

    function Remaining(): seq<Byte>
      requires Valid()
      reads this
    {
      data[pos..]
    }

    constructor (bytes: seq<Byte>)
      ensures Valid() && Remaining() == bytes && data == bytes
    {
      data := bytes;
      pos := 0;
    }

    /** The varint read loop: at most ten bytes, and the last one must end the number. */
    method NextVarint() returns (r: Result<nat, DecodeError>)
      requires Valid()
      modifies this
      ensures Valid()
      ensures match Varint.Decode(old(Remaining()))
              case None => r == Err(InvalidVarint)
              case Some((n, rest)) => r == Ok(n) && Remaining() == rest
    {
      hide Varint.Shifted;
      var val: nat := 0;
      for i := 0 to Varint.MAX_LEN
        invariant Valid()
        invariant Varint.DecodeFrom(Remaining(), i, val) == Varint.Decode(old(Remaining()))
      {
        if pos == |data| {
          return Err(InvalidVarint);
        }
        var b := data[pos];
        assert Remaining()[0] == b && Remaining()[1..] == data[pos + 1..];
        pos := pos + 1;
        val := val + Varint.Shifted(b % 128, i) % U64;
        if b < 128 {
          return Ok(val);
        }
      }
      return Err(InvalidVarint);
    }

    method ReadBytes(len: nat) returns (r: Result<seq<Byte>, DecodeError>)
      requires Valid()
      modifies this
      ensures Valid()
      ensures match Wire.ReadBytes(old(Remaining()), len)
              case None => r == Err(UnexpectedEof) && pos == old(pos)
              case Some((b, rest)) => r == Ok(b) && Remaining() == rest
    {
      if |data| - pos < len {
        return Err(UnexpectedEof);
      }
      assert Remaining()[..len] == data[pos..pos + len] && Remaining()[len..] == data[pos + len..];
      r := Ok(data[pos..pos + len]);
      pos := pos + len;
    }

    method NextKind(w: WireType) returns (r: Result<FieldKind, DecodeError>)
      requires Valid()
      modifies this
      ensures Valid()
      ensures match Wire.NextKind(w, old(Remaining()))
              case Err(e) => r == Err(e)
              case Ok((k, rest)) => r == Ok(k) && Remaining() == rest
    {
      match w
      case Varint =>
        var n := NextVarint();
        if n.Err? { return Err(n.error); }
        return Ok(KVarint(n.value));
      case I64 =>
        var b := ReadBytes(8);
        if b.Err? { return Err(b.error); }
        return Ok(KI64(FromLittleEndian(b.value)));
      case I32 =>
        var b := ReadBytes(4);
        if b.Err? { return Err(b.error); }
        return Ok(KI32(FromLittleEndian(b.value)));
      case Len =>
        var n := NextVarint();
        if n.Err? { return Err(n.error); }
        var b := ReadBytes(n.value);
        if b.Err? { return Err(b.error); }
        return Ok(KLen(b.value));
    }

    /** The next payload of a packed record, if there is one. */
    method MaybeNextKind(w: WireType) returns (r: Result<Option<FieldKind>, DecodeError>)
      requires Valid()
      modifies this
      ensures Valid()
      ensures if old(Remaining()) == [] then r == Ok(None) && Remaining() == [] else
              match Wire.NextKind(w, old(Remaining()))
              case Err(e) => r == Err(e)
              case Ok((k, rest)) => r == Ok(Some(k)) && Remaining() == rest
    {
      if pos == |data| {
        return Ok(None);
      }
      var k := NextKind(w);
      if k.Err? { return Err(k.error); }
      return Ok(Some(k.value));
    }

    /** The next record of a message, if there is one. */
    method Next() returns (r: Result<Option<(nat, FieldKind)>, DecodeError>)
      requires Valid()
      modifies this
      ensures Valid()
      ensures match NextField(old(Remaining()))
              case Err(e) => r == Err(e)
              case Ok(End) => r == Ok(None) && Remaining() == []
              case Ok(Field(num, kind, rest)) => r == Ok(Some((num, kind))) && Remaining() == rest
    {
      if pos == |data| {
        return Ok(None);
      }
      var tag := NextVarint();
      if tag.Err? { return Err(tag.error); }
      var w := WireTypeOfTag(tag.value);
      if w.Err? { return Err(w.error); }
      var kind := NextKind(w.value);
      if kind.Err? { return Err(kind.error); }
      return Ok(Some((tag.value / 8, kind.value)));
    }

    method Finish() returns (r: Result<(), DecodeError>)
      requires Valid()
      ensures r == if Remaining() == [] then Ok(()) else Err(ExpectedEof)
    {
      return if pos == |data| then Ok(()) else Err(ExpectedEof);
    }
  }

  /** `merge`. */
  method MergeValue(ty: Ty, cur: Val, kind: FieldKind, isField: bool) returns (r: Merged)
    requires WellFormed(ty) && HasType(ty, cur) && Readable(kind)
    ensures r == Merge(ty, cur, kind, isField)
    decreases ty, 5, 0
  {
    if Scalar(ty) {
      return MergeScalar(ty, kind);
    }
    if ty.Repeated() && isField {
      r := MergeIntoRepeated(ty, cur, kind);
      return;
    }
    if !kind.KLen? {
      return Err(ExpectedLenWireType);
    }
    if ty.TBytes? {
      return Ok(VBytes(kind.bytes));
    }
    if ty.TArray? {
      return if |kind.bytes| == ty.len then Ok(VBytes(kind.bytes)) else Err(ExpectedArrayLen(ty.len));
    }
    r := MergeWholeMessage(ty, cur, kind.bytes);
  }

  /** The message loop: record after record until the input ends. */
  method MergeWholeMessage(ty: Ty, cur: Val, bytes: seq<Byte>) returns (r: Merged)
    requires WellFormed(ty) && ty.Message() && HasType(ty, cur)
    ensures r == MergeMessage(ty, cur, bytes)
    decreases ty, 4, 0
  {
    hide MergeRecord, MergeMessage, NextField, WellFormed, HasType;
    var parser := new MessageDecoder(bytes);
    var v := cur;
    while true
      invariant parser.Valid() && fresh(parser) && HasType(ty, v)
      invariant MergeMessage(ty, v, parser.Remaining()) == MergeMessage(ty, cur, bytes)
      decreases |parser.Remaining()|
    {
      NextReadable(parser.Remaining());
      NextShrinks(parser.Remaining());
      MessageUnfolds(ty, v, parser.Remaining());
      var field := parser.Next();
      if field.Err? { return Err(field.error); }
      if field.value.None? { break; }
      var (num, k) := field.value.value;
      var merged := MergeIntoMessage(ty, v, num, k);
      if merged.Err? { return merged; }
      v := merged.value;
    }
    var done := parser.Finish();
    return if done.Ok? then Ok(v) else Err(ExpectedEof);
  }

  lemma NextShrinks(s: seq<Byte>)
    ensures NextField(s).Ok? && NextField(s).value.Field? ==> |NextField(s).value.rest| < |s|
  {
  }

  lemma {:induction false} MessageUnfolds(ty: Ty, v: Val, s: seq<Byte>)
    requires WellFormed(ty) && ty.Message() && HasType(ty, v)
    ensures NextField(s).Ok? && NextField(s).value.Field? ==> Readable(NextField(s).value.kind)
    ensures MergeMessage(ty, v, s) ==
            (match NextField(s)
             case Err(e) => Err(e)
             case Ok(End) => Ok(v)
             case Ok(Field(num, kind, rest)) =>
               match MergeRecord(ty, v, num, kind)
               case Err(e) => Err(e)
               case Ok(w) => MergeMessage(ty, w, rest))
    ensures NextField(s).Ok? && NextField(s).value.Field? ==>
              var r := MergeRecord(ty, v, NextField(s).value.num, NextField(s).value.kind); r.Ok? ==> HasType(ty, r.value)
  {
    hide MergeRecord, NextField;
    NextReadable(s);
  }

  lemma NextReadable(s: seq<Byte>)
    ensures NextField(s).Ok? && NextField(s).value.Field? ==> Readable(NextField(s).value.kind)
  {
    if NextField(s).Ok? && NextField(s).value.Field? { NextFieldReadable(s); }
  }

  /** The arms of the message loop. */
  method MergeIntoMessage(ty: Ty, cur: Val, num: nat, kind: FieldKind) returns (r: Merged)
    requires WellFormed(ty) && ty.Message() && HasType(ty, cur) && Readable(kind)
    ensures r == MergeRecord(ty, cur, num, kind)
    decreases ty, 3, 0
  {
    hide Merge, MergeItem;
    if ty.Repeated() {
      if num != 1 { return Ok(cur); }
      r := MergeIntoRepeated(ty, cur, kind);
    } else if ty.TStruct? {
      var i := IndexOf(Numbers(ty), num);
      if i.None? { return Ok(cur); }
      var x := MergeValue(ty.fields[i.value].ty, cur.fields[i.value], kind, true);
      if x.Err? { return x; }
      return Ok(VStruct(cur.fields[i.value := x.value]));
    } else {
      var i := IndexOf(Numbers(ty), num);
      if i.None? { return Ok(cur); }
      match ty.variants[i.value]
      case Unit(_) => return Ok(VUnit(i.value));
      case Carrying(_, t) =>
        var start := if cur.VCarrying? && cur.index == i.value then cur.payload else Default(t);
        var x := MergeValue(t, start, kind, true);
        if x.Err? { return x; }
        return Ok(VCarrying(i.value, x.value));
    }
  }

  /** One record of a vector, an option or a map. */
  method MergeIntoRepeated(ty: Ty, cur: Val, kind: FieldKind) returns (r: Merged)
    requires WellFormed(ty) && ty.Repeated() && HasType(ty, cur) && Readable(kind)
    ensures r == MergeItem(ty, cur, kind)
    decreases ty, 2, 0
  {
    if ty.TVec? && kind.KLen? && Scalar(ty.elem) {
      var parser := new MessageDecoder(kind.bytes);
      var v := cur;
      while true
        invariant parser.Valid() && fresh(parser) && HasType(ty, v)
        invariant MergePacked(ty, v, parser.Remaining()) == MergePacked(ty, cur, kind.bytes)
        decreases |parser.Remaining()|
      {
        KindReadable(ty.elem.Wire(), parser.Remaining());
        var k := parser.MaybeNextKind(ty.elem.Wire());
        if k.Err? { return Err(k.error); }
        if k.value.None? { break; }
        var x := MergeValue(ty.elem, Default(ty.elem), k.value.value, false);
        if x.Err? { return x; }
        v := VList(v.items + [x.value]);
      }
      var done := parser.Finish();
      return if done.Ok? then Ok(v) else Err(ExpectedEof);
    }
    var start := if ty.TOption? && cur.VSome? then cur.inner else Default(ty.elem);
    var x := MergeValue(ty.elem, start, kind, false);
    if x.Err? { return x; }
    return Ok(Absorb(ty, cur, x.value));
  }

  lemma KindReadable(w: WireType, s: seq<Byte>)
    requires w != Len
    ensures Wire.NextKind(w, s).Ok? ==> Readable(Wire.NextKind(w, s).value.0)
  {
    if Wire.NextKind(w, s).Ok? { NextKindInRange(w, s); }
  }

  /** Write a value with the encoder, read it with the decoder: a canonical value of a message type is
      what comes back, and no other value of any type comes back as it was. */
  method EncodeThenDecode(ty: Ty, v: Val) returns (r: Merged)
    requires WellFormed(ty) && HasType(ty, v) && |ToVec(ty, v)| < U64
    ensures r == Ok(v) <==> ty.Wire().Len? && RoundTrip.Canonical(ty, v)
    ensures ty.Wire().Len? ==> r == Ok(RoundTrip.Normal(ty, v))
  {
    var encoder := new Encoder.MessageEncoder();
    encoder.Encode(ty, v, None);
    assert encoder.inner == ToVec(ty, v);
    r := MergeValue(ty, Default(ty), KLen(encoder.inner), false);
    hide Merge, Bytes, WellFormed, HasType, RoundTrip.Canonical, RoundTrip.Normal;
    RoundTrip.RoundTrip(ty, v);
    RoundTrip.RoundTripExactly(ty, v);
  }
}
