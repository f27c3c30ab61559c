/** Wire types, field kinds and the record layer: a message is a run of records, each a tag and a
    payload (Protocol Buffers Encoding guide, "Message Structure"). */
module Wire {
  import opened Basics
  import Varint

  datatype WireType = Varint | I32 | I64 | Len {

    function AsNum(): (n: nat)
      ensures n < 8
    {
      match this
      case Varint => 0
      case I64 => 1
      case Len => 2
      case I32 => 5
    }

    predicate CanBePacked() {
      Varint? || I32? || I64?
    }
  }

  datatype DecodeError =
    | UnexpectedEof
    | ExpectedEof
    | InvalidVarint
    | InvalidWireType(b: nat)
    | ExpectedVarintWireType
    | ExpectedI32WireType
    | ExpectedI64WireType
    | ExpectedLenWireType
    | ExpectedArrayLen(len: nat)

  /** The low three bits of a tag. */
  function WireTypeOfTag(tag: nat): Result<WireType, DecodeError> {
    var b := tag % 8;
    if b == 0 then Ok(WireType.Varint)
    else if b == 1 then Ok(I64)
    else if b == 2 then Ok(Len)
    else if b == 5 then Ok(I32)
    else Err(InvalidWireType(b))
  }

  /** The payload of one field as the record layer hands it out. */
  datatype FieldKind = KVarint(num: nat) | KI32(bits: nat) | KI64(bits: nat) | KLen(bytes: seq<Byte>) {

    function Type(): WireType {
      match this
      case KVarint(_) => WireType.Varint
      case KI32(_) => I32
      case KI64(_) => I64
      case KLen(_) => Len
    }

    /** Within the ranges of the machine types behind the payload. */
    predicate InRange() {
      match this
      case KVarint(n) => n < U64
      case KI32(n) => n < U32
      case KI64(n) => n < U64
      case KLen(b) => |b| < U64
    }
  }

  // ---- writing ------------------------------------------------------------------------------

  /** `count` bytes of `n`, least significant first. */
  function LittleEndian(n: nat, count: nat): (r: seq<Byte>)
    ensures |r| == count
  {
    if count == 0 then [] else [n % 256] + LittleEndian(n / 256, count - 1)
  }

  function FromLittleEndian(s: seq<Byte>): nat {
    if s == [] then 0 else s[0] + 256 * FromLittleEndian(s[1..])
  }

  /** The number shifted left by three in 64 bits: what lies above bit 60 is lost. */
  function ShiftedNumber(num: nat): (r: nat)
    ensures r % 8 == 0 && r < U64
    ensures num < U61 ==> r == 8 * num
  {
    (num * 8) % U64
  }

  function Tag(num: nat, w: WireType): (r: seq<Byte>)
    ensures |r| >= 1
  {
    Varint.Encoded(ShiftedNumber(num) + w.AsNum())
  }

  /** The size of a tag, computed without its wire type. */
  function TagSize(num: nat): nat {
    Varint.Size(ShiftedNumber(num))
  }

  function Payload(k: FieldKind): (r: seq<Byte>)
    ensures |r| >= 1
  {
    match k
    case KVarint(n) => Varint.Encoded(n)
    case KI32(n) => LittleEndian(n, 4)
    case KI64(n) => LittleEndian(n, 8)
    case KLen(b) => Varint.Encoded(|b|) + b
  }

  function Record(num: nat, k: FieldKind): (r: seq<Byte>)
    ensures |r| >= 2
  {
    Tag(num, k.Type()) + Payload(k)
  }

  /** A run of records that share a number. */
  function Records(num: nat, ks: seq<FieldKind>): (r: seq<Byte>)
    ensures |r| >= 2 * |ks|
  {
    if ks == [] then [] else Record(num, ks[0]) + Records(num, ks[1..])
  }

  /** Payloads without tags: the inside of a packed record. */
  function Payloads(ks: seq<FieldKind>): (r: seq<Byte>)
    ensures |r| >= |ks|
  {
    if ks == [] then [] else Payload(ks[0]) + Payloads(ks[1..])
  }

  // ---- reading ------------------------------------------------------------------------------

  function ReadBytes(s: seq<Byte>, len: nat): Option<(seq<Byte>, seq<Byte>)> {
    if len <= |s| then Some((s[..len], s[len..])) else None
  }

  /** One payload of a known wire type, and the unread rest. */
  function NextKind(w: WireType, s: seq<Byte>): (r: Result<(FieldKind, seq<Byte>), DecodeError>)
    ensures r.Ok? ==> |r.value.1| < |s| && r.value.0.Type() == w
  {
    match w
    case Varint => (match Varint.Decode(s)
                    case None => Err(InvalidVarint)
                    case Some((n, rest)) => Ok((KVarint(n), rest)))
    case I64 => (match ReadBytes(s, 8)
                 case None => Err(UnexpectedEof)
                 case Some((b, rest)) => Ok((KI64(FromLittleEndian(b)), rest)))
    case I32 => (match ReadBytes(s, 4)
                 case None => Err(UnexpectedEof)
                 case Some((b, rest)) => Ok((KI32(FromLittleEndian(b)), rest)))
    case Len => (match Varint.Decode(s)
                 case None => Err(InvalidVarint)
                 case Some((n, after)) =>
                   match ReadBytes(after, n)
                   case None => Err(UnexpectedEof)
                   case Some((b, rest)) => Ok((KLen(b), rest)))
  }

  datatype Next = End | Field(num: nat, kind: FieldKind, rest: seq<Byte>)

  /** The next record of a message. A field always takes at least two bytes, so every message loop ends. */
  function NextField(s: seq<Byte>): (r: Result<Next, DecodeError>)
    ensures r.Ok? && r.value.End? <==> s == []
    ensures r.Ok? && r.value.Field? ==> |r.value.rest| + 2 <= |s|
  {
    if s == [] then Ok(End) else
    match Varint.Decode(s)
    case None => Err(InvalidVarint)
    case Some((tag, after)) =>
      match WireTypeOfTag(tag)
      case Err(e) => Err(e)
      case Ok(w) =>
        match NextKind(w, after)
        case Err(e) => Err(e)
        case Ok((kind, rest)) => Ok(Field(tag / 8, kind, rest))
  }

  // ---- read after write ---------------------------------------------------------------------

  lemma {:induction false} LittleEndianRoundTrip(n: nat, count: nat)
    requires n < Pow256(count)
    ensures FromLittleEndian(LittleEndian(n, count)) == n
  {
    if count > 0 {
      assert LittleEndian(n, count)[1..] == LittleEndian(n / 256, count - 1);
      LittleEndianRoundTrip(n / 256, count - 1);
    }
  }

  ghost function Pow256(count: nat): nat {
    if count == 0 then 1 else 256 * Pow256(count - 1)
  }

  lemma Pow256Table()
    ensures Pow256(4) == U32 && Pow256(8) == U64
  {
    assert Pow256(4) == 256 * Pow256(3) == 256 * 256 * Pow256(2);
    assert Pow256(8) == 256 * Pow256(7) == 256 * 256 * Pow256(6) == 256 * 256 * 256 * Pow256(5);
  }

  lemma {:induction false} FromLittleEndianFits(s: seq<Byte>)
    ensures FromLittleEndian(s) < Pow256(|s|)
  {
    if s != [] { FromLittleEndianFits(s[1..]); }
  }

  lemma ReadBytesOfConcat(b: seq<Byte>, rest: seq<Byte>)
    ensures ReadBytes(b + rest, |b|) == Some((b, rest))
  {
    assert (b + rest)[..|b|] == b && (b + rest)[|b|..] == rest;
  }

  /** Reading a payload back gives the payload and leaves the rest. */
  lemma NextKindOfPayload(k: FieldKind, rest: seq<Byte>)
    requires k.InRange()
    ensures NextKind(k.Type(), Payload(k) + rest) == Ok((k, rest))
  {
    Pow256Table();
    match k
    case KVarint(n) =>
      Varint.DecodeEncoded(n, rest);
    case KI32(n) =>
      ReadBytesOfConcat(LittleEndian(n, 4), rest);
      LittleEndianRoundTrip(n, 4);
    case KI64(n) =>
      ReadBytesOfConcat(LittleEndian(n, 8), rest);
      LittleEndianRoundTrip(n, 8);
    case KLen(b) =>
      Varint.DecodeEncoded(|b|, b + rest);
      assert Payload(k) + rest == Varint.Encoded(|b|) + (b + rest);
      ReadBytesOfConcat(b, rest);
  }

  lemma TagSplits(num: nat, w: WireType)
    requires num < U61
    ensures ShiftedNumber(num) + w.AsNum() < U64
    ensures (ShiftedNumber(num) + w.AsNum()) / 8 == num
    ensures WireTypeOfTag(ShiftedNumber(num) + w.AsNum()) == Ok(w)
  {
    assert (8 * num + w.AsNum()) % 8 == w.AsNum();
  }

  /** Reading a record back gives its number and payload and leaves the rest. */
  lemma NextFieldOfRecord(num: nat, k: FieldKind, rest: seq<Byte>)
    requires num < U61 && k.InRange()
    ensures NextField(Record(num, k) + rest) == Ok(Field(num, k, rest))
  {
    var tag := ShiftedNumber(num) + k.Type().AsNum();
    TagSplits(num, k.Type());
    assert Record(num, k) + rest == Varint.Encoded(tag) + (Payload(k) + rest);
    Varint.DecodeEncoded(tag, Payload(k) + rest);
    NextKindOfPayload(k, rest);
  }

  lemma TagSizeIsLength(num: nat, w: WireType)
    ensures TagSize(num) == |Tag(num, w)|
  {
    var a := ShiftedNumber(num) / 8;
    Varint.SizeIsLength(ShiftedNumber(num));
    Varint.LowBitsKeepLength(a, w.AsNum());
  }

  /** The format: a record is a tag, the number times eight plus 0, 1, 2 or 5, and then a varint, eight or four bytes
      with the lowest first, or a length and as many bytes. */
  lemma RecordFormat(num: nat, k: FieldKind)
    requires num < U61 && k.InRange()
    ensures match k
      case KVarint(n) => Record(num, k) == Varint.Encoded(8 * num) + Varint.Encoded(n)
      case KI64(n) => exists b :: |b| == 8 && FromLittleEndian(b) == n && Record(num, k) == Varint.Encoded(8 * num + 1) + b
      case KLen(b) => Record(num, k) == Varint.Encoded(8 * num + 2) + Varint.Encoded(|b|) + b
      case KI32(n) => exists b :: |b| == 4 && FromLittleEndian(b) == n && Record(num, k) == Varint.Encoded(8 * num + 5) + b
  {
    Pow256Table();
    match k
    case KVarint(_) =>
    case KI32(n) => LittleEndianRoundTrip(n, 4); assert |LittleEndian(n, 4)| == 4;
    case KI64(n) => LittleEndianRoundTrip(n, 8); assert |LittleEndian(n, 8)| == 8;
    case KLen(b) => assert Tag(num, Len) + (Varint.Encoded(|b|) + b) == Tag(num, Len) + Varint.Encoded(|b|) + b;
  }

  // ---- what is not a record -----------------------------------------------------------------

  /** How reading fails on a record of which only the first bytes are there. */
  function CutError(num: nat, k: FieldKind, cut: nat): DecodeError {
    if cut < |Tag(num, k.Type())| || k.KVarint? then InvalidVarint
    else if k.KLen? && cut < |Tag(num, k.Type())| + |Varint.Encoded(|k.bytes|)| then InvalidVarint
    else UnexpectedEof
  }

  lemma CutPayload(k: FieldKind, cut: nat)
    requires k.InRange() && cut < |Payload(k)|
    ensures NextKind(k.Type(), Payload(k)[..cut]) ==
            Err(if k.KVarint? || (k.KLen? && cut < |Varint.Encoded(|k.bytes|)|) then InvalidVarint else UnexpectedEof)
  {
    match k
    case KVarint(n) => Varint.CutShort(n, cut);
    case KI32(_) =>
    case KI64(_) =>
    case KLen(b) =>
      var len := Varint.Encoded(|b|);
      if cut < |len| {
        assert Payload(k)[..cut] == len[..cut];
        Varint.CutShort(|b|, cut);
      } else {
        assert Payload(k)[..cut] == len + b[..cut - |len|];
        Varint.DecodeEncoded(|b|, b[..cut - |len|]);
      }
  }

  /** What reading makes of a tag. */
  lemma {:induction false} ReadTag(n: nat, rest: seq<Byte>)
    requires n < U64
    ensures NextField(Varint.Encoded(n) + rest) ==
            (match WireTypeOfTag(n)
             case Err(e) => Err(e)
             case Ok(w) =>
               match NextKind(w, rest)
               case Err(e) => Err(e)
               case Ok((kind, after)) => Ok(Field(n / 8, kind, after)))
  {
    hide NextKind, WireTypeOfTag;
    Varint.DecodeEncoded(n, rest);
  }

  lemma NoTag(s: seq<Byte>)
    requires s != [] && Varint.Decode(s) == None
    ensures NextField(s) == Err(InvalidVarint)
  {
  }

  lemma CutTag(num: nat, w: WireType, cut: nat)
    requires num < U61 && 0 < cut < |Tag(num, w)|
    ensures NextField(Tag(num, w)[..cut]) == Err(InvalidVarint)
  {
    Varint.CutShort(ShiftedNumber(num) + w.AsNum(), cut);
    NoTag(Tag(num, w)[..cut]);
  }

  lemma {:induction false} AfterTag(num: nat, w: WireType, part: seq<Byte>)
    requires num < U61
    ensures NextField(Tag(num, w) + part) ==
            (match NextKind(w, part)
             case Err(e) => Err(e)
             case Ok((kind, after)) => Ok(Field(num, kind, after)))
  {
    TagSplits(num, w);
    hide NextField, NextKind, WireTypeOfTag;
    ReadTag(ShiftedNumber(num) + w.AsNum(), part);
  }

  lemma CutOfTwo(a: seq<Byte>, b: seq<Byte>, cut: nat)
    requires cut <= |a + b|
    ensures (a + b)[..cut] == if cut < |a| then a[..cut] else a + b[..cut - |a|]
  {
  }

  /** No part of a record is read as a record: cut off anywhere, it is an error, which says whether a varint or the
      bytes after it are missing. */
  lemma CutRecord(num: nat, k: FieldKind, cut: nat)
    requires num < U61 && k.InRange() && 0 < cut < |Record(num, k)|
    ensures NextField(Record(num, k)[..cut]) == Err(CutError(num, k, cut))
  {
    hide NextField, NextKind, Payload, Tag;
    var tag := Tag(num, k.Type());
    CutOfTwo(tag, Payload(k), cut);
    if cut < |tag| {
      CutTag(num, k.Type(), cut);
    } else {
      AfterTag(num, k.Type(), Payload(k)[..cut - |tag|]);
      CutPayload(k, cut - |tag|);
    }
  }

  lemma UnusedTag(num: nat, w: nat)
    requires num < U61 && w in {3, 4, 6, 7}
    ensures 8 * num + w < U64 && WireTypeOfTag(8 * num + w) == Err(InvalidWireType(w))
  {
    assert (8 * num + w) % 8 == w;
  }

  /** The wire types nobody uses are refused. */
  lemma UnknownWireType(num: nat, w: nat, rest: seq<Byte>)
    requires num < U61 && w in {3, 4, 6, 7}
    ensures NextField(Varint.Encoded(8 * num + w) + rest) == Err(InvalidWireType(w))
  {
    hide NextField, NextKind, WireTypeOfTag;
    UnusedTag(num, w);
    ReadTag(8 * num + w, rest);
  }

  // ---- reading does not look ahead ----------------------------------------------------------

  lemma ReadBytesExtends(s: seq<Byte>, t: seq<Byte>, len: nat)
    requires len <= |s|
    ensures ReadBytes(s + t, len) == Some((s[..len], s[len..] + t))
  {
    assert (s + t)[..len] == s[..len] && (s + t)[len..] == s[len..] + t;
  }

  lemma NextKindExtends(w: WireType, s: seq<Byte>, t: seq<Byte>)
    requires NextKind(w, s).Ok?
    ensures NextKind(w, s + t) == Ok((NextKind(w, s).value.0, NextKind(w, s).value.1 + t))
  {
    match w
    case Varint => Varint.DecodeFromExtends(s, t, 0, 0);
    case I64 => ReadBytesExtends(s, t, 8);
    case I32 => ReadBytesExtends(s, t, 4);
    case Len =>
      Varint.DecodeFromExtends(s, t, 0, 0);
      var (n, after) := Varint.Decode(s).value;
      ReadBytesExtends(after, t, n);
  }

  /** A record that reads well reads the same with more input behind it. */
  lemma NextFieldExtends(s: seq<Byte>, t: seq<Byte>)
    requires NextField(s).Ok? && NextField(s).value.Field?
    ensures NextField(s + t) == Ok(NextField(s).value.(rest := NextField(s).value.rest + t))
  {
    Varint.DecodeFromExtends(s, t, 0, 0);
    var (tag, after) := Varint.Decode(s).value;
    NextKindExtends(WireTypeOfTag(tag).value, after, t);
  }

  /** Whatever the input, a record that reads well has its payload in range. */
  lemma NextKindInRange(w: WireType, s: seq<Byte>)
    requires NextKind(w, s).Ok?
    ensures w != Len ==> NextKind(w, s).value.0.InRange()
  {
    Pow256Table();
    match w
    case Varint => Varint.DecodeFits(s);
    case I64 => FromLittleEndianFits(s[..8]);
    case I32 => FromLittleEndianFits(s[..4]);
    case Len =>
  }

  lemma {:induction false} RecordsOfConcat(num: nat, a: seq<FieldKind>, b: seq<FieldKind>)
    ensures Records(num, a + b) == Records(num, a) + Records(num, b)
  {
    hide Record;
    if a == [] {
      assert a + b == b;
    } else {
      assert (a + b)[1..] == a[1..] + b;
      RecordsOfConcat(num, a[1..], b);
    }
  }

  lemma {:induction false} PayloadsOfConcat(a: seq<FieldKind>, b: seq<FieldKind>)
    ensures Payloads(a + b) == Payloads(a) + Payloads(b)
  {
    hide Payload;
    if a == [] {
      assert a + b == b;
    } else {
      assert (a + b)[1..] == a[1..] + b;
      PayloadsOfConcat(a[1..], b);
    }
  }
}
