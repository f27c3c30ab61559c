/** Laws of the wire format that hold for every decoded input, not only for what the encoder writes. */
module MessageLaws {
  import opened Basics
  import opened Wire
  import opened Schema
  import opened Encode
  import opened Decode
  import opened RoundTrip

  // ---- concatenation is merging ("Last One Wins") -------------------------------------------

  /** If `a` decodes fully, decoding `a` followed by `b` is decoding `b` into what `a` made. */
  lemma {:induction false} ConcatIsMerge(ty: Ty, cur: Val, a: seq<Byte>, b: seq<Byte>)
    requires WellFormed(ty) && ty.Message() && HasType(ty, cur)
    requires MergeMessage(ty, cur, a).Ok?
    ensures MergeMessage(ty, cur, a + b) == MergeMessage(ty, MergeMessage(ty, cur, a).value, b)
    decreases |a|
  {
    if a == [] {
      assert a + b == b;
    } else {
      var f := NextField(a).value;
      NextFieldExtends(a, b);
      NextFieldReadable(a);
      ConcatIsMerge(ty, MergeRecord(ty, cur, f.num, f.kind).value, f.rest, b);
    }
  }

  /** The input is a run of complete records. */
  predicate Whole(s: seq<Byte>)
    decreases |s|
  {
    s == [] || (NextField(s).Ok? && Whole(NextField(s).value.rest))
  }

  /** The same when `a` may fail: then the failure is the result, whatever comes after. */
  lemma {:induction false} ConcatIsFold(ty: Ty, cur: Val, a: seq<Byte>, b: seq<Byte>)
    requires WellFormed(ty) && ty.Message() && HasType(ty, cur) && Whole(a)
    ensures MergeMessage(ty, cur, a + b) ==
            (match MergeMessage(ty, cur, a)
             case Err(e) => Err(e)
             case Ok(v) => MergeMessage(ty, v, b))
    decreases |a|
  {
    hide MergeRecord;
    if a == [] {
      assert a + b == b;
    } else {
      var f := NextField(a).value;
      NextFieldExtends(a, b);
      NextFieldReadable(a);
      match MergeRecord(ty, cur, f.num, f.kind)
      case Err(_) =>
      case Ok(v) => ConcatIsFold(ty, v, f.rest, b);
    }
  }

  // ---- fields do not disturb each other -----------------------------------------------------

  /** A struct with another value in one field. */
  function Put(v: Val, i: nat, x: Val): Val
    requires v.VStruct? && i < |v.fields|
  {
    VStruct(v.fields[i := x])
  }

  /** A result, with another value in one field if it is a struct. */
  function PutResult(r: Merged, i: nat, x: Val): Merged {
    match r
    case Err(e) => Err(e)
    case Ok(v) => Ok(if v.VStruct? && i < |v.fields| then Put(v, i, x) else v)
  }

  /** A run of complete records, none of them with this number. */
  predicate Avoids(s: seq<Byte>, num: nat)
    decreases |s|
  {
    s == [] || (NextField(s).Ok? && NextField(s).value.num != num && Avoids(NextField(s).value.rest, num))
  }

  lemma {:induction false} AvoidsIsWhole(s: seq<Byte>, num: nat)
    requires Avoids(s, num)
    ensures Whole(s)
    decreases |s|
  {
    if s != [] { AvoidsIsWhole(NextField(s).value.rest, num); }
  }

  /** A record with another number neither sees nor changes the field. */
  lemma RecordApart(ty: Ty, cur: Val, i: nat, z: Val, num: nat, kind: FieldKind)
    requires WellFormed(ty) && ty.TStruct? && HasType(ty, cur) && Readable(kind)
    requires i < |ty.fields| && HasType(ty.fields[i].ty, z) && num != ty.fields[i].num
    ensures MergeRecord(ty, Put(cur, i, z), num, kind) == PutResult(MergeRecord(ty, cur, num, kind), i, z)
    ensures MergeRecord(ty, cur, num, kind).Ok? ==> MergeRecord(ty, cur, num, kind).value.fields[i] == cur.fields[i]
  {
    hide Merge;
    var at := IndexOf(Numbers(ty), num);
    if at.Some? && Merge(ty.fields[at.value].ty, cur.fields[at.value], kind, true).Ok? {
      var x := Merge(ty.fields[at.value].ty, cur.fields[at.value], kind, true).value;
      assert cur.fields[i := z][at.value := x] == cur.fields[at.value := x][i := z];
    }
  }

  /** Nor does a run of them. */
  lemma {:induction false} MessageApart(ty: Ty, cur: Val, i: nat, z: Val, b: seq<Byte>)
    requires WellFormed(ty) && ty.TStruct? && HasType(ty, cur)
    requires i < |ty.fields| && HasType(ty.fields[i].ty, z) && Avoids(b, ty.fields[i].num)
    ensures MergeMessage(ty, Put(cur, i, z), b) == PutResult(MergeMessage(ty, cur, b), i, z)
    ensures MergeMessage(ty, cur, b).Ok? ==> MergeMessage(ty, cur, b).value.fields[i] == cur.fields[i]
    decreases |b|
  {
    hide MergeRecord;
    if b != [] {
      var f := NextField(b).value;
      NextFieldReadable(b);
      RecordApart(ty, cur, i, z, f.num, f.kind);
      match MergeRecord(ty, cur, f.num, f.kind)
      case Err(_) =>
      case Ok(v) => MessageApart(ty, v, i, z, f.rest);
    }
  }

  /** Records of different fields may change places: if one order decodes, so does the other, to the same value. */
  lemma FieldsCommute(ty: Ty, cur: Val, m: nat, j: FieldKind, n: nat, k: FieldKind, rest: seq<Byte>)
    requires WellFormed(ty) && ty.TStruct? && HasType(ty, cur) && m != n
    requires m < U61 && n < U61 && j.InRange() && k.InRange()
    ensures var one := MergeMessage(ty, cur, Record(m, j) + Record(n, k) + rest);
      var other := MergeMessage(ty, cur, Record(n, k) + Record(m, j) + rest);
      one.Ok? || other.Ok? ==> one == other
  {
    hide MergeMessage, MergeRecord, Record;
    assert Record(m, j) + Record(n, k) + rest == Record(m, j) + (Record(n, k) + rest);
    assert Record(n, k) + Record(m, j) + rest == Record(n, k) + (Record(m, j) + rest);
    MessageStep(ty, cur, m, j, Record(n, k) + rest);
    MessageStep(ty, cur, n, k, Record(m, j) + rest);
    RecordsCommute(ty, cur, m, j, n, k);
    match MergeRecord(ty, cur, m, j) {
      case Err(_) =>
      case Ok(v) => MessageStep(ty, v, n, k, rest);
    }
    match MergeRecord(ty, cur, n, k) {
      case Err(_) =>
      case Ok(v) => MessageStep(ty, v, m, j, rest);
    }
  }

  /** Merging two records, one after the other. */
  function MergeTwo(ty: Ty, cur: Val, m: nat, j: FieldKind, n: nat, k: FieldKind): Merged
    requires WellFormed(ty) && ty.Message() && HasType(ty, cur) && Readable(j) && Readable(k)
  {
    match MergeRecord(ty, cur, m, j)
    case Err(e) => Err(e)
    case Ok(v) => MergeRecord(ty, v, n, k)
  }

  lemma RecordsCommute(ty: Ty, cur: Val, m: nat, j: FieldKind, n: nat, k: FieldKind)
    requires WellFormed(ty) && ty.TStruct? && HasType(ty, cur) && m != n && Readable(j) && Readable(k)
    ensures MergeTwo(ty, cur, m, j, n, k).Ok? || MergeTwo(ty, cur, n, k, m, j).Ok? ==>
              MergeTwo(ty, cur, m, j, n, k) == MergeTwo(ty, cur, n, k, m, j)
  {
    var at := IndexOf(Numbers(ty), m);
    if at.Some? {
      FieldMerged(ty, cur, at.value, j);
      var r := Merge(ty.fields[at.value].ty, cur.fields[at.value], j, true);
      hide Merge, Numbers, IndexOf;
      if r.Ok? { RecordApart(ty, cur, at.value, r.value, n, k); }
      var other := MergeRecord(ty, cur, n, k);
      if other.Ok? {
        RecordApart(ty, cur, at.value, cur.fields[at.value], n, k);
        FieldMerged(ty, other.value, at.value, j);
      }
      hide MergeRecord;
    }
  }

  /** A record of a listed field. */
  lemma FieldMerged(ty: Ty, cur: Val, i: nat, k: FieldKind)
    requires WellFormed(ty) && ty.TStruct? && HasType(ty, cur) && i < |ty.fields| && Readable(k)
    ensures MergeRecord(ty, cur, ty.fields[i].num, k) ==
            var r := Merge(ty.fields[i].ty, cur.fields[i], k, true); if r.Ok? then Ok(Put(cur, i, r.value)) else r
  {
    hide Merge, MergeRecord;
    StructRecord(ty, cur, i, k);
  }

  // ---- split submessages --------------------------------------------------------------------

  /** The types whose records are merged into each other when they occur twice: messages, and options of what is
      read as a message. */
  predicate Mergeable(ty: Ty) {
    ty.TStruct? || ty.TOneof? || (ty.TOption? && ty.elem.Message())
  }

  lemma OptionMergesInner(ty: Ty, cur: Val, x: seq<Byte>)
    requires WellFormed(ty) && Mergeable(ty) && ty.TOption? && HasType(ty, cur)
    ensures Merge(ty, cur, KLen(x), true) ==
            (match MergeMessage(ty.elem, if cur.VSome? then cur.inner else Default(ty.elem), x)
             case Err(e) => Err(e)
             case Ok(v) => Ok(VSome(v)))
  {
    var start := if cur.VSome? then cur.inner else Default(ty.elem);
    assert Merge(ty.elem, start, KLen(x), false) == MergeMessage(ty.elem, start, x);
    assert Merge(ty, cur, KLen(x), true) == MergeItem(ty, cur, KLen(x));
  }

  /** Two records of a message-typed field are one record holding both contents. */
  lemma SplitRecordsMerge(ty: Ty, cur: Val, x: seq<Byte>, y: seq<Byte>)
    requires WellFormed(ty) && Mergeable(ty) && HasType(ty, cur)
    requires Merge(ty, cur, KLen(x), true).Ok?
    ensures Merge(ty, Merge(ty, cur, KLen(x), true).value, KLen(y), true) == Merge(ty, cur, KLen(x + y), true)
  {
    if ty.TOption? {
      var start := if cur.VSome? then cur.inner else Default(ty.elem);
      OptionMergesInner(ty, cur, x);
      ConcatIsMerge(ty.elem, start, x, y);
      OptionMergesInner(ty, Merge(ty, cur, KLen(x), true).value, y);
      OptionMergesInner(ty, cur, x + y);
    } else {
      ConcatIsMerge(ty, cur, x, y);
    }
  }

  /** A record of a listed field, merged into a struct. */
  lemma StructStep(ty: Ty, cur: Val, i: nat, k: FieldKind, rest: seq<Byte>)
    requires WellFormed(ty) && ty.TStruct? && HasType(ty, cur) && i < |ty.fields| && k.InRange()
    ensures MergeMessage(ty, cur, Record(ty.fields[i].num, k) + rest) ==
            var r := Merge(ty.fields[i].ty, cur.fields[i], k, true);
            if r.Ok? then MergeMessage(ty, Put(cur, i, r.value), rest) else r
  {
    hide Merge, MergeMessage, MergeRecord, Record;
    MessageStep(ty, cur, ty.fields[i].num, k, rest);
    FieldMerged(ty, cur, i, k);
  }

  /** Inside a struct: a submessage may be split over two records, with records of any other fields between them
      and anything complete before them. Its second half is merged into the first one. */
  lemma SubmessagesMerge(ty: Ty, cur: Val, i: nat, a: seq<Byte>, x: seq<Byte>, b: seq<Byte>, y: seq<Byte>, c: seq<Byte>)
    requires WellFormed(ty) && ty.TStruct? && HasType(ty, cur) && i < |ty.fields| && Mergeable(ty.fields[i].ty)
    requires |x| + |y| < U64 && Whole(a) && Avoids(b, ty.fields[i].num)
    requires var v := MergeMessage(ty, cur, a); v.Ok? ==> Merge(ty.fields[i].ty, v.value.fields[i], KLen(x), true).Ok?
    ensures var n := ty.fields[i].num;
      MergeMessage(ty, cur, a + (Record(n, KLen(x)) + (b + (Record(n, KLen(y)) + c)))) ==
      MergeMessage(ty, cur, a + (b + (Record(n, KLen(x + y)) + c)))
  {
    var n := ty.fields[i].num;
    hide MergeMessage, Merge, Record, Whole;
    ConcatIsFold(ty, cur, a, Record(n, KLen(x)) + (b + (Record(n, KLen(y)) + c)));
    ConcatIsFold(ty, cur, a, b + (Record(n, KLen(x + y)) + c));
    match MergeMessage(ty, cur, a)
    case Err(_) =>
    case Ok(v) => SplitApart(ty, v, i, x, b, y, c);
  }

  lemma SplitApart(ty: Ty, cur: Val, i: nat, x: seq<Byte>, b: seq<Byte>, y: seq<Byte>, c: seq<Byte>)
    requires WellFormed(ty) && ty.TStruct? && HasType(ty, cur) && i < |ty.fields| && Mergeable(ty.fields[i].ty)
    requires |x| + |y| < U64 && Avoids(b, ty.fields[i].num) && Merge(ty.fields[i].ty, cur.fields[i], KLen(x), true).Ok?
    ensures var n := ty.fields[i].num;
      MergeMessage(ty, cur, Record(n, KLen(x)) + (b + (Record(n, KLen(y)) + c))) ==
      MergeMessage(ty, cur, b + (Record(n, KLen(x + y)) + c))
  {
    var f := ty.fields[i];
    hide MergeMessage, Merge, Record, Mergeable, Avoids;
    StructStep(ty, cur, i, KLen(x), b + (Record(f.num, KLen(y)) + c));
    var z := Merge(f.ty, cur.fields[i], KLen(x), true).value;
    AvoidsIsWhole(b, f.num);
    ConcatIsFold(ty, Put(cur, i, z), b, Record(f.num, KLen(y)) + c);
    ConcatIsFold(ty, cur, b, Record(f.num, KLen(x + y)) + c);
    MessageApart(ty, cur, i, z, b);
    SplitRecordsMerge(f.ty, cur.fields[i], x, y);
    match MergeMessage(ty, cur, b)
    case Err(_) =>
    case Ok(v) =>
      StructStep(ty, Put(v, i, z), i, KLen(y), c);
      StructStep(ty, v, i, KLen(x + y), c);
      PutTwice(v, i, z);
  }

  lemma PutTwice(v: Val, i: nat, z: Val)
    requires v.VStruct? && i < |v.fields|
    ensures Put(v, i, z).fields[i] == z && forall w :: Put(Put(v, i, z), i, w) == Put(v, i, w)
  {
  }

  // ---- the last one wins --------------------------------------------------------------------

  /** A record of a scalar or byte field does not look at what the field held. */
  lemma ScalarsReplace(ty: Ty, cur: Val, other: Val, kind: FieldKind)
    requires WellFormed(ty) && (Scalar(ty) || Flat(ty)) && HasType(ty, cur) && HasType(ty, other) && Readable(kind)
    ensures Merge(ty, cur, kind, true) == Merge(ty, other, kind, true)
  {
  }

  lemma OverwrittenNext(ty: Ty, cur: Val, i: nat, z: Val, k: FieldKind, c: seq<Byte>)
    requires WellFormed(ty) && ty.TStruct? && HasType(ty, cur) && i < |ty.fields| && HasType(ty.fields[i].ty, z)
    requires (Scalar(ty.fields[i].ty) || Flat(ty.fields[i].ty)) && k.InRange()
    ensures var tail := Record(ty.fields[i].num, k) + c;
      MergeMessage(ty, Put(cur, i, z), tail) == MergeMessage(ty, cur, tail)
  {
    hide Merge, MergeMessage, Record;
    StructStep(ty, cur, i, k, c);
    StructStep(ty, Put(cur, i, z), i, k, c);
    ScalarsReplace(ty.fields[i].ty, cur.fields[i], z, k);
    PutTwice(cur, i, z);
  }

  /** What a scalar field holds does not matter if a record of it comes later. */
  lemma {:induction false} Overwritten(ty: Ty, cur: Val, i: nat, z: Val, b: seq<Byte>, k: FieldKind, c: seq<Byte>)
    requires WellFormed(ty) && ty.TStruct? && HasType(ty, cur) && i < |ty.fields| && HasType(ty.fields[i].ty, z)
    requires (Scalar(ty.fields[i].ty) || Flat(ty.fields[i].ty)) && Whole(b) && k.InRange()
    ensures var tail := b + (Record(ty.fields[i].num, k) + c);
      MergeMessage(ty, Put(cur, i, z), tail) == MergeMessage(ty, cur, tail)
    decreases |b|
  {
    var f := ty.fields[i];
    var last := Record(f.num, k) + c;
    hide Merge, MergeRecord, Record;
    if b == [] {
      assert b + last == last;
      OverwrittenNext(ty, cur, i, z, k, c);
    } else {
      var next := NextField(b).value;
      NextFieldReadable(b);
      NextFieldExtends(b, last);
      if next.num == f.num {
        FieldReplaced(ty, cur, i, z, next.kind);
      } else {
        RecordApart(ty, cur, i, z, next.num, next.kind);
        match MergeRecord(ty, cur, next.num, next.kind)
        case Err(_) =>
        case Ok(v) => Overwritten(ty, v, i, z, next.rest, k, c);
      }
    }
  }

  lemma FieldReplaced(ty: Ty, cur: Val, i: nat, z: Val, kind: FieldKind)
    requires WellFormed(ty) && ty.TStruct? && HasType(ty, cur) && i < |ty.fields| && HasType(ty.fields[i].ty, z)
    requires (Scalar(ty.fields[i].ty) || Flat(ty.fields[i].ty)) && Readable(kind)
    ensures MergeRecord(ty, Put(cur, i, z), ty.fields[i].num, kind) == MergeRecord(ty, cur, ty.fields[i].num, kind)
  {
    hide Merge, MergeRecord;
    FieldMerged(ty, cur, i, kind);
    FieldMerged(ty, Put(cur, i, z), i, kind);
    ScalarsReplace(ty.fields[i].ty, cur.fields[i], z, kind);
    PutTwice(cur, i, z);
  }

  /** Last one wins: in a struct, a readable record of a scalar or byte field can be dropped if another record of the
      same field comes anywhere later. It changes neither the value nor the error. */
  lemma LastOneWins(ty: Ty, cur: Val, i: nat, a: seq<Byte>, first: FieldKind, b: seq<Byte>, second: FieldKind, c: seq<Byte>)
    requires WellFormed(ty) && ty.TStruct? && HasType(ty, cur) && i < |ty.fields|
    requires (Scalar(ty.fields[i].ty) || Flat(ty.fields[i].ty)) && Whole(a) && Whole(b)
    requires first.InRange() && second.InRange() && Merge(ty.fields[i].ty, Default(ty.fields[i].ty), first, true).Ok?
    ensures var n := ty.fields[i].num;
      MergeMessage(ty, cur, a + (Record(n, first) + (b + (Record(n, second) + c)))) ==
      MergeMessage(ty, cur, a + (b + (Record(n, second) + c)))
  {
    var f := ty.fields[i];
    var tail := b + (Record(f.num, second) + c);
    hide MergeMessage, Merge, Record, Whole;
    ConcatIsFold(ty, cur, a, Record(f.num, first) + tail);
    ConcatIsFold(ty, cur, a, tail);
    match MergeMessage(ty, cur, a)
    case Err(_) =>
    case Ok(v) =>
      ScalarsReplace(f.ty, v.fields[i], Default(f.ty), first);
      StructStep(ty, v, i, first, tail);
      Overwritten(ty, v, i, Merge(f.ty, v.fields[i], first, true).value, b, second, c);
  }

  // ---- unknown fields -----------------------------------------------------------------------

  /** The numbers a message listens to. */
  predicate Listed(ty: Ty, num: nat)
    requires ty.Message()
  {
    if ty.Repeated() then num == 1
    else if ty.TStruct? then exists i :: 0 <= i < |ty.fields| && ty.fields[i].num == num
    else exists i :: 0 <= i < |ty.variants| && ty.variants[i].num == num
  }

  /** A record with an unlisted number, put at any record boundary, never changes the result, be it a value
      or an error. */
  lemma UnknownFieldsAreTransparent(ty: Ty, cur: Val, a: seq<Byte>, num: nat, k: FieldKind, b: seq<Byte>)
    requires WellFormed(ty) && ty.Message() && HasType(ty, cur) && Whole(a)
    requires num < U61 && k.InRange() && !Listed(ty, num)
    ensures MergeMessage(ty, cur, a + Record(num, k) + b) == MergeMessage(ty, cur, a + b)
  {
    hide MergeMessage, MergeRecord, Record, Whole, Listed, WellFormed, HasType;
    var r := Record(num, k);
    assert a + r + b == a + (r + b);
    ConcatIsFold(ty, cur, a, Record(num, k) + b);
    ConcatIsFold(ty, cur, a, b);
    match MergeMessage(ty, cur, a)
    case Err(_) =>
    case Ok(v) =>
      MessageStep(ty, v, num, k, b);
      UnlistedRecord(ty, v, num, k);
  }

  lemma UnlistedRecord(ty: Ty, cur: Val, num: nat, k: FieldKind)
    requires WellFormed(ty) && ty.Message() && HasType(ty, cur) && Readable(k) && !Listed(ty, num)
    ensures MergeRecord(ty, cur, num, k) == Ok(cur)
  {
  }

  // ---- packed and expanded ("Packed Repeated Fields") ---------------------------------------

  /** How a writer may group the elements of a scalar vector into records. */
  datatype Group = Single(kind: FieldKind) | PackedRun(kinds: seq<FieldKind>) {
    function Kind(): FieldKind {
      match this
      case Single(k) => k
      case PackedRun(ks) => KLen(Payloads(ks))
    }

    function Elements(): seq<FieldKind> {
      match this
      case Single(k) => [k]
      case PackedRun(ks) => ks
    }
  }

  predicate ElementsOf(w: WireType, ks: seq<FieldKind>) {
    forall i :: 0 <= i < |ks| ==> ks[i].Type() == w && ks[i].InRange()
  }

  predicate GroupsOf(w: WireType, gs: seq<Group>) {
    forall i :: 0 <= i < |gs| ==> ElementsOf(w, gs[i].Elements())
  }

  function Kinds(gs: seq<Group>): seq<FieldKind> {
    if gs == [] then [] else [gs[0].Kind()] + Kinds(gs[1..])
  }

  function Flatten(gs: seq<Group>): seq<FieldKind> {
    if gs == [] then [] else gs[0].Elements() + Flatten(gs[1..])
  }

  lemma {:induction false} GroupsReadable(w: WireType, gs: seq<Group>)
    requires w.CanBePacked() && GroupsOf(w, gs)
    ensures AllReadable(Kinds(gs)) && AllReadable(Flatten(gs)) && ElementsOf(w, Flatten(gs))
  {
    if gs != [] {
      assert ElementsOf(w, gs[0].Elements());
      GroupsReadable(w, gs[1..]);
      assert gs[0].Single? ==> gs[0].Elements()[0] == gs[0].kind;
    }
  }

  /** However the elements are grouped into packed and single records, decoding sees their sequence only. */
  lemma {:induction false} GroupingIsInvisible(ty: Ty, cur: Val, gs: seq<Group>)
    requires WellFormed(ty) && ty.TVec? && Scalar(ty.elem) && HasType(ty, cur) && GroupsOf(ty.elem.Wire(), gs)
    ensures AllReadable(Kinds(gs)) && AllReadable(Flatten(gs))
    ensures MergeField(ty, cur, Kinds(gs)) == MergeField(ty, cur, Flatten(gs))
    decreases |gs|
  {
    GroupsReadable(ty.elem.Wire(), gs);
    if gs != [] {
      var g := gs[0];
      assert ElementsOf(ty.elem.Wire(), g.Elements());
      assert GroupsOf(ty.elem.Wire(), gs[1..]);
      GroupsReadable(ty.elem.Wire(), gs[1..]);
      MergeFieldConcat(ty, cur, g.Elements(), Flatten(gs[1..]));
      OneGroup(ty, cur, g);
      assert Kinds(gs)[0] == g.Kind() && Kinds(gs)[1..] == Kinds(gs[1..]);
      match MergeField(ty, cur, g.Elements())
      case Err(_) =>
      case Ok(v) => GroupingIsInvisible(ty, v, gs[1..]);
    }
  }

  lemma OneGroup(ty: Ty, cur: Val, g: Group)
    requires WellFormed(ty) && ty.TVec? && Scalar(ty.elem) && HasType(ty, cur)
    requires ElementsOf(ty.elem.Wire(), g.Elements())
    ensures AllReadable(g.Elements()) && Readable(g.Kind())
    ensures Merge(ty, cur, g.Kind(), true) == MergeField(ty, cur, g.Elements())
  {
    match g
    case Single(k) => assert [k][0] == k && [k][1..] == [];
    case PackedRun(ks) => PackedIsExpanded(ty, cur, ks);
  }

  /** Two writers that group the same elements differently make the same vector, as a field of any struct. */
  lemma GroupingsAgree(ty: Ty, cur: Val, i: nat, a: seq<Group>, b: seq<Group>, rest: seq<Byte>)
    requires WellFormed(ty) && ty.TStruct? && HasType(ty, cur) && i < |ty.fields|
    requires ty.fields[i].ty.TVec? && Scalar(ty.fields[i].ty.elem)
    requires GroupsOf(ty.fields[i].ty.elem.Wire(), a) && GroupsOf(ty.fields[i].ty.elem.Wire(), b)
    requires AllInRange(Kinds(a)) && AllInRange(Kinds(b))
    requires Flatten(a) == Flatten(b)
    ensures MergeMessage(ty, cur, Records(ty.fields[i].num, Kinds(a)) + rest) ==
            MergeMessage(ty, cur, Records(ty.fields[i].num, Kinds(b)) + rest)
  {
    var f := ty.fields[i];
    GroupingIsInvisible(f.ty, cur.fields[i], a);
    GroupingIsInvisible(f.ty, cur.fields[i], b);
    StructField(ty, cur, i, Kinds(a), rest);
    StructField(ty, cur, i, Kinds(b), rest);
  }
}
