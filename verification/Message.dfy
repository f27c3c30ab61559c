/** The packet type the program puts into frames: a header of twelve bytes, big-endian, and a body. */
module Message {
  import opened Basics
  import opened Frames
  import P = Protocol

  // ---- flags --------------------------------------------------------------------------------

  /** The kind of a packet is in the upper four bits, the lower four are reserved. On a byte, shifting right by
      four divides by 16, masking the lower bits takes the rest, and putting disjoint bits together adds. */
  datatype Flags = Flags(inner: Byte) {
    function Kind(): P.Kind {
      KindOf(inner / 16)
    }

    function SetKind(k: P.Kind): Flags {
      Flags(inner % 16 + KindNum(k) * 16)
    }
  }

  function KindNum(k: P.Kind): (n: nat)
    ensures n <= 15
  {
    match k
    case Request => 1
    case Response => 2
    case NoResponse => 3
    case Stream => 4
    case RequestReceiver => 5
    case RequestSender => 6
    case StreamClosed => 7
    case Close => 8
    case Ping => 9
    case MalformedRequest => 10
    case EnableServerRequests => 11
    case Unknown => 15
  }

  function KindOf(n: nat): P.Kind {
    match n
    case 1 => P.Request
    case 2 => P.Response
    case 3 => P.NoResponse
    case 4 => P.Stream
    case 5 => P.RequestReceiver
    case 6 => P.RequestSender
    case 7 => P.StreamClosed
    case 8 => P.Close
    case 9 => P.Ping
    case 10 => P.MalformedRequest
    case 11 => P.EnableServerRequests
    case _ => P.Unknown
  }

  /** Setting the kind sets the kind and leaves the reserved bits alone. */
  lemma KindIsSet(f: Flags, k: P.Kind)
    ensures f.SetKind(k).Kind() == k
    ensures f.SetKind(k).inner % 16 == f.inner % 16
  {
    var low, n := f.inner % 16, KindNum(k);
    assert (low + n * 16) / 16 == n && KindOf(n) == k;
  }

  // ---- numbers ------------------------------------------------------------------------------

  function Be16(n: nat): (r: seq<Byte>)
    requires n < 0x1_0000
    ensures |r| == 2
  {
    [n / 0x100, n % 0x100]
  }

  function FromBe16(b: seq<Byte>): (n: nat)
    requires |b| == 2
    ensures n < 0x1_0000
  {
    var hi: int, lo: int := b[0], b[1];
    hi * 0x100 + lo
  }

  function Be32(n: nat): (r: seq<Byte>)
    requires n < U32
    ensures |r| == 4
  {
    Be16(n / 0x1_0000) + Be16(n % 0x1_0000)
  }

  function FromBe32(b: seq<Byte>): (n: nat)
    requires |b| == 4
    ensures n < U32
  {
    FromBe16(b[..2]) * 0x1_0000 + FromBe16(b[2..])
  }

  lemma Be16Back(n: nat)
    requires n < 0x1_0000
    ensures FromBe16(Be16(n)) == n
  {
  }

  lemma Be32Back(n: nat)
    requires n < U32
    ensures FromBe32(Be32(n)) == n
  {
    Be16Back(n / 0x1_0000);
    Be16Back(n % 0x1_0000);
  }

  lemma Be16Again(b: seq<Byte>)
    requires |b| == 2
    ensures Be16(FromBe16(b)) == b
  {
  }

  lemma Be32Again(b: seq<Byte>)
    requires |b| == 4
    ensures Be32(FromBe32(b)) == b
  {
    Be16Again(b[..2]);
    Be16Again(b[2..]);
    var hi, lo := FromBe16(b[..2]), FromBe16(b[2..]);
    assert (hi * 0x1_0000 + lo) / 0x1_0000 == hi && (hi * 0x1_0000 + lo) % 0x1_0000 == lo;
    assert b == b[..2] + b[2..];
  }

  // ---- the header ---------------------------------------------------------------------------

  datatype MaybeAction<+A> = Action(action: A) | UnknownAction(num: nat) | NoAction

  datatype Header<+A> = Header(bodyLen: nat, flags: Flags, msgFlags: Byte, id: nat, action: MaybeAction<A>)

  /** The user's action type: its numbers, and how long a body may be. */
  datatype Actions<!A> = Actions(
    fromNum: nat -> Option<A>,
    asNum: A -> nat,
    maxBody: Header<A> -> Option<nat>)

  /** Zero is not an action, and both directions agree. */
  ghost predicate LawfulActions<A(!new)>(acts: Actions<A>) {
    && (forall a: A :: 0 < acts.asNum(a) < 0x1_0000 && acts.fromNum(acts.asNum(a)) == Some(a))
    && (forall n: nat :: acts.fromNum(n).Some? ==> acts.asNum(acts.fromNum(n).value) == n)
  }

  function ActionNum<A>(acts: Actions<A>, a: MaybeAction<A>): nat {
    match a
    case Action(x) => acts.asNum(x)
    case UnknownAction(n) => n
    case NoAction => 0
  }

  function ActionOf<A>(acts: Actions<A>, n: nat): MaybeAction<A> {
    if n == 0 then NoAction else
    match acts.fromNum(n)
    case Some(a) => Action(a)
    case None => UnknownAction(n)
  }

  const HEADER_LEN: nat := 12

  /** The fields have the widths of the program's integers. */
  predicate Wide<A>(acts: Actions<A>, h: Header<A>) {
    h.bodyLen < U32 && h.id < U32 && ActionNum(acts, h.action) < 0x1_0000
  }

  function ToBytes<A>(acts: Actions<A>, h: Header<A>): (r: seq<Byte>)
    requires Wide(acts, h)
    ensures |r| == HEADER_LEN
  {
    Be32(h.bodyLen) + [h.flags.inner] + [h.msgFlags] + Be32(h.id) + Be16(ActionNum(acts, h.action))
  }

  predicate Allowed<A>(acts: Actions<A>, h: Header<A>) {
    var max := acts.maxBody(h);
    max.Some? ==> h.bodyLen <= max.value
  }

  function Fields<A>(acts: Actions<A>, b: seq<Byte>): Header<A>
    requires |b| == HEADER_LEN
  {
    Header(FromBe32(b[..4]), Flags(b[4]), b[5], FromBe32(b[6..10]), ActionOf(acts, FromBe16(b[10..])))
  }

  function FromBytes<A>(acts: Actions<A>, b: seq<Byte>): Option<Header<A>>
    requires |b| == HEADER_LEN
  {
    var h := Fields(acts, b);
    if Allowed(acts, h) then Some(h) else None
  }

  /** The action is as reading a header would give it. */
  predicate Canonical<A(==)>(acts: Actions<A>, h: Header<A>) {
    h.action == ActionOf(acts, ActionNum(acts, h.action))
  }

  lemma FieldsBack<A>(acts: Actions<A>, h: Header<A>)
    requires Wide(acts, h)
    ensures Fields(acts, ToBytes(acts, h)) == h.(action := ActionOf(acts, ActionNum(acts, h.action)))
  {
    var b := ToBytes(acts, h);
    assert b[..4] == Be32(h.bodyLen) && b[6..10] == Be32(h.id) && b[10..] == Be16(ActionNum(acts, h.action));
    Be32Back(h.bodyLen);
    Be32Back(h.id);
    Be16Back(ActionNum(acts, h.action));
  }

  /** What an action is after its number was written and read: a known action is itself, a number nobody knows is
      unknown, and zero is none. */
  lemma ActionsBack<A(!new)>(acts: Actions<A>, a: MaybeAction<A>)
    requires LawfulActions(acts)
    ensures a == ActionOf(acts, ActionNum(acts, a)) <==>
            a.NoAction? || a.Action? || (a.num > 0 && acts.fromNum(a.num).None?)
  {
    if a.Action? { assert acts.fromNum(acts.asNum(a.action)) == Some(a.action); }
  }

  /** A header that was written is read back as it was exactly when its body is not too long for its action and the
      action is none, a known one, or unknown by a number that is not zero and that the user's type does not know. */
  lemma HeaderBack<A(!new)>(acts: Actions<A>, h: Header<A>)
    requires Wide(acts, h)
    ensures FromBytes(acts, ToBytes(acts, h)) == Some(h) <==> Canonical(acts, h) && Allowed(acts, h)
    ensures LawfulActions(acts) ==>
      (FromBytes(acts, ToBytes(acts, h)) == Some(h) <==>
         && (acts.maxBody(h).Some? ==> h.bodyLen <= acts.maxBody(h).value)
         && (h.action.NoAction? || h.action.Action? || (h.action.num > 0 && acts.fromNum(h.action.num).None?)))
  {
    FieldsBack(acts, h);
    if LawfulActions(acts) { ActionsBack(acts, h.action); }
    hide LawfulActions;
  }

  /** Every header that was read is written as it came. */
  lemma HeaderAgain<A(!new)>(acts: Actions<A>, b: seq<Byte>)
    requires LawfulActions(acts) && |b| == HEADER_LEN
    ensures Wide(acts, Fields(acts, b)) && ToBytes(acts, Fields(acts, b)) == b
    ensures Canonical(acts, Fields(acts, b))
  {
    Be32Again(b[..4]);
    Be32Again(b[6..10]);
    Be16Again(b[10..]);
    assert b == b[..4] + [b[4]] + [b[5]] + b[6..10] + b[10..];
  }

  /** Bytes, the highest first, as a number. */
  function Number(b: seq<Byte>): int {
    if b == [] then 0 else Number(b[..|b| - 1]) * 0x100 + b[|b| - 1]
  }

  /** The layout: the length of the body in four bytes, a byte for the kind, a byte for the message, the id in four
      bytes and the action in two, all with the highest byte first. */
  lemma HeaderLayout<A>(acts: Actions<A>, h: Header<A>)
    requires Wide(acts, h)
    ensures var b := ToBytes(acts, h);
      && |b| == 12 && Number(b[..4]) == h.bodyLen && b[4] == h.flags.inner && b[5] == h.msgFlags
      && Number(b[6..10]) == h.id && Number(b[10..]) == ActionNum(acts, h.action)
  {
    var b := ToBytes(acts, h);
    assert b[..4] == Be32(h.bodyLen) && b[6..10] == Be32(h.id) && b[10..] == Be16(ActionNum(acts, h.action));
    Number32(h.bodyLen);
    Number32(h.id);
    Number16(ActionNum(acts, h.action));
  }

  lemma Number16(n: nat)
    requires n < 0x1_0000
    ensures Number(Be16(n)) == n
  {
    assert Be16(n)[..1] == [n / 0x100] && [n / 0x100][..0] == [];
    assert Number([n / 0x100]) == n / 0x100;
  }

  lemma NumberOfConcat(a: seq<Byte>, b: seq<Byte>)
    requires |b| == 2
    ensures Number(a + b) == Number(a) * 0x1_0000 + Number(b)
  {
    var hi, lo := b[0], b[1];
    assert (a + b)[..|a| + 1] == a + [hi] && (a + [hi])[..|a|] == a;
    assert b[..1] == [hi] && [hi][..0] == [];
    assert Number([hi]) == hi;
  }

  lemma Number32(n: nat)
    requires n < U32
    ensures Number(Be32(n)) == n
  {
    NumberOfConcat(Be16(n / 0x1_0000), Be16(n % 0x1_0000));
    Number16(n / 0x1_0000);
    Number16(n % 0x1_0000);
  }

  /** The numbers of the kinds, in the order of the program. */
  const KINDS := [P.Request, P.Response, P.NoResponse, P.Stream, P.RequestReceiver, P.RequestSender, P.StreamClosed,
                  P.Close, P.Ping, P.MalformedRequest, P.EnableServerRequests]

  /** The upper four bits of the flags count the kinds from one; every other number is an unknown kind. */
  lemma KindsAreCounted(f: Flags, k: P.Kind)
    ensures var n: int := f.inner / 16; f.Kind() == if 1 <= n <= 11 then KINDS[n - 1] else P.Unknown
    ensures var n: int := f.SetKind(k).inner / 16; if k.Unknown? then n == 15 else 1 <= n <= 11 && KINDS[n - 1] == k
  {
    var low: int, n := f.inner % 16, KindNum(k);
    assert (low + n * 16) / 16 == n;
  }

  // ---- messages -----------------------------------------------------------------------------

  datatype Message<+A> = Message(header: Header<A>, body: seq<Byte>)

  /** `into_bytes`: the header is told the length of the body, as a 32 bit number. */
  function IntoBytes<A>(acts: Actions<A>, m: Message<A>): Draft
    requires Wide(acts, m.header)
  {
    Draft(ToBytes(acts, m.header.(bodyLen := |m.body| % U32)), m.body)
  }

  /** Messages as the receiver sees them. */
  function MessageFormat<A>(acts: Actions<A>): Format<Header<A>, Message<A>> {
    Format(HEADER_LEN,
           b => if |b| == HEADER_LEN then FromBytes(acts, b) else None,
           (h: Header<A>) => h.bodyLen,
           (h, body) => Some(Message(h, body)))
  }

  /** The header the receiver reads for a message. */
  function ReadAs<A>(acts: Actions<A>, m: Message<A>): Header<A> {
    m.header.(bodyLen := |m.body| % U32, action := ActionOf(acts, ActionNum(acts, m.header.action)))
  }

  /** A message can be sent safely exactly when the length of its body fits 32 bits, the receiver's limit, and
      what its action allows. */
  lemma HonestIff<A>(acts: Actions<A>, limit: nat, m: Message<A>)
    requires Wide(acts, m.header)
    ensures Honest(MessageFormat(acts), limit, IntoBytes(acts, m)) <==>
            |m.body| < U32 && Allowed(acts, ReadAs(acts, m)) && (limit != 0 ==> |m.body| <= limit)
  {
    FieldsBack(acts, m.header.(bodyLen := |m.body| % U32));
  }

  // ---- packets of the protocol --------------------------------------------------------------

  /** The handler sets kind and id of a packet before it is sent. */
  function Labelled<A>(p: P.Packet, msgFlags: Byte, action: MaybeAction<A>): Message<A> {
    Message(Header(0, Flags(0).SetKind(p.kind), msgFlags, p.id, action), p.body.bytes)
  }

  /** What the handler sees of a received message. */
  function Seen<A>(m: Message<A>): P.Packet {
    P.Packet(m.header.flags.Kind(), m.header.id, P.Body(m.body))
  }

  predicate Fits<A>(acts: Actions<A>, limit: nat, p: P.Packet, m: Message<A>)
    requires Wide(acts, m.header)
  {
    Seen(m) == p && Honest(MessageFormat(acts), limit, IntoBytes(acts, m))
  }

  /** Any packet of the protocol can be sent as a message, if its body is not too long. */
  lemma LabelledFits<A>(acts: Actions<A>, limit: nat, p: P.Packet, msgFlags: Byte, action: MaybeAction<A>)
    requires p.id < U32 && ActionNum(acts, action) < 0x1_0000
    ensures var m := Labelled(p, msgFlags, action);
      Fits(acts, limit, p, m) <==>
      |p.body.bytes| < U32 && Allowed(acts, ReadAs(acts, m)) && (limit != 0 ==> |p.body.bytes| <= limit)
  {
    KindIsSet(Flags(0), p.kind);
    HonestIff(acts, limit, Labelled(p, msgFlags, action));
  }

  function Drafts<A>(acts: Actions<A>, ms: seq<Message<A>>): seq<Draft>
    requires forall j :: 0 <= j < |ms| ==> Wide(acts, ms[j].header)
  {
    seq(|ms|, j requires 0 <= j < |ms| => IntoBytes(acts, ms[j]))
  }

  lemma {:induction false} ItemsAreMessages<A>(acts: Actions<A>, limit: nat, ds: seq<Draft>, ms: seq<Message<A>>)
    requires |ds| == |ms|
    requires forall j :: 0 <= j < |ms| ==> Wide(acts, ms[j].header) && ds[j] == IntoBytes(acts, ms[j])
    requires forall j :: 0 <= j < |ms| ==> Honest(MessageFormat(acts), limit, ds[j])
    ensures var items := ItemsOf(MessageFormat(acts), limit, ds);
      |items| == |ms| && forall j :: 0 <= j < |ms| ==> items[j] == Good(Message(ReadAs(acts, ms[j]), ms[j].body))
  {
    if ms != [] {
      var m := ms[0];
      FieldsBack(acts, m.header.(bodyLen := |m.body| % U32));
      ItemsAreMessages(acts, limit, ds[1..], ms[1..]);
    }
  }

  /** The channel of the protocol: packets that are sent as messages over a stream, sealed or not, come out of it
      as the same packets in the same order, and both keys have moved on together. */
  lemma PacketsTravel<A, K(!new)>(acts: Actions<A>, c: Cipher<K>, limit: nat, key: K, ps: seq<P.Packet>, ms: seq<Message<A>>)
    requires Lawful(c) && |ms| == |ps|
    requires forall j :: 0 <= j < |ms| ==> Wide(acts, ms[j].header) && Fits(acts, limit, ps[j], ms[j])
    ensures var (wire, k) := WireAll(c, Drafts(acts, ms), key);
      var r := ParseAll(MessageFormat(acts), c, limit, wire, key);
      && r.ending == EarlyEof && r.left == [] && r.key == k && |r.items| == |ps|
      && forall j :: 0 <= j < |ps| ==> r.items[j].Good? && Seen(r.items[j].packet) == ps[j]
  {
    var ds := Drafts(acts, ms);
    var (wire, k) := WireAll(c, ds, key);
    LockStep(MessageFormat(acts), c, limit, ds, key, []);
    ItemsAreMessages(acts, limit, ds, ms);
    assert wire + [] == wire;
    assert ItemsOf(MessageFormat(acts), limit, ds) + [] == ItemsOf(MessageFormat(acts), limit, ds);
    forall j | 0 <= j < |ps| ensures Seen(Message(ReadAs(acts, ms[j]), ms[j].body)) == ps[j] {
      assert Fits(acts, limit, ps[j], ms[j]);
    }
  }
}
