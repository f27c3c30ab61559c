/** Packets as bytes on a stream. A frame is a header segment and, if the body is not empty, a body segment.
    Each segment is sealed with a key that moves on with every segment; plain streams seal nothing. */
module Frames {
  import opened Basics

  /** A stateful cipher. `seal` yields the authentication code and the encrypted text as one segment; `open` checks
      and decrypts a segment. Both also yield the next key. */
  datatype Cipher<!K> = Cipher(
    overhead: nat,
    seal: (K, seq<Byte>) -> (seq<Byte>, K),
    open: (K, seq<Byte>) -> (Option<seq<Byte>>, K))

  /** Segments have a fixed overhead, and at equal keys `open` undoes `seal` and leaves an equal key. */
  ghost predicate Lawful<K(!new)>(c: Cipher<K>) {
    && (forall k: K, text: seq<Byte> :: |c.seal(k, text).0| == |text| + c.overhead)
    && (forall k: K, text: seq<Byte> :: c.open(k, c.seal(k, text).0) == (Some(text), c.seal(k, text).1))
    && (forall k: K, s: seq<Byte> :: c.open(k, s).0.Some? ==> |c.open(k, s).0.value| + c.overhead == |s|)
  }

  /** No cipher at all. */
  const PLAIN: Cipher<()> := Cipher(0, (k, text) => (text, k), (k, s) => (Some(s), k))

  lemma PlainIsLawful()
    ensures Lawful(PLAIN)
  {
  }

  /** How a packet type reads its header and itself. */
  datatype Format<!H, !P> = Format(
    headerLen: nat,
    header: seq<Byte> -> Option<H>,
    bodyLen: H -> nat,
    packet: (H, seq<Byte>) -> Option<P>)

  /** What one frame brings: a packet, or a soft error, which names the header. */
  datatype Item<+H, +P> = Good(packet: P) | Spoilt(header: H)

  /** The frame at the start of a stream: complete, beyond repair, or not all there yet. */
  datatype Frame<+H, +P, +K> = Whole(item: Item<H, P>, size: nat, key: K) | Hopeless | Partial

  function ItemOf<H, P>(fmt: Format<H, P>, h: H, body: Option<seq<Byte>>): Item<H, P> {
    if body.None? || fmt.packet(h, body.value).None? then Spoilt(h) else Good(fmt.packet(h, body.value).value)
  }

  /** Parsing a whole frame at once. A limit of zero means there is none. */
  function FrameAt<H, P, K>(fmt: Format<H, P>, c: Cipher<K>, limit: nat, s: seq<Byte>, k: K): (r: Frame<H, P, K>)
    ensures r.Whole? ==> c.overhead + fmt.headerLen <= r.size <= |s|
  {
    var n := c.overhead + fmt.headerLen;
    if |s| < n then Partial else
    var (text, k1) := c.open(k, s[..n]);
    if text.None? || fmt.header(text.value).None? then Hopeless else
    var h := fmt.header(text.value).value;
    if fmt.bodyLen(h) == 0 then Whole(ItemOf(fmt, h, Some([])), n, k1) else
    if limit != 0 && fmt.bodyLen(h) > limit then Hopeless else
    var len: nat := fmt.bodyLen(h);
    var end := n + c.overhead + len;
    if |s| < end then Partial else
    var (body, k2) := c.open(k1, s[n..end]);
    Whole(ItemOf(fmt, h, body), end, k2)
  }

  datatype Ending = HardError | EarlyEof

  datatype Parsed<+H, +P, +K> = Parsed(items: seq<Item<H, P>>, ending: Ending, key: K, left: seq<Byte>)

  /** Parsing a whole stream at once, until it ends or breaks. `key` is the one of the last frame
      boundary, `left` what comes after it. */
  function ParseAll<H, P, K>(fmt: Format<H, P>, c: Cipher<K>, limit: nat, s: seq<Byte>, k: K): Parsed<H, P, K>
    requires fmt.headerLen > 0
    decreases |s|
  {
    match FrameAt(fmt, c, limit, s, k)
    case Partial => Parsed([], EarlyEof, k, s)
    case Hopeless => Parsed([], HardError, k, s)
    case Whole(item, size, k') =>
      var rest := ParseAll(fmt, c, limit, s[size..], k');
      rest.(items := [item] + rest.items)
  }

  // ---- sending ------------------------------------------------------------------------------

  /** A packet about to be sent: the bytes of its header and of its body. */
  datatype Draft = Draft(header: seq<Byte>, body: seq<Byte>)

  function Wire<K>(c: Cipher<K>, d: Draft, k: K): (seq<Byte>, K) {
    var (head, k1) := c.seal(k, d.header);
    if d.body == [] then (head, k1) else
    var (body, k2) := c.seal(k1, d.body);
    (head + body, k2)
  }

  function WireAll<K>(c: Cipher<K>, ds: seq<Draft>, k: K): (seq<Byte>, K) {
    if ds == [] then ([], k) else
    var (first, k1) := Wire(c, ds[0], k);
    var (rest, k2) := WireAll(c, ds[1..], k1);
    (first + rest, k2)
  }

  /** The header is one the receiver accepts, and it tells the true length of the body. */
  predicate Honest<H, P>(fmt: Format<H, P>, limit: nat, d: Draft) {
    && |d.header| == fmt.headerLen && fmt.header(d.header).Some?
    && fmt.bodyLen(fmt.header(d.header).value) == |d.body|
    && (limit != 0 ==> |d.body| <= limit)
  }

  function ItemsOf<H, P>(fmt: Format<H, P>, limit: nat, ds: seq<Draft>): seq<Item<H, P>>
    requires forall k :: 0 <= k < |ds| ==> Honest(fmt, limit, ds[k])
  {
    if ds == [] then [] else
    assert Honest(fmt, limit, ds[0]);
    [ItemOf(fmt, fmt.header(ds[0].header).value, Some(ds[0].body))] + ItemsOf(fmt, limit, ds[1..])
  }

  /** One frame, whatever comes after it: what was sent is what is parsed, and the keys agree afterwards. */
  lemma FrameOfWire<H, P, K(!new)>(fmt: Format<H, P>, c: Cipher<K>, limit: nat, d: Draft, k: K, rest: seq<Byte>)
    requires Lawful(c) && Honest(fmt, limit, d)
    ensures var (w, k') := Wire(c, d, k);
      FrameAt(fmt, c, limit, w + rest, k) == Whole(ItemOf(fmt, fmt.header(d.header).value, Some(d.body)), |w|, k')
  {
    var (w, k') := Wire(c, d, k);
    var (head, k1) := c.seal(k, d.header);
    var n := c.overhead + fmt.headerLen;
    assert (w + rest)[..n] == head;
    if d.body != [] {
      assert (w + rest)[n..n + c.overhead + |d.body|] == c.seal(k1, d.body).0;
    }
  }

  /** Lockstep: parsing what was sent, followed by anything, yields all packets in order and then goes on with
      the key the sender has by then. */
  lemma {:induction false} LockStep<H, P, K(!new)>(fmt: Format<H, P>, c: Cipher<K>, limit: nat,
                                                   ds: seq<Draft>, k: K, tail: seq<Byte>)
    requires Lawful(c) && fmt.headerLen > 0
    requires forall j :: 0 <= j < |ds| ==> Honest(fmt, limit, ds[j])
    ensures var (w, k') := WireAll(c, ds, k); var rest := ParseAll(fmt, c, limit, tail, k');
      ParseAll(fmt, c, limit, w + tail, k) == rest.(items := ItemsOf(fmt, limit, ds) + rest.items)
    decreases |ds|
  {
    if ds == [] {
      assert [] + tail == tail;
    } else {
      var (first, k1) := Wire(c, ds[0], k);
      var (more, k2) := WireAll(c, ds[1..], k1);
      assert (first + more) + tail == first + (more + tail);
      FrameOfWire(fmt, c, limit, ds[0], k, more + tail);
      assert (first + (more + tail))[|first|..] == more + tail;
      LockStep(fmt, c, limit, ds[1..], k1, tail);
      var item, rest := ItemOf(fmt, fmt.header(ds[0].header).value, Some(ds[0].body)), ParseAll(fmt, c, limit, tail, k2);
      assert [item] + (ItemsOf(fmt, limit, ds[1..]) + rest.items) == [item] + ItemsOf(fmt, limit, ds[1..]) + rest.items;
    }
  }

  /** A body that arrives spoilt costs its own frame only: if the cipher moves its key on as it would have for the
      true body, everything after it is parsed as if nothing had happened. */
  lemma SpoiltBodyIsSkipped<H, P, K(!new)>(fmt: Format<H, P>, c: Cipher<K>, limit: nat,
                                           d: Draft, bad: seq<Byte>, k: K, tail: seq<Byte>)
    requires Lawful(c) && fmt.headerLen > 0 && Honest(fmt, limit, d) && d.body != []
    requires var (head, k1) := c.seal(k, d.header);
      |bad| == |d.body| + c.overhead && c.open(k1, bad) == (None, c.seal(k1, d.body).1)
    ensures var (head, k1) := c.seal(k, d.header); var rest := ParseAll(fmt, c, limit, tail, Wire(c, d, k).1);
      ParseAll(fmt, c, limit, head + bad + tail, k) ==
      rest.(items := [Spoilt(fmt.header(d.header).value)] + rest.items)
  {
    var (head, k1) := c.seal(k, d.header);
    var n, s := c.overhead + fmt.headerLen, head + bad + tail;
    assert s[..n] == head && s[n..n + |bad|] == bad && s[n + |bad|..] == tail;
    FrameWithHeader(fmt, c, limit, s, k, fmt.header(d.header).value);
  }

  /** A frame whose header is there, case by case. */
  lemma FrameWithHeader<H, P, K>(fmt: Format<H, P>, c: Cipher<K>, limit: nat, s: seq<Byte>, k: K, h: H)
    requires |s| >= c.overhead + fmt.headerLen && c.open(k, s[..c.overhead + fmt.headerLen]).0.Some?
    requires fmt.header(c.open(k, s[..c.overhead + fmt.headerLen]).0.value) == Some(h)
    ensures var n, len := c.overhead + fmt.headerLen, fmt.bodyLen(h);
      var k1, end := c.open(k, s[..n]).1, n + c.overhead + len;
      && (len == 0 ==> FrameAt(fmt, c, limit, s, k) == Whole(ItemOf(fmt, h, Some([])), n, k1))
      && (len > 0 && limit != 0 && len > limit ==> FrameAt(fmt, c, limit, s, k).Hopeless?)
      && (len > 0 && (limit == 0 || len <= limit) ==>
            && (|s| < end ==> FrameAt(fmt, c, limit, s, k).Partial?)
            && (|s| >= end ==> var (body, k2) := c.open(k1, s[n..end]);
                 FrameAt(fmt, c, limit, s, k) == Whole(ItemOf(fmt, h, body), end, k2)))
  {
  }

  /** The first step of parsing a stream, after some items were already found. */
  lemma {:induction false} ParseFirst<H, P, K>(fmt: Format<H, P>, c: Cipher<K>, limit: nat, s: seq<Byte>, k: K,
                                               before: seq<Item<H, P>>)
    requires fmt.headerLen > 0
    ensures match FrameAt(fmt, c, limit, s, k)
            case Partial => ParseAll(fmt, c, limit, s, k) == Parsed([], EarlyEof, k, s)
            case Hopeless => ParseAll(fmt, c, limit, s, k) == Parsed([], HardError, k, s)
            case Whole(item, size, k') =>
              && 0 < size <= |s|
              && var rest := ParseAll(fmt, c, limit, s[size..], k');
                 var all := ParseAll(fmt, c, limit, s, k);
                 && before + all.items == before + [item] + rest.items
                 && all.ending == rest.ending && all.key == rest.key && all.left == rest.left
  {
  }

  /** A frame is decided by its own bytes: once it is complete or hopeless, nothing that follows matters. */
  lemma FrameExtends<H, P, K>(fmt: Format<H, P>, c: Cipher<K>, limit: nat, s: seq<Byte>, t: seq<Byte>, k: K)
    requires !FrameAt(fmt, c, limit, s, k).Partial?
    ensures FrameAt(fmt, c, limit, s + t, k) == FrameAt(fmt, c, limit, s, k)
  {
    var n := c.overhead + fmt.headerLen;
    assert (s + t)[..n] == s[..n];
    var (text, k1) := c.open(k, s[..n]);
    if text.Some? && fmt.header(text.value).Some? {
      var end := n + c.overhead + fmt.bodyLen(fmt.header(text.value).value);
      if end <= |s| { assert (s + t)[n..end] == s[n..end]; }
    }
  }

  /** What a frame takes from the stream is what its header says, also when its body turns out to be spoilt. */
  lemma FrameSize<H, P, K>(fmt: Format<H, P>, c: Cipher<K>, limit: nat, s: seq<Byte>, k: K)
    requires FrameAt(fmt, c, limit, s, k).Whole?
    ensures var n := c.overhead + fmt.headerLen; var f := FrameAt(fmt, c, limit, s, k);
      && n <= f.size <= |s| && c.open(k, s[..n]).0.Some? && fmt.header(c.open(k, s[..n]).0.value).Some?
      && var h := fmt.header(c.open(k, s[..n]).0.value).value;
         && f.size == n + (if fmt.bodyLen(h) == 0 then 0 else c.overhead + fmt.bodyLen(h))
         && (f.item.Spoilt? ==> f.item.header == h)
  {
  }
}
