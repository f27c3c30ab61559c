/** The resumable receiver: it reads a frame piece by piece, may be cancelled whenever it waits for bytes, and
    still takes from the stream exactly what parsing it at once would take. */
module Receiver {
  import opened Basics
  import opened Frames
  import opened PacketBuffer

  // ---- the reader ---------------------------------------------------------------------------

  /** What the reader has in store: some bytes that can be had at once, or a moment without any, in which the
      future that reads may be dropped. */
  datatype Event = Chunk(bytes: seq<Byte>) | Pause

  function Bytes(es: seq<Event>): seq<Byte> {
    if es == [] then [] else (if es[0].Chunk? then es[0].bytes else []) + Bytes(es[1..])
  }

  function Pauses(es: seq<Event>): nat {
    if es == [] then 0 else (if es[0].Pause? then 1 else 0) + Pauses(es[1..])
  }

  class Reader {
    var events: seq<Event>

    constructor (events: seq<Event>)
      requires forall e <- events :: e.Chunk? ==> e.bytes != []
      ensures Valid() && this.events == events
    {
      this.events := events;
    }

    predicate Valid()
      reads this
    {
      forall e <- events :: e.Chunk? ==> e.bytes != []
    }

    /** At most `max` bytes, or none at the end of the stream; or nothing yet. */
    method Read(max: nat) returns (r: Option<seq<Byte>>)
      requires Valid() && max > 0
      modifies this
      ensures Valid()
      ensures r.None? ==> Bytes(events) == old(Bytes(events)) && Pauses(events) < old(Pauses(events))
      ensures r.Some? ==> |r.value| <= max && old(Bytes(events)) == r.value + Bytes(events)
      ensures r.Some? ==> Pauses(events) == old(Pauses(events))
      ensures r == Some([]) ==> Bytes(events) == []
    {
      if events == [] { return Some([]); }
      var first, rest := events[0], events[1..];
      match first
      case Pause =>
        events := rest;
        r := None;
      case Chunk(bytes) =>
        assert first in events;
        if |bytes| <= max {
          events := rest;
          r := Some(bytes);
        } else {
          events := [Chunk(bytes[max..])] + rest;
          assert events[1..] == rest;
          assert bytes == bytes[..max] + bytes[max..];
          r := Some(bytes[..max]);
        }
    }
  }

  lemma FilledTwice(b: seq<Byte>, at: nat, first: seq<Byte>, second: seq<Byte>)
    requires at + |first| + |second| <= |b|
    ensures Filled(Filled(b, at, first), at + |first|, second) == Filled(b, at, first + second)
  {
  }

  /** The buffer agrees with what was taken from the stream after more of it came in. */
  lemma FilledHeld(b: seq<Byte>, held: seq<Byte>, n: nat, read: nat, got: seq<Byte>)
    requires |held| == n + read && n + read + |got| <= |b| && b[n..n + read] == held[n..]
    ensures var b', held' := Filled(b, n + read, got), held + got;
      |b'| == |b| && b'[n..n + read + |got|] == held'[n..] && held'[..n] == held[..n]
  {
    var b', held' := Filled(b, n + read, got), held + got;
    assert b'[n..n + read + |got|] == b[n..n + read] + got;
    assert held'[n..] == held[n..] + got;
  }

  // ---- the receiver -------------------------------------------------------------------------

  /** What one attempt to read yields. */
  datatype Progress = Ready | Cancelled | Eof | Hard

  datatype Received<+H, +P> = Item(item: Item<H, P>) | Nothing | Ended(ending: Ending)

  class PacketReceiver<H(!new), P, K(!new)> {
    const fmt: Format<H, P>
    const cipher: Cipher<K>
    const limit: nat
    var bytes: PacketBytes
    var header: Option<H>
    var read: nat
    var key: K
    /** The bytes of the current frame taken from the stream so far, and the key before them. */
    ghost var held: seq<Byte>
    ghost var startKey: K

    ghost function HeadLen(): nat {
      cipher.overhead + fmt.headerLen
    }

    /** A frame whose header has not been read completely: the buffer starts with what was read. */
    ghost predicate InHeader()
      reads this, bytes
    {
      && header.None? && key == startKey && |bytes.bytes| == HeadLen() + cipher.overhead
      && |held| == read <= HeadLen() && bytes.bytes[..read] == held
    }

    /** A frame whose header is known: the buffer has the size of the body from the first byte of it on. */
    ghost predicate InBody()
      reads this, bytes
    {
      && header.Some? && |held| == HeadLen() + read
      && cipher.open(startKey, held[..HeadLen()]).0.Some?
      && fmt.header(cipher.open(startKey, held[..HeadLen()]).0.value) == header
      && key == cipher.open(startKey, held[..HeadLen()]).1
      && var len: nat := fmt.bodyLen(header.value);
         && (read == 0 ==> |bytes.bytes| >= HeadLen() + cipher.overhead)
         && (read == 0 && len == 0 ==> |bytes.bytes| == HeadLen() + cipher.overhead)
         && (read > 0 ==> len > 0 && (limit == 0 || len <= limit) && read <= cipher.overhead + len
                          && |bytes.bytes| == HeadLen() + cipher.overhead + len
                          && bytes.bytes[HeadLen()..HeadLen() + read] == held[HeadLen()..])
    }

    ghost predicate Valid()
      reads this, bytes
    {
      && Lawful(cipher) && fmt.headerLen > 0
      && bytes.headerLen == fmt.headerLen && bytes.offset == cipher.overhead && bytes.Valid()
      && (InHeader() || InBody())
    }

    constructor (fmt: Format<H, P>, cipher: Cipher<K>, limit: nat, key: K)
      requires Lawful(cipher) && fmt.headerLen > 0
      ensures Valid() && fresh(bytes) && held == [] && startKey == key
      ensures this.fmt == fmt && this.cipher == cipher && this.limit == limit
    {
      this.fmt, this.cipher, this.limit, this.key := fmt, cipher, limit, key;
      header, read, held, startKey := None, 0, [], key;
      bytes := new PacketBytes(fmt.headerLen, cipher.overhead);
    }

    /** One read into the buffer, at `at + read`. */
    method ReadOnce(reader: Reader, at: nat, len: nat) returns (r: Option<seq<Byte>>)
      requires reader.Valid() && bytes.Valid() && at + len <= |bytes.bytes| && read < len
      modifies reader, this`read, this`held, bytes
      ensures reader.Valid() && bytes.Valid()
      ensures var got := r.GetOr([]);
        && read == old(read) + |got| <= len && held == old(held) + got
        && bytes.bytes == Filled(old(bytes.bytes), at + old(read), got)
        && got + Bytes(reader.events) == old(Bytes(reader.events))
      ensures r.Some? ==> Pauses(reader.events) == old(Pauses(reader.events))
      ensures r.None? ==> Pauses(reader.events) < old(Pauses(reader.events))
      ensures r == Some([]) ==> Bytes(reader.events) == []
    {
      r := reader.Read(len - read);
      if r.Some? {
        bytes.Fill(at + read, r.value);
        held := held + r.value;
        read := read + |r.value|;
      } else {
        assert bytes.bytes == Filled(bytes.bytes, at + read, []);
      }
    }

    /** Reads into the buffer, from `at + read` on, until `read` reaches `len`. `got` is what came. */
    method ReadInto(reader: Reader, at: nat, len: nat) returns (p: Progress, ghost got: seq<Byte>)
      requires reader.Valid() && bytes.Valid() && at + len <= |bytes.bytes| && read < len
      modifies reader, this`read, this`held, bytes
      ensures reader.Valid() && bytes.Valid() && !p.Hard?
      ensures read == old(read) + |got| <= len && held == old(held) + got
      ensures bytes.bytes == Filled(old(bytes.bytes), at + old(read), got)
      ensures got + Bytes(reader.events) == old(Bytes(reader.events))
      ensures Pauses(reader.events) <= old(Pauses(reader.events))
      ensures p.Ready? <==> read == len
      ensures p.Cancelled? ==> Pauses(reader.events) < old(Pauses(reader.events))
      ensures p.Eof? ==> Bytes(reader.events) == []
    {
      got := [];
      assert bytes.bytes == Filled(bytes.bytes, at + read, []);
      hide Filled, Bytes, Pauses;
      while true
        invariant reader.Valid() && bytes.Valid() && |bytes.bytes| == old(|bytes.bytes|)
        invariant read == old(read) + |got| < len && held == old(held) + got
        invariant bytes.bytes == Filled(old(bytes.bytes), at + old(read), got)
        invariant got + Bytes(reader.events) == old(Bytes(reader.events))
        invariant Pauses(reader.events) == old(Pauses(reader.events))
        decreases len - read
      {
        var r := ReadOnce(reader, at, len);
        ghost var more, was := r.GetOr([]), got;
        FilledTwice(old(bytes.bytes), at + old(read), was, more);
        assert was + more + Bytes(reader.events) == was + (more + Bytes(reader.events));
        got := was + more;
        if r.None? { return Cancelled, got; }
        if read == len { return Ready, got; }
        if r.value == [] { return Eof, got; }
      }
    }

    method FillHeader(reader: Reader) returns (p: Progress)
      requires Valid() && InHeader() && reader.Valid()
      modifies reader, this`read, this`held, bytes
      ensures reader.Valid() && Valid() && InHeader() && !p.Hard?
      ensures held + Bytes(reader.events) == old(held + Bytes(reader.events))
      ensures Pauses(reader.events) <= old(Pauses(reader.events))
      ensures p.Ready? <==> read == HeadLen()
      ensures p.Cancelled? ==> Pauses(reader.events) < old(Pauses(reader.events))
      ensures p.Eof? ==> Bytes(reader.events) == []
    {
      var n := cipher.overhead + fmt.headerLen;
      if read == n { return Ready; }
      ghost var got, was := [], held;
      p, got := ReadInto(reader, 0, n);
      assert bytes.bytes[..read] == was + got;
      assert was + got + Bytes(reader.events) == was + (got + Bytes(reader.events));
    }

    /** All header bytes are there: the header becomes known, or the stream is beyond repair. */
    method OpenHeader() returns (p: Progress)
      requires Valid() && InHeader() && read == HeadLen()
      modifies this`key, this`header, this`read, bytes
      ensures p.Ready? || p.Hard?
      ensures p.Ready? ==> Valid() && InBody()
      ensures p.Hard? ==> var text := cipher.open(startKey, held).0; text.None? || fmt.header(text.value).None?
    {
      ghost var n := HeadLen();
      assert bytes.bytes[..n] == held == held[..n];
      var ok, k := bytes.DecryptHeader(cipher, key);
      key := k;
      if !ok { return Hard; }
      var h := fmt.header(bytes.Header());
      if h.None? { return Hard; }
      header, read := h, 0;
      p := Ready;
    }

    method ReadHeader(reader: Reader) returns (p: Progress)
      requires Valid() && reader.Valid()
      modifies reader, this`key, this`header, this`read, this`held, bytes
      ensures reader.Valid()
      ensures held + Bytes(reader.events) == old(held + Bytes(reader.events))
      ensures Pauses(reader.events) <= old(Pauses(reader.events))
      ensures p.Ready? ==> Valid() && InBody()
      ensures p.Cancelled? ==> Valid() && Pauses(reader.events) < old(Pauses(reader.events))
      ensures p.Eof? ==> Valid() && Bytes(reader.events) == [] && FrameAt(fmt, cipher, limit, held, startKey).Partial?
      ensures p.Hard? ==> FrameAt(fmt, cipher, limit, held + Bytes(reader.events), startKey).Hopeless?
    {
      if header.Some? { return Ready; }
      p := FillHeader(reader);
      if !p.Ready? { return; }
      p := OpenHeader();
      ghost var stream := held + Bytes(reader.events);
      assert p.Hard? ==> stream[..HeadLen()] == held;
    }

    /** The frame is over. */
    method TakeMessage() returns (r: Received<H, P>)
      requires Lawful(cipher) && fmt.headerLen > 0 && bytes.Valid() && header.Some?
      modifies this
      ensures Valid() && fresh(bytes) && held == [] && startKey == key == old(key)
      ensures r == Received.Item(ItemOf(fmt, old(header).value, Some(old(bytes.Body()))))
    {
      var h, body := header.value, bytes.Body();
      Reset();
      var packet := fmt.packet(h, body);
      r := Received.Item(if packet.Some? then Good(packet.value) else Spoilt(h));
    }

    method SoftError() returns (r: Received<H, P>)
      requires Lawful(cipher) && fmt.headerLen > 0 && bytes.Valid() && header.Some?
      modifies this
      ensures Valid() && fresh(bytes) && held == [] && startKey == key == old(key)
      ensures r == Received.Item(Spoilt(old(header).value))
    {
      r := Received.Item(Spoilt(header.value));
      Reset();
    }

    method Reset()
      requires Lawful(cipher) && fmt.headerLen > 0
      modifies this
      ensures Valid() && fresh(bytes) && held == [] && startKey == key == old(key)
    {
      bytes := new PacketBytes(fmt.headerLen, cipher.overhead);
      header, read, held, startKey := None, 0, [], key;
    }

    /** The buffer gets the size of the body. */
    method PrepareBody()
      requires Valid() && InBody() && read == 0 && fmt.bodyLen(header.value) > 0
      modifies bytes
      ensures Valid() && InBody() && |bytes.bytes| == HeadLen() + cipher.overhead + fmt.bodyLen(header.value)
    {
      bytes.ResizeBody(fmt.bodyLen(header.value));
    }

    method FillBody(reader: Reader) returns (p: Progress)
      requires Valid() && InBody() && reader.Valid()
      requires var len := fmt.bodyLen(header.value); len > 0 && (limit == 0 || len <= limit)
      requires |bytes.bytes| == HeadLen() + cipher.overhead + fmt.bodyLen(header.value)
      modifies reader, this`read, this`held, bytes
      ensures reader.Valid() && Valid() && InBody() && !p.Hard?
      ensures held + Bytes(reader.events) == old(held + Bytes(reader.events))
      ensures Pauses(reader.events) <= old(Pauses(reader.events))
      ensures p.Ready? <==> read == cipher.overhead + fmt.bodyLen(header.value)
      ensures p.Cancelled? ==> Pauses(reader.events) < old(Pauses(reader.events))
      ensures p.Eof? ==> Bytes(reader.events) == []
    {
      var n, end := cipher.overhead + fmt.headerLen, cipher.overhead + fmt.bodyLen(header.value);
      if read == end { return Ready; }
      ghost var got, was, before := [], held, bytes.bytes;
      p, got := ReadInto(reader, n, end);
      FilledHeld(before, was, n, read - |got|, got);
      hide Filled, Lawful;
      assert was + got + Bytes(reader.events) == was + (got + Bytes(reader.events));
    }

    method ReadBody(reader: Reader) returns (r: Received<H, P>)
      requires Valid() && InBody() && reader.Valid()
      modifies reader, this, bytes
      ensures reader.Valid() && (bytes == old(bytes) || fresh(bytes))
      ensures Pauses(reader.events) <= old(Pauses(reader.events))
      ensures Took(old(startKey), old(held + Bytes(reader.events)), r, reader.events)
      ensures r.Nothing? ==> Pauses(reader.events) < old(Pauses(reader.events))
    {
      var len: nat := fmt.bodyLen(header.value);
      hide FrameAt, Lawful, InHeader;
      if len == 0 {
        r := EmptyBody(reader.events);
        return;
      }
      if read == 0 {
        if limit != 0 && len > limit {
          TooLong(reader.events);
          return Ended(HardError);
        }
        PrepareBody();
      }
      r := ReadSizedBody(reader);
    }

    /** A frame without a body is complete with its header. */
    method EmptyBody(ghost ahead: seq<Event>) returns (r: Received<H, P>)
      requires Valid() && InBody() && fmt.bodyLen(header.value) == 0
      modifies this
      ensures fresh(bytes) && !r.Nothing? && Took(old(startKey), old(held) + Bytes(ahead), r, ahead)
    {
      ghost var stream, n := held + Bytes(ahead), HeadLen();
      assert stream[..n] == held[..n] && stream[n..] == Bytes(ahead) && |held| == n;
      assert bytes.Body() == [];
      FrameWithHeader(fmt, cipher, limit, stream, startKey, header.value);
      assert FrameAt(fmt, cipher, limit, stream, startKey) == Whole(ItemOf(fmt, header.value, Some([])), n, key);
      hide FrameAt, Lawful;
      r := TakeMessage();
    }

    lemma TooLong(ahead: seq<Event>)
      requires Valid() && InBody() && limit != 0 && fmt.bodyLen(header.value) > limit
      ensures FrameAt(fmt, cipher, limit, held + Bytes(ahead), startKey).Hopeless?
    {
      var stream, n := held + Bytes(ahead), HeadLen();
      assert stream[..n] == held[..n];
      FrameWithHeader(fmt, cipher, limit, stream, startKey, header.value);
    }

    lemma TooShort()
      requires Valid() && InBody()
      requires var len := fmt.bodyLen(header.value); len > 0 && (limit == 0 || len <= limit)
      requires read < cipher.overhead + fmt.bodyLen(header.value)
      ensures FrameAt(fmt, cipher, limit, held, startKey).Partial?
    {
      FrameWithHeader(fmt, cipher, limit, held, startKey, header.value);
    }

    method ReadSizedBody(reader: Reader) returns (r: Received<H, P>)
      requires Valid() && InBody() && reader.Valid()
      requires var len := fmt.bodyLen(header.value); len > 0 && (limit == 0 || len <= limit)
      requires |bytes.bytes| == HeadLen() + cipher.overhead + fmt.bodyLen(header.value)
      modifies reader, this, bytes
      ensures reader.Valid() && (bytes == old(bytes) || fresh(bytes))
      ensures Pauses(reader.events) <= old(Pauses(reader.events))
      ensures Took(old(startKey), old(held + Bytes(reader.events)), r, reader.events)
      ensures r.Nothing? ==> Pauses(reader.events) < old(Pauses(reader.events))
    {
      ghost var stream := held + Bytes(reader.events);
      hide FrameAt, Lawful, InHeader;
      var p := FillBody(reader);
      if p.Cancelled? { return Nothing; }
      if p.Eof? {
        TooShort();
        assert stream == held;
        return Ended(EarlyEof);
      }
      r := FinishBody(reader.events);
    }

    /** All body bytes are there, and `ahead` is what comes after them. */
    method FinishBody(ghost ahead: seq<Event>) returns (r: Received<H, P>)
      requires Valid() && InBody() && fmt.bodyLen(header.value) > 0
      requires read == cipher.overhead + fmt.bodyLen(header.value)
      modifies this, bytes
      ensures fresh(bytes) && !r.Nothing? && Took(old(startKey), old(held) + Bytes(ahead), r, ahead)
    {
      ghost var n, stream, start, h := HeadLen(), held + Bytes(ahead), startKey, header.value;
      assert stream[..n] == held[..n] && stream[n..n + read] == held[n..] && stream[n + read..] == Bytes(ahead);
      FrameWithHeader(fmt, cipher, limit, stream, start, h);
      hide FrameAt, Lawful;
      r := OpenBody();
    }

    method OpenBody() returns (r: Received<H, P>)
      requires Valid() && InBody() && fmt.bodyLen(header.value) > 0
      requires read == cipher.overhead + fmt.bodyLen(header.value)
      modifies this, bytes
      ensures Valid() && fresh(bytes) && held == [] && startKey == key
      ensures var (body, k) := cipher.open(old(key), old(held)[HeadLen()..]);
        r == Received.Item(ItemOf(fmt, old(header).value, body)) && key == k
    {
      assert bytes.bytes[HeadLen()..] == held[HeadLen()..];
      var ok, k := bytes.DecryptBody(cipher, key);
      key := k;
      if ok { r := TakeMessage(); } else { r := SoftError(); }
    }

    /** What a call of `receive` may do with the stream ahead of it: take exactly its first frame, or leave it
        where it is, or find that it ends or is beyond repair. */
    ghost predicate Took(start: K, stream: seq<Byte>, r: Received<H, P>, events: seq<Event>)
      reads this, bytes
    {
      var f := FrameAt(fmt, cipher, limit, stream, start);
      match r
      case Item(item) =>
        && Valid() && held == [] && startKey == key && |Bytes(events)| <= |stream|
        && f == Whole(item, |stream| - |Bytes(events)|, key)
        && stream[|stream| - |Bytes(events)|..] == Bytes(events)
      case Nothing => Valid() && startKey == start && held + Bytes(events) == stream
      case Ended(HardError) => f.Hopeless?
      case Ended(EarlyEof) => f.Partial? && Bytes(events) == [] && Valid() && startKey == start && held == stream
    }

    /** Receives one packet. Nothing means that the call was cancelled while it waited for bytes. */
    method Receive(reader: Reader) returns (r: Received<H, P>)
      requires Valid() && reader.Valid()
      modifies reader, this, bytes
      ensures reader.Valid() && (bytes == old(bytes) || fresh(bytes))
      ensures Pauses(reader.events) <= old(Pauses(reader.events))
      ensures Took(old(startKey), old(held + Bytes(reader.events)), r, reader.events)
      ensures r.Nothing? ==> Pauses(reader.events) < old(Pauses(reader.events))
    {
      var p := ReadHeader(reader);
      match p
      case Cancelled => r := Nothing;
      case Eof =>
        assert held + Bytes(reader.events) == held;
        r := Ended(EarlyEof);
      case Hard => r := Ended(HardError);
      case Ready => r := ReadBody(reader);
    }

    /** A call of `receive` against parsing the stream at once, after some items were already found. */
    method ReceiveNext(reader: Reader, ghost before: seq<Item<H, P>>) returns (r: Received<H, P>)
      requires Valid() && reader.Valid()
      modifies reader, this, bytes
      ensures reader.Valid() && (bytes == old(bytes) || fresh(bytes))
      ensures var stream, start := old(held + Bytes(reader.events)), old(startKey);
        var all := ParseAll(fmt, cipher, limit, stream, start);
        match r
        case Nothing =>
          && Valid() && startKey == start && held + Bytes(reader.events) == stream
          && Pauses(reader.events) < old(Pauses(reader.events))
        case Ended(e) =>
          && all.items == [] && all.ending == e
          && (e.EarlyEof? ==> Valid() && startKey == all.key && held == all.left)
        case Item(item) =>
          var rest := ParseAll(fmt, cipher, limit, held + Bytes(reader.events), startKey);
          && Valid() && |held + Bytes(reader.events)| < |stream| && before + all.items == before + [item] + rest.items
          && all.ending == rest.ending && all.key == rest.key && all.left == rest.left
    {
      hide FrameAt, ParseAll, Lawful, InHeader, InBody, Bytes, Pauses;
      ParseFirst(fmt, cipher, limit, held + Bytes(reader.events), startKey, before);
      r := Receive(reader);
      assert [] + Bytes(reader.events) == Bytes(reader.events);
    }

    /** Receives until the stream ends or breaks, calling `receive` again whenever it was cancelled. However the
        bytes are chunked and wherever the calls are cancelled, the result is that of parsing the stream at
        once. */
    method ReceiveAll(reader: Reader) returns (items: seq<Item<H, P>>, ending: Ending)
      requires Valid() && reader.Valid()
      modifies reader, this, bytes
      ensures var all := ParseAll(fmt, cipher, limit, old(held + Bytes(reader.events)), old(startKey));
        items == all.items && ending == all.ending && (ending.EarlyEof? ==> Valid() && startKey == all.key && held == all.left)
    {
      ghost var stream := held + Bytes(reader.events);
      ghost var all := ParseAll(fmt, cipher, limit, stream, startKey);
      ghost var rest := all;
      items := [];
      while true
        invariant Valid() && reader.Valid() && (bytes == old(bytes) || fresh(bytes))
        invariant rest == ParseAll(fmt, cipher, limit, held + Bytes(reader.events), startKey)
        invariant items + rest.items == all.items && rest.ending == all.ending && rest.key == all.key && rest.left == all.left
        decreases |held + Bytes(reader.events)|, Pauses(reader.events)
      {
        hide ParseAll, Lawful, InHeader, InBody, Bytes, Pauses;
        var r := ReceiveNext(reader, items);
        match r
        case Nothing =>
        case Ended(e) => return items, e;
        case Item(item) =>
          rest := ParseAll(fmt, cipher, limit, held + Bytes(reader.events), startKey);
          items := items + [item];
      }
    }
  }

  // ---- both directions ----------------------------------------------------------------------

  /** The first i packets have been written. */
  ghost predicate Sent<K>(c: Cipher<K>, ds: seq<Draft>, start: K, i: nat, written: seq<Byte>, key: K)
    requires i <= |ds|
  {
    var rest := WireAll(c, ds[i..], key);
    WireAll(c, ds, start) == (written + rest.0, rest.1)
  }

  lemma SentNone<K>(c: Cipher<K>, ds: seq<Draft>, start: K)
    ensures Sent(c, ds, start, 0, [], start)
  {
    assert ds[0..] == ds && [] + WireAll(c, ds, start).0 == WireAll(c, ds, start).0;
  }

  lemma SentOneMore<K>(c: Cipher<K>, ds: seq<Draft>, start: K, i: nat, written: seq<Byte>, k: K, more: seq<Byte>, k': K)
    requires i < |ds| && Sent(c, ds, start, i, written, k) && Wire(c, ds[i], k) == (more, k')
    ensures Sent(c, ds, start, i + 1, written + more, k')
  {
    hide Wire;
    assert ds[i..][0] == ds[i] && ds[i..][1..] == ds[i + 1..];
    var rest := WireAll(c, ds[i + 1..], k');
    assert WireAll(c, ds[i..], k) == (more + rest.0, rest.1);
    assert written + (more + rest.0) == written + more + rest.0;
  }

  lemma SentAll<K>(c: Cipher<K>, ds: seq<Draft>, start: K, written: seq<Byte>, key: K)
    requires Sent(c, ds, start, |ds|, written, key)
    ensures (written, key) == WireAll(c, ds, start)
  {
    assert ds[|ds|..] == [] && written + [] == written;
  }

  /** `EncryptedPacketStream`: the two keys of one endpoint, and its receiver. */
  class PacketStream<H(!new), P, K(!new)> {
    var sendKey: K
    const receiver: PacketReceiver<H, P, K>

    constructor (fmt: Format<H, P>, cipher: Cipher<K>, limit: nat, sendKey: K, recvKey: K)
      requires Lawful(cipher) && fmt.headerLen > 0
      ensures receiver.Valid() && fresh(receiver) && fresh(receiver.bytes) && receiver.held == []
      ensures receiver.fmt == fmt && receiver.cipher == cipher && receiver.limit == limit
      ensures this.sendKey == sendKey && receiver.startKey == recvKey
    {
      this.sendKey := sendKey;
      receiver := new PacketReceiver(fmt, cipher, limit, recvKey);
    }

    /** What is written to the stream for one packet. */
    method Send(d: Draft) returns (written: seq<Byte>)
      requires Lawful(receiver.cipher) && |d.header| == receiver.fmt.headerLen
      modifies this`sendKey
      ensures (written, sendKey) == Wire(receiver.cipher, d, old(sendKey))
    {
      var bytes := new PacketBytes(receiver.fmt.headerLen, receiver.cipher.overhead);
      bytes.WriteHeader(d.header);
      bytes.WriteBody(d.body);
      var k := bytes.Encrypt(receiver.cipher, sendKey);
      sendKey := k;
      written := bytes.AsSlice();
    }

    method SendAll(ds: seq<Draft>) returns (written: seq<Byte>)
      requires Lawful(receiver.cipher) && forall j :: 0 <= j < |ds| ==> |ds[j].header| == receiver.fmt.headerLen
      modifies this`sendKey
      ensures (written, sendKey) == WireAll(receiver.cipher, ds, old(sendKey))
    {
      written := [];
      SentNone(receiver.cipher, ds, sendKey);
      hide Sent, Wire, WireAll, Lawful;
      for i := 0 to |ds|
        invariant Sent(receiver.cipher, ds, old(sendKey), i, written, sendKey)
      {
        ghost var before := sendKey;
        var more := Send(ds[i]);
        SentOneMore(receiver.cipher, ds, old(sendKey), i, written, before, more, sendKey);
        written := written + more;
      }
      SentAll(receiver.cipher, ds, old(sendKey), written, sendKey);
    }
  }

  lemma AllArrives<H, P, K(!new)>(fmt: Format<H, P>, cipher: Cipher<K>, limit: nat, ds: seq<Draft>, key: K)
    requires Lawful(cipher) && fmt.headerLen > 0
    requires forall j :: 0 <= j < |ds| ==> Honest(fmt, limit, ds[j])
    ensures var (wire, k) := WireAll(cipher, ds, key);
      ParseAll(fmt, cipher, limit, wire, key) == Parsed(ItemsOf(fmt, limit, ds), EarlyEof, k, [])
  {
    var (wire, k) := WireAll(cipher, ds, key);
    assert wire + [] == wire && ItemsOf(fmt, limit, ds) + [] == ItemsOf(fmt, limit, ds);
    LockStep(fmt, cipher, limit, ds, key, []);
  }

  /** From end to end: packets sent by one endpoint, cut into pieces and interrupted in any way on their travel,
      are the packets the other endpoint receives, in order, and afterwards its key is the sender's. */
  method SendAndReceive<H(!new), P, K(!new)>(fmt: Format<H, P>, cipher: Cipher<K>, limit: nat, key: K, ds: seq<Draft>,
                                             travel: seq<Byte> -> seq<Event>)
    returns (items: seq<Item<H, P>>, ending: Ending, sendKey: K, recvKey: K)
    requires Lawful(cipher) && fmt.headerLen > 0
    requires forall j :: 0 <= j < |ds| ==> Honest(fmt, limit, ds[j])
    requires forall w :: Bytes(travel(w)) == w && forall e <- travel(w) :: e.Chunk? ==> e.bytes != []
    ensures items == ItemsOf(fmt, limit, ds) && ending == EarlyEof
    ensures recvKey == sendKey == WireAll(cipher, ds, key).1
  {
    var alice := new PacketStream(fmt, cipher, limit, key, key);
    var wire := alice.SendAll(ds);
    sendKey := alice.sendKey;
    var reader := new Reader(travel(wire));
    var bob := new PacketReceiver(fmt, cipher, limit, key);
    assert [] + Bytes(reader.events) == wire == wire + [];
    AllArrives(fmt, cipher, limit, ds, key);
    hide ParseAll, WireAll, ItemsOf, Honest, Lawful;
    items, ending := bob.ReceiveAll(reader);
    recvKey := bob.key;
  }
}
