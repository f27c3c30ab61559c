/** The buffer of one packet: header and body, each with room for an authentication code in front. Plain packets
    are the case in which that room is empty. */
module PacketBuffer {
  import opened Basics
  import opened Frames

  function Zeros(n: nat): (r: seq<Byte>)
    ensures |r| == n
  {
    seq(n, _ => 0)
  }

  /** A buffer after something was written into it. */
  function Filled(b: seq<Byte>, at: nat, chunk: seq<Byte>): seq<Byte>
    requires at + |chunk| <= |b|
  {
    b[..at] + chunk + b[at + |chunk|..]
  }

  class PacketBytes {
    var bytes: seq<Byte>
    const headerLen: nat
    const offset: nat

    ghost predicate Valid()
      reads this
    {
      |bytes| >= 2 * offset + headerLen
    }

    constructor (headerLen: nat, offset: nat)
      ensures Valid() && this.headerLen == headerLen && this.offset == offset
      ensures |bytes| == 2 * offset + headerLen && Body() == []
    {
      this.headerLen, this.offset := headerLen, offset;
      bytes := Zeros(2 * offset + headerLen);
    }

    function Header(): seq<Byte>
      requires Valid()
      reads this
    {
      bytes[offset..][..headerLen]
    }

    function Body(): seq<Byte>
      requires Valid()
      reads this
    {
      bytes[2 * offset + headerLen..]
    }

    predicate HasBody()
      reads this
    {
      |bytes| > 2 * offset + headerLen
    }

    /** What goes on the stream: without a body, the room for its authentication code is left out. */
    function AsSlice(): seq<Byte>
      requires Valid()
      reads this
    {
      if HasBody() then bytes else bytes[..|bytes| - offset]
    }

    /** Overwrites part of the buffer. */
    method Fill(at: nat, chunk: seq<Byte>)
      requires Valid() && at + |chunk| <= |bytes|
      modifies this
      ensures Valid() && bytes == Filled(old(bytes), at, chunk)
    {
      bytes := bytes[..at] + chunk + bytes[at + |chunk|..];
    }

    method WriteHeader(header: seq<Byte>)
      requires Valid() && |header| == headerLen
      modifies this
      ensures Valid() && Header() == header && Body() == old(Body())
    {
      Fill(offset, header);
    }

    method ResizeBody(len: nat)
      requires Valid()
      modifies this
      ensures Valid() && |Body()| == len && bytes[..2 * offset + headerLen] == old(bytes[..2 * offset + headerLen])
    {
      var n := 2 * offset + headerLen + len;
      bytes := if n <= |bytes| then bytes[..n] else bytes + Zeros(n - |bytes|);
    }

    method WriteBody(body: seq<Byte>)
      requires Valid()
      modifies this
      ensures Valid() && Body() == body && Header() == old(Header())
    {
      var n := 2 * offset + headerLen;
      ResizeBody(|body|);
      Fill(n, body);
    }

    /** Seals both segments in place. What then goes on the stream is the frame of the packet. */
    method Encrypt<K(!new)>(c: Cipher<K>, key: K) returns (key': K)
      requires Valid() && Lawful(c) && c.overhead == offset
      modifies this
      ensures Valid()
      ensures (AsSlice(), key') == Wire(c, Draft(old(Header()), old(Body())), key)
    {
      ghost var body := Body();
      var n := offset + headerLen;
      var (head, k1) := c.seal(key, Header());
      Fill(0, head);
      assert bytes == head + old(bytes)[n..];
      assert Body() == body;
      if !HasBody() {
        assert AsSlice() == head;
        return k1;
      }
      assert bytes[n..][offset..] == body;
      var (segment, k2) := c.seal(k1, bytes[n..][offset..]);
      Fill(n, segment);
      assert bytes == head + segment;
      key' := k2;
    }

    /** Opens the header segment in place. */
    method DecryptHeader<K(!new)>(c: Cipher<K>, key: K) returns (ok: bool, key': K)
      requires Valid() && Lawful(c) && c.overhead == offset
      modifies this
      ensures Valid() && |bytes| == old(|bytes|) && bytes[offset + headerLen..] == old(bytes)[offset + headerLen..]
      ensures var (text, k) := c.open(key, old(bytes)[..offset + headerLen]);
        key' == k && ok == text.Some? && (ok ==> Header() == text.value)
    {
      var (text, k) := c.open(key, bytes[..offset + headerLen]);
      ok, key' := text.Some?, k;
      if ok { Fill(offset, text.value); }
    }

    /** Opens the body segment in place. */
    method DecryptBody<K(!new)>(c: Cipher<K>, key: K) returns (ok: bool, key': K)
      requires Valid() && Lawful(c) && c.overhead == offset
      modifies this
      ensures Valid() && |bytes| == old(|bytes|)
      ensures var (text, k) := c.open(key, old(bytes)[offset + headerLen..]);
        key' == k && ok == text.Some? && (ok ==> Body() == text.value)
    {
      var (text, k) := c.open(key, bytes[offset + headerLen..]);
      ok, key' := text.Some?, k;
      if ok { Fill(2 * offset + headerLen, text.value); }
    }
  }
}
