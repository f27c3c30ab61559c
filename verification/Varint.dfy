/** Base 128 varints over unsigned 64-bit numbers (Protocol Buffers Encoding guide, "Base 128 Varints"). */
module Varint {
  import opened Basics

  /** How many bytes a varint may occupy at most. */
  const MAX_LEN: nat := 10

  /** The wire form: seven bits a byte, lowest group first, top bit set on every byte but the last. */
  function Encoded(n: nat): (r: seq<Byte>)
    ensures |r| >= 1
  {
    if n < 128 then [n] else [n % 128 + 128] + Encoded(n / 128)
  }

  /** 2 to the power 7 * i. Group i of a varint has this weight. */
  function Weight(i: nat): (r: nat)
    ensures r >= 1
  {
    if i == 0 then 1 else 128 * Weight(i - 1)
  }

  /** A number shifted left by i groups. */
  function Shifted(n: nat, i: nat): nat {
    n * Weight(i)
  }

  /** Reading from group `i` on, with the lower groups already in `val`.
      A group shifted beyond bit 63 loses its upper bits. The groups do not overlap, so or-ing is adding. */
  function DecodeFrom(s: seq<Byte>, i: nat, val: nat): (r: Option<(nat, seq<Byte>)>)
    ensures r.Some? ==> |r.value.1| < |s| && r.value.1 == s[|s| - |r.value.1|..]
  {
    if i >= MAX_LEN || s == [] then None
    else
      var val' := val + Shifted(s[0] % 128, i) % U64;
      if s[0] < 128 then Some((val', s[1..])) else DecodeFrom(s[1..], i + 1, val')
  }

  /** The value and the unread rest, or None when the input ends early or has no end within ten bytes. */
  function Decode(s: seq<Byte>): (r: Option<(nat, seq<Byte>)>)
    ensures r.Some? ==> |r.value.1| < |s| && r.value.1 == s[|s| - |r.value.1|..]
  {
    DecodeFrom(s, 0, 0)
  }

  // ---- size ---------------------------------------------------------------------------------

  /** 64 minus the number of leading zeros. */
  function BitLength(n: nat): nat {
    if n == 0 then 0 else 1 + BitLength(n / 2)
  }

  function Ceil(x: real): int {
    -((-x).Floor)
  }

  /** The size rule of the code: bits divided by seven, rounded up, at least one. */
  function Size(n: nat): nat {
    var bytes := Ceil(BitLength(n) as real / 7.0);
    if bytes < 1 then 1 else bytes
  }

  lemma CeilOfSevenths(bits: nat)
    ensures Ceil(bits as real / 7.0) == (bits + 6) / 7
  {
    var q := (bits + 6) / 7;
    var x := -(bits as real / 7.0);
    assert 7 * q - 6 <= bits <= 7 * q;
    assert (-q) as real <= x;
    assert x < (-q) as real + 1.0;
  }

  lemma {:induction false} BitLengthShift(n: nat)
    requires n >= 128
    ensures BitLength(n) == 7 + BitLength(n / 128)
  {
    var n1, n2, n3 := n / 2, n / 2 / 2, n / 2 / 2 / 2;
    var n4, n5, n6 := n3 / 2, n3 / 2 / 2, n3 / 2 / 2 / 2;
    assert BitLength(n) == 1 + BitLength(n1) && BitLength(n1) == 1 + BitLength(n2);
    assert BitLength(n2) == 1 + BitLength(n3) && BitLength(n3) == 1 + BitLength(n4);
    assert BitLength(n4) == 1 + BitLength(n5) && BitLength(n5) == 1 + BitLength(n6);
    assert BitLength(n6) == 1 + BitLength(n6 / 2);
    assert n6 / 2 == n / 128;
  }

  /** The size rule is the length of the wire form, for every number. */
  lemma {:induction false} SizeIsLength(n: nat)
    ensures Size(n) == |Encoded(n)|
  {
    CeilOfSevenths(BitLength(n));
    if n < 128 {
      SmallBitLength(n);
    } else {
      BitLengthShift(n);
      CeilOfSevenths(BitLength(n / 128));
      SizeIsLength(n / 128);
      assert BitLength(n / 128) >= 1;
    }
  }

  ghost function TwoTo(k: nat): nat {
    if k == 0 then 1 else 2 * TwoTo(k - 1)
  }

  lemma {:induction false} BitLengthBound(n: nat, k: nat)
    requires n < TwoTo(k)
    ensures BitLength(n) <= k
  {
    if n > 0 { BitLengthBound(n / 2, k - 1); }
  }

  lemma SmallBitLength(n: nat)
    requires n < 128
    ensures BitLength(n) <= 7
  {
    assert TwoTo(3) == 8 && TwoTo(7) == 16 * TwoTo(3);
    BitLengthBound(n, 7);
  }

  /** The low three bits of a tag never change its size, so a size builder may ignore the wire type. */
  lemma LowBitsKeepLength(a: nat, w: nat)
    requires w < 8
    ensures |Encoded(8 * a + w)| == |Encoded(8 * a)|
  {
    var q, r := a / 16, a % 16;
    assert 8 * a == 128 * q + 8 * r && 8 * r + w < 128;
    assert (8 * a) / 128 == q && (8 * a + w) / 128 == q;
  }

  lemma LengthBound(n: nat, i: nat)
    requires n < Weight(i + 1)
    ensures |Encoded(n)| <= i + 1
  {
    assert Weight(i + 1) == 128 * Weight(i);
    if n >= 128 && i >= 1 {
      LengthBound(n / 128, i - 1);
    }
  }

  lemma WeightTable()
    ensures Weight(9) == 0x8000_0000_0000_0000
    ensures Weight(10) == 64 * U64
  {
    assert Weight(3) == 0x20_0000;
    assert Weight(6) == 0x400_0000_0000;
    assert Weight(9) == 0x8000_0000_0000_0000;
  }

  /** No 64-bit number needs more than ten bytes. */
  lemma AtMostTen(n: nat)
    requires n < U64
    ensures |Encoded(n)| <= MAX_LEN
  {
    WeightTable();
    LengthBound(n, 9);
  }

  /** A number needs more than k bytes if and only if it has more than 7 * k bits. */
  lemma {:induction false} LongerThan(n: nat, k: nat)
    requires k >= 1
    ensures |Encoded(n)| > k <==> n >= Weight(k)
    decreases k
  {
    assert Weight(k) == 128 * Weight(k - 1);
    if n >= 128 && k > 1 {
      LongerThan(n / 128, k - 1);
    } else {
      assert k == 1 ==> Weight(0) == 1;
    }
  }

  /** The number that groups of seven bits make, lowest group first. */
  function Base128(s: seq<Byte>): nat {
    if s == [] then 0 else s[0] % 128 + 128 * Base128(s[1..])
  }

  /** The format: the groups of a varint make its number, and all bytes but the last have the top bit set. */
  lemma {:induction false} IsBase128(n: nat)
    ensures Base128(Encoded(n)) == n
    ensures forall i :: 0 <= i < |Encoded(n)| ==> (Encoded(n)[i] >= 128 <==> i < |Encoded(n)| - 1)
  {
    if n >= 128 {
      IsBase128(n / 128);
      assert Encoded(n)[1..] == Encoded(n / 128);
      assert forall i :: 1 <= i < |Encoded(n)| ==> Encoded(n)[i] == Encoded(n / 128)[i - 1];
    } else {
      assert [n][1..] == [];
    }
  }

  // ---- read after write ---------------------------------------------------------------------

  lemma WeightGrows(i: nat, j: nat)
    requires i <= j
    ensures Weight(i) <= Weight(j)
    decreases j - i
  {
    if i < j { WeightGrows(i + 1, j); }
  }

  /** One step of reading: the lowest group goes to the value, the others keep their place. */
  lemma SplitGroup(n: nat, i: nat)
    ensures Shifted(n % 128, i) + Shifted(n / 128, i + 1) == Shifted(n, i)
    ensures n >= 1 ==> Shifted(n, i) >= Weight(i)
  {
    var q, r, p := n / 128, n % 128, Weight(i);
    assert Weight(i + 1) == 128 * p;
    assert n * p == (q * 128 + r) * p == q * (128 * p) + r * p;
  }

  lemma GroupInRange(n: nat, i: nat)
    requires Shifted(n, i) < U64 && (i == 0 || n >= 1)
    ensures i < MAX_LEN
  {
    hide Shifted;
    SplitGroup(n, i);
    if i >= MAX_LEN {
      WeightTable();
      WeightGrows(10, i);
      assert false;
    }
  }

  lemma {:induction false} DecodeFromEncoded(n: nat, rest: seq<Byte>, i: nat, val: nat)
    requires Shifted(n, i) < U64 && (i == 0 || n >= 1)
    ensures DecodeFrom(Encoded(n) + rest, i, val) == Some((val + Shifted(n, i), rest))
    decreases n
  {
    hide Shifted, Weight;
    GroupInRange(n, i);
    SplitGroup(n, i);
    var s, low := Encoded(n) + rest, Shifted(n % 128, i);
    assert low % U64 == low;
    FirstByte(n, rest);
    hide Encoded;
    if n >= 128 {
      DecodeFromEncoded(n / 128, rest, i + 1, val + low);
    }
  }

  lemma FirstByte(n: nat, rest: seq<Byte>)
    ensures (Encoded(n) + rest)[0] % 128 == n % 128
    ensures (Encoded(n) + rest)[0] < 128 <==> n < 128
    ensures (Encoded(n) + rest)[1..] == if n < 128 then rest else Encoded(n / 128) + rest
    ensures n < 128 ==> n % 128 == n
  {
  }

  /** Reading what was written gives the number back and consumes exactly what was written. */
  lemma DecodeEncoded(n: nat, rest: seq<Byte>)
    requires n < U64
    ensures Decode(Encoded(n) + rest) == Some((n, rest))
  {
    assert Shifted(n, 0) == n;
    DecodeFromEncoded(n, rest, 0, 0);
  }

  /** Reading never looks past the varint: more input behind it changes nothing. */
  lemma {:induction false} DecodeFromExtends(s: seq<Byte>, t: seq<Byte>, i: nat, val: nat)
    requires DecodeFrom(s, i, val).Some?
    ensures DecodeFrom(s + t, i, val) ==
            Some((DecodeFrom(s, i, val).value.0, DecodeFrom(s, i, val).value.1 + t))
  {
    hide Shifted;
    assert (s + t)[1..] == s[1..] + t;
    if s[0] >= 128 {
      DecodeFromExtends(s[1..], t, i + 1, val + Shifted(s[0] % 128, i) % U64);
    }
  }

  /** A decoded number fits 64 bits, whatever the input bytes were. */
  lemma {:induction false} DecodeFromFits(s: seq<Byte>, i: nat, val: nat)
    requires i < MAX_LEN && val < Weight(i)
    requires DecodeFrom(s, i, val).Some?
    ensures DecodeFrom(s, i, val).value.0 < U64
  {
    hide Shifted, Weight;
    GroupFits(s[0] % 128, i, val);
    if s[0] >= 128 {
      DecodeFromFits(s[1..], i + 1, val + Shifted(s[0] % 128, i) % U64);
    }
  }

  /** Adding a group keeps the value below the weight of the next one, and the tenth one below 2^64. */
  lemma GroupFits(g: nat, i: nat, val: nat)
    requires g < 128 && i <= 9 && val < Weight(i)
    ensures val + Shifted(g, i) % U64 < U64
    ensures i < 9 ==> val + Shifted(g, i) % U64 < Weight(i + 1)
  {
    WeightTable();
    var p := Weight(i);
    if i < 9 {
      WeightGrows(i + 1, 9);
      assert Weight(i + 1) == 128 * p && 0 <= g * p <= 127 * p;
    } else {
      LastGroup(g);
    }
  }

  /** Of the tenth group only the lowest bit survives the shift. */
  lemma LastGroup(g: nat)
    requires g < 128
    ensures (g * 0x8000_0000_0000_0000) % U64 == (g % 2) * 0x8000_0000_0000_0000
  {
    assert g * 0x8000_0000_0000_0000 == g / 2 * U64 + (g % 2) * 0x8000_0000_0000_0000;
  }

  lemma DecodeFits(s: seq<Byte>)
    requires Decode(s).Some?
    ensures Decode(s).value.0 < U64
  {
    DecodeFromFits(s, 0, 0);
  }

  // ---- what is not a varint -----------------------------------------------------------------

  /** An input is no varint if and only if it does not end one: its first ten bytes, or all of them if there are
      fewer, have the top bit set. */
  lemma {:induction false} FailsExactly(s: seq<Byte>, i: nat, val: nat)
    ensures DecodeFrom(s, i, val) == None <==> forall k :: 0 <= k < |s| && i + k < MAX_LEN ==> s[k] >= 128
    decreases |s|
  {
    if i < MAX_LEN && s != [] {
      FailsExactly(s[1..], i + 1, val + Shifted(s[0] % 128, i) % U64);
      if s[0] >= 128 {
        assert forall k :: 1 <= k < |s| ==> s[k] == s[1..][k - 1];
        if DecodeFrom(s, i, val) == None { assert forall k :: 0 <= k < |s| && i + k < MAX_LEN ==> s[k] >= 128; }
        else { var k :| 0 <= k < |s[1..]| && i + 1 + k < MAX_LEN && s[1..][k] < 128; assert s[k + 1] < 128; }
      }
    }
  }

  /** So no proper part of a varint is one. */
  lemma CutShort(n: nat, cut: nat)
    requires cut < |Encoded(n)|
    ensures Decode(Encoded(n)[..cut]) == None
  {
    IsBase128(n);
    FailsExactly(Encoded(n)[..cut], 0, 0);
  }

  // ---- what any varint says -----------------------------------------------------------------

  lemma SumOfMultiples(a: int, b: int)
    requires a % U64 == 0 && b % U64 == 0
    ensures (a + b) % U64 == 0
  {
  }

  lemma RestIsMultiple(a: int)
    ensures (a % U64 - a) % U64 == 0
  {
  }

  lemma {:induction false} GroupsDecoded(s: seq<Byte>, i: nat, val: nat)
    requires DecodeFrom(s, i, val).Some?
    ensures var (n, rest) := DecodeFrom(s, i, val).value;
      (n - val - Shifted(Base128(s[..|s| - |rest|]), i)) % U64 == 0
    decreases |s|
  {
    var (n, rest) := DecodeFrom(s, i, val).value;
    var g, low := s[0] % 128, Shifted(s[0] % 128, i);
    RestIsMultiple(low);
    if s[0] < 128 {
      assert s[..|s| - |rest|] == [s[0]] && [s[0]][1..] == [];
    } else {
      var val' := val + low % U64;
      GroupsDecoded(s[1..], i + 1, val');
      var used, more := s[..|s| - |rest|], s[1..][..|s[1..]| - |rest|];
      assert used[1..] == more && used[0] == s[0];
      var b := Base128(more);
      assert Base128(used) == g + 128 * b;
      NextGroup(g, b, i);
      SumOfMultiples(n - val' - Shifted(b, i + 1), low % U64 - low);
    }
  }

  lemma NextGroup(g: nat, b: nat, i: nat)
    ensures Shifted(g + 128 * b, i) == Shifted(g, i) + Shifted(b, i + 1)
  {
    var p := Weight(i);
    assert Weight(i + 1) == 128 * p;
    assert (g + 128 * b) * p == g * p + b * (128 * p);
  }

  /** Whatever the bytes, canonical or not: a varint that is read is the number its groups make, cut to 64 bits. */
  lemma DecodesGroups(s: seq<Byte>)
    requires Decode(s).Some?
    ensures var (n, rest) := Decode(s).value; n == Base128(s[..|s| - |rest|]) % U64
  {
    var (n, rest) := Decode(s).value;
    var b := Base128(s[..|s| - |rest|]);
    DecodeFits(s);
    GroupsDecoded(s, 0, 0);
    assert Shifted(b, 0) == b;
    CutsTo(n, b);
  }

  lemma CutsTo(n: nat, b: nat)
    requires n < U64 && (n - b) % U64 == 0
    ensures n == b % U64
  {
  }
}
