/** Octets, the bits they hold, and the bit strings both AMR packings are made of.
    A bit string is written most significant bit first, as in section 4.3 of RFC 4867. */
module Bits {

  type byte = bv8

  /** The octet with only bit `i` set, where bit 0 is the most significant one. */
  function Mask(i: nat): byte
    requires i < 8
  {
    if i == 0 then 0x80 else if i == 1 then 0x40 else if i == 2 then 0x20 else if i == 3 then 0x10
    else if i == 4 then 0x08 else if i == 5 then 0x04 else if i == 6 then 0x02 else 0x01
  }

  predicate Bit(b: byte, i: nat)
    requires i < 8
  {
    b & Mask(i) != 0
  }

  /** `b |= v << (7 - i)`. */
  function OrBit(b: byte, i: nat, v: bool): byte
    requires i < 8
  {
    if v then b | Mask(i) else b
  }

  function Ceil8(n: nat): nat { (n + 7) / 8 }

  function BitsOf(bytes: seq<byte>): (r: seq<bool>)
    ensures |r| == 8 * |bytes|
  {
    seq(8 * |bytes|, p requires 0 <= p < 8 * |bytes| => Bit(bytes[p / 8], p % 8))
  }

  predicate PaddedBit(bits: seq<bool>, p: nat) { p < |bits| && bits[p] }

  function Octet(b0: bool, b1: bool, b2: bool, b3: bool, b4: bool, b5: bool, b6: bool, b7: bool): byte {
    (if b0 then 0x80 else 0) | (if b1 then 0x40 else 0) | (if b2 then 0x20 else 0) | (if b3 then 0x10 else 0)
    | (if b4 then 0x08 else 0) | (if b5 then 0x04 else 0) | (if b6 then 0x02 else 0) | (if b7 then 0x01 else 0)
  }

  /** Octet `k` of a bit string that is zero-padded to an octet boundary. */
  function OctetAt(bits: seq<bool>, k: nat): byte {
    Octet(PaddedBit(bits, 8 * k), PaddedBit(bits, 8 * k + 1), PaddedBit(bits, 8 * k + 2),
          PaddedBit(bits, 8 * k + 3), PaddedBit(bits, 8 * k + 4), PaddedBit(bits, 8 * k + 5),
          PaddedBit(bits, 8 * k + 6), PaddedBit(bits, 8 * k + 7))
  }

  /** A bit string, zero-filled up to `n` bits, as octets. */
  function PackInto(bits: seq<bool>, n: nat): (r: seq<byte>)
    ensures |r| == Ceil8(n)
  {
    seq(Ceil8(n), k requires 0 <= k < Ceil8(n) => OctetAt(bits, k))
  }

  /** A bit string as octets, the last one zero-padded. */
  function Pack(bits: seq<bool>): (r: seq<byte>)
    ensures |r| == Ceil8(|bits|)
  {
    PackInto(bits, |bits|)
  }

  /** The value of a bit string read into an octet: `out = (out << 1) | bit`. */
  function Value(bits: seq<bool>): byte {
    if bits == [] then 0
    else (Value(bits[..|bits| - 1]) << 1) | (if bits[|bits| - 1] then 1 else 0)
  }

  /** The low `n` bits of `v`, most significant first. */
  function Field(v: byte, n: nat): (r: seq<bool>)
    requires n <= 8
    ensures |r| == n
  {
    seq(n, i requires 0 <= i < n => Bit(v, 8 - n + i))
  }

  // ----- single octets --------------------------------------------------

  lemma {:induction false} OctetMasks(b0: bool, b1: bool, b2: bool, b3: bool, b4: bool, b5: bool, b6: bool, b7: bool)
    ensures var o := Octet(b0, b1, b2, b3, b4, b5, b6, b7);
            && (o & 0x80 != 0) == b0 && (o & 0x40 != 0) == b1 && (o & 0x20 != 0) == b2 && (o & 0x10 != 0) == b3
            && (o & 0x08 != 0) == b4 && (o & 0x04 != 0) == b5 && (o & 0x02 != 0) == b6 && (o & 0x01 != 0) == b7
  {}

  lemma {:induction false} OctetBit(bits: seq<bool>, k: nat, i: nat)
    requires i < 8
    ensures Bit(OctetAt(bits, k), i) == PaddedBit(bits, 8 * k + i)
  {
    OctetMasks(PaddedBit(bits, 8 * k), PaddedBit(bits, 8 * k + 1), PaddedBit(bits, 8 * k + 2),
               PaddedBit(bits, 8 * k + 3), PaddedBit(bits, 8 * k + 4), PaddedBit(bits, 8 * k + 5),
               PaddedBit(bits, 8 * k + 6), PaddedBit(bits, 8 * k + 7));
  }

  lemma {:induction false} MasksDetermineOctet(a: byte, b: byte)
    requires a & 0x80 == b & 0x80 && a & 0x40 == b & 0x40 && a & 0x20 == b & 0x20 && a & 0x10 == b & 0x10
    requires a & 0x08 == b & 0x08 && a & 0x04 == b & 0x04 && a & 0x02 == b & 0x02 && a & 0x01 == b & 0x01
    ensures a == b
  {}

  lemma {:induction false} SameBit(a: byte, b: byte, i: nat)
    requires i < 8 && Bit(a, i) == Bit(b, i)
    ensures a & Mask(i) == b & Mask(i)
  {}

  lemma {:induction false} BitsDetermineOctet(a: byte, b: byte)
    requires forall i: nat | i < 8 :: Bit(a, i) == Bit(b, i)
    ensures a == b
  {
    SameBit(a, b, 0); SameBit(a, b, 1); SameBit(a, b, 2); SameBit(a, b, 3);
    SameBit(a, b, 4); SameBit(a, b, 5); SameBit(a, b, 6); SameBit(a, b, 7);
    MasksDetermineOctet(a, b);
  }

  lemma {:induction false} OrBitBits(b: byte, i: nat, v: bool, j: nat)
    requires i < 8 && j < 8
    ensures Bit(OrBit(b, i, v), j) == (Bit(b, j) || (i == j && v))
  {
    MaskDisjoint(i, j);
    OrMask(b, Mask(i), Mask(j));
  }

  lemma {:induction false} MaskDisjoint(i: nat, j: nat)
    requires i < 8 && j < 8
    ensures if i == j then Mask(i) & Mask(j) != 0 else Mask(i) & Mask(j) == 0
  {}

  lemma {:induction false} OrMask(b: byte, m: byte, k: byte)
    ensures (b | m) & k != 0 <==> b & k != 0 || m & k != 0
  {
    assert (b | m) & k == (b & k) | (m & k);
  }

  lemma {:induction false} ShiftBits(b: byte, v: bool, j: nat)
    requires j < 8
    ensures Bit((b << 1) | (if v then 1 else 0), j) == if j == 7 then v else Bit(b, j + 1)
  {
    if j == 0 {} else if j == 1 {} else if j == 2 {} else if j == 3 {}
    else if j == 4 {} else if j == 5 {} else if j == 6 {} else {}
  }

  // ----- octet strings --------------------------------------------------

  lemma {:induction false} OctetsOfBits(a: seq<byte>, b: seq<byte>)
    requires |a| == |b| && BitsOf(a) == BitsOf(b)
    ensures a == b
  {
    forall k | 0 <= k < |a|
      ensures a[k] == b[k]
    {
      forall i: nat | i < 8
        ensures Bit(a[k], i) == Bit(b[k], i)
      {
        assert BitsOf(a)[8 * k + i] == BitsOf(b)[8 * k + i];
      }
      BitsDetermineOctet(a[k], b[k]);
    }
  }

  /** Packing keeps every bit and adds only zero padding. */
  lemma {:induction false} PackedBit(bits: seq<bool>, p: nat)
    requires p < 8 * |Pack(bits)|
    ensures BitsOf(Pack(bits))[p] == PaddedBit(bits, p)
  {
    OctetBit(bits, p / 8, p % 8);
  }

  lemma {:induction false} BitsOfPack(bits: seq<bool>)
    ensures |bits| <= |BitsOf(Pack(bits))| < |bits| + 8
    ensures BitsOf(Pack(bits))[..|bits|] == bits
    ensures forall p | |bits| <= p < |BitsOf(Pack(bits))| :: !BitsOf(Pack(bits))[p]
  {
    forall p: nat | p < 8 * |Pack(bits)|
      ensures BitsOf(Pack(bits))[p] == PaddedBit(bits, p)
    {
      PackedBit(bits, p);
    }
  }

  /** `bytes` is the packing of its first `n` bits as soon as the bits after them are zero. */
  lemma {:induction false} PackOfPrefix(bytes: seq<byte>, n: nat)
    requires |bytes| == Ceil8(n)
    requires forall p | n <= p < 8 * |bytes| :: !BitsOf(bytes)[p]
    ensures Pack(BitsOf(bytes)[..n]) == bytes
  {
    var bits := BitsOf(bytes)[..n];
    forall p | 0 <= p < 8 * |bytes|
      ensures BitsOf(Pack(bits))[p] == BitsOf(bytes)[p]
    {
      PackedBit(bits, p);
    }
    assert BitsOf(Pack(bits)) == BitsOf(bytes);
    OctetsOfBits(Pack(bits), bytes);
  }

  /** Setting the next bit of zero-filled octets is appending it to the bit string. */
  lemma {:induction false} PackSnoc(bits: seq<bool>, n: nat, v: bool)
    requires |bits| < n
    ensures var was := PackInto(bits, n);
            PackInto(bits + [v], n) == was[|bits| / 8 := OrBit(was[|bits| / 8], |bits| % 8, v)]
  {
    var idx := |bits| / 8;
    var was := PackInto(bits, n);
    var next := was[idx := OrBit(was[idx], |bits| % 8, v)];
    forall k | 0 <= k < Ceil8(n)
      ensures next[k] == OctetAt(bits + [v], k)
    {
      forall i: nat | i < 8
        ensures Bit(next[k], i) == Bit(OctetAt(bits + [v], k), i)
      {
        OctetBit(bits + [v], k, i);
        OctetBit(bits, k, i);
        if k == idx { OrBitBits(was[idx], |bits| % 8, v, i); }
      }
      BitsDetermineOctet(next[k], OctetAt(bits + [v], k));
    }
  }

  lemma {:induction false} PackNothing(n: nat)
    ensures PackInto([], n) == seq(Ceil8(n), _ => 0)
  {}

  /** Room for one more bit costs a zero octet exactly at an octet boundary. */
  lemma {:induction false} PackGrow(bits: seq<bool>)
    ensures PackInto(bits, |bits| + 1) == if |bits| % 8 == 0 then Pack(bits) + [0] else Pack(bits)
  {}

  // ----- fields ---------------------------------------------------------

  lemma {:induction false} ValueBits(bits: seq<bool>, j: nat)
    requires |bits| <= 8 && j < 8
    ensures Bit(Value(bits), j) == (8 - |bits| <= j && bits[j - (8 - |bits|)])
  {
    if bits != [] {
      var init, v := bits[..|bits| - 1], bits[|bits| - 1];
      ShiftBits(Value(init), v, j);
      if j < 7 { ValueBits(init, j + 1); }
    }
  }

  /** A field that is read and written again is the same bits. */
  lemma {:induction false} FieldOfValue(bits: seq<bool>)
    requires |bits| <= 8
    ensures Field(Value(bits), |bits|) == bits
  {
    forall i | 0 <= i < |bits|
      ensures Field(Value(bits), |bits|)[i] == bits[i]
    {
      ValueBits(bits, 8 - |bits| + i);
    }
  }

  /** A value whose bits above the field are zero survives being written and read. */
  lemma {:induction false} ValueOfField(v: byte, n: nat)
    requires n <= 8
    requires forall j: nat | j < 8 - n :: !Bit(v, j)
    ensures Value(Field(v, n)) == v
  {
    forall j: nat | j < 8
      ensures Bit(Value(Field(v, n)), j) == Bit(v, j)
    {
      ValueBits(Field(v, n), j);
    }
    BitsDetermineOctet(Value(Field(v, n)), v);
  }

  lemma {:induction false} ValueSnoc(bits: seq<bool>, v: bool)
    ensures Value(bits + [v]) == (Value(bits) << 1) | (if v then 1 else 0)
  {
    assert (bits + [v])[..|bits|] == bits;
  }

  lemma {:induction false} FieldAppend(v: byte, n: nat)
    requires n < 8
    ensures Field(v, n + 1) == [Bit(v, 7 - n)] + Field(v, n)
  {}

  lemma {:induction false} Nibble(v: byte)
    requires v < 16
    ensures Value(Field(v, 4)) == v
  {
    ValueOfField(v, 4);
  }
}
