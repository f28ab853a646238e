/** Sets of codec modes as 16-bit masks, bit `n` for mode `n`. */
module ModeMask {
  import opened Bits

  type Mask = bv16

  function ModeBit(m: byte): Mask { if m < 16 then (1 as Mask) << m else 0 }

  predicate Allows(mask: Mask, m: byte) { m < 16 && mask & ModeBit(m) != 0 }

  /** `15 - leading_zeros`, which needs a bit to be set. */
  function Highest(mask: Mask): byte
    requires mask != 0
  {
    if mask & 0x8000 != 0 then 15 else if mask & 0x4000 != 0 then 14 else if mask & 0x2000 != 0 then 13
    else if mask & 0x1000 != 0 then 12 else if mask & 0x0800 != 0 then 11 else if mask & 0x0400 != 0 then 10
    else if mask & 0x0200 != 0 then 9 else if mask & 0x0100 != 0 then 8 else if mask & 0x0080 != 0 then 7
    else if mask & 0x0040 != 0 then 6 else if mask & 0x0020 != 0 then 5 else if mask & 0x0010 != 0 then 4
    else if mask & 0x0008 != 0 then 3 else if mask & 0x0004 != 0 then 2 else if mask & 0x0002 != 0 then 1
    else 0
  }

  /** The highest mode is in the set and no mode of the set is above it. */
  lemma {:induction false} HighestIsMaximum(mask: Mask, m: byte)
    requires mask != 0
    ensures Highest(mask) < 16 && Allows(mask, Highest(mask))
    ensures Allows(mask, m) ==> m <= Highest(mask)
  {}

  lemma {:induction false} AddMode(mask: Mask, n: byte, m: byte)
    ensures Allows(mask | ModeBit(n), m) <==> Allows(mask, m) || (m == n && n < 16)
  {}

  lemma {:induction false} Difference(c: Mask, k: Mask, m: byte)
    requires m < 16
    ensures (c & !k) & ModeBit(m) != 0 <==> Allows(c, m) && !Allows(k, m)
  {}

  ghost predicate Within(a: Mask, b: Mask) { forall m :: Allows(a, m) ==> Allows(b, m) }

  /** `c & !k == 0` is inclusion of the sets. */
  lemma {:induction false} InclusionTest(c: Mask, k: Mask)
    ensures c & !k == 0 <==> Within(c, k)
  {
    if c & !k != 0 {
      var m := Highest(c & !k);
      HighestIsMaximum(c & !k, m);
      Difference(c, k, m);
    } else {
      forall m: byte | Allows(c, m)
        ensures Allows(k, m)
      {
        Difference(c, k, m);
      }
    }
  }

  /** Masks that allow the same modes are the same mask. */
  lemma {:induction false} MaskDetermined(c: Mask, k: Mask)
    ensures Within(c, k) && Within(k, c) <==> c == k
  {
    InclusionTest(c, k);
    InclusionTest(k, c);
    if c & !k == 0 && k & !c == 0 { MaskEquality(c, k); }
  }

  lemma {:induction false} MaskEquality(c: Mask, k: Mask)
    requires c & !k == 0 && k & !c == 0
    ensures c == k
  {}
}
