/** The fast table-of-contents scan of `amr_forward/repack.rs`, which never touches the audio, proved to
    list the speech modes of the table the parser reads. */
module ModeScan {
  import opened Wrappers
  import opened Seqs
  import opened Bits
  import opened Amr
  import opened Repacking
  import opened Repacker

  // ----- six bits out of two octets -------------------------------------

  /** `((hi << 8) | lo) >> (10 - r)`, masked to six bits. `4 + 6 * k` is even, so `r` is. */
  function SixBits(hi: byte, lo: byte, r: nat): bv16
    requires r < 8 && r % 2 == 0
  {
    var w := ((hi as bv16) << 8) | (lo as bv16);
    (if r == 0 then w >> 10 else if r == 2 then w >> 8 else if r == 4 then w >> 6 else w >> 4) & 0x3f
  }

  predicate BitOfTwo(hi: byte, lo: byte, i: nat)
    requires i < 16
  {
    if i < 8 then Bit(hi, i) else Bit(lo, i - 8)
  }

  lemma {:induction false} SixBitsAt0(hi: byte, lo: byte)
    ensures (SixBits(hi, lo, 0) & 0x20 != 0) == (hi & 0x80 != 0)
    ensures ((SixBits(hi, lo, 0) >> 1) & 0x0f) as byte
            == Octet(false, false, false, false, hi & 0x40 != 0, hi & 0x20 != 0, hi & 0x10 != 0, hi & 0x08 != 0)
  {}

  lemma {:induction false} SixBitsAt2(hi: byte, lo: byte)
    ensures (SixBits(hi, lo, 2) & 0x20 != 0) == (hi & 0x20 != 0)
    ensures ((SixBits(hi, lo, 2) >> 1) & 0x0f) as byte
            == Octet(false, false, false, false, hi & 0x10 != 0, hi & 0x08 != 0, hi & 0x04 != 0, hi & 0x02 != 0)
  {}

  lemma {:induction false} SixBitsAt4(hi: byte, lo: byte)
    ensures (SixBits(hi, lo, 4) & 0x20 != 0) == (hi & 0x08 != 0)
    ensures ((SixBits(hi, lo, 4) >> 1) & 0x0f) as byte
            == Octet(false, false, false, false, hi & 0x04 != 0, hi & 0x02 != 0, hi & 0x01 != 0, lo & 0x80 != 0)
  {}

  lemma {:induction false} SixBitsAt6(hi: byte, lo: byte)
    ensures (SixBits(hi, lo, 6) & 0x20 != 0) == (hi & 0x02 != 0)
    ensures ((SixBits(hi, lo, 6) >> 1) & 0x0f) as byte
            == Octet(false, false, false, false, hi & 0x01 != 0, lo & 0x80 != 0, lo & 0x40 != 0, lo & 0x20 != 0)
  {}

  /** F and the frame type of six bits F, FT, Q. */
  function EntryOf(six: bv16): (bool, byte) { (six & 0x20 != 0, ((six >> 1) & 0x0f) as byte) }

  lemma {:induction false} FourBits(b: seq<bool>)
    requires |b| == 4
    ensures Value(b) == Octet(false, false, false, false, b[0], b[1], b[2], b[3])
  {
    var o := Octet(false, false, false, false, b[0], b[1], b[2], b[3]);
    OctetMasks(false, false, false, false, b[0], b[1], b[2], b[3]);
    forall j: nat | j < 8
      ensures Bit(Value(b), j) == Bit(o, j)
    {
      ValueBits(b, j);
    }
    BitsDetermineOctet(Value(b), o);
  }

  lemma {:induction false} TwoOctetBit(hi: byte, lo: byte, i: nat)
    requires i < 16
    ensures BitsOf([hi, lo])[i] == BitOfTwo(hi, lo, i)
  {
    if i < 8 {
      assert i / 8 == 0 && i % 8 == i;
    } else {
      assert i / 8 == 1 && i % 8 == i - 8;
    }
  }

  lemma {:induction false} OctetOffset(a: nat, p: nat)
    ensures (8 * a + p) / 8 == a + p / 8 && (8 * a + p) % 8 == p % 8
  {}

  lemma {:induction false} BitOfSlice(s: seq<byte>, a: nat, b: nat, p: nat)
    requires a <= b <= |s| && p < 8 * (b - a)
    ensures BitsOf(s[a..b])[p] == BitsOf(s)[8 * a + p]
  {
    OctetOffset(a, p);
    assert s[a..b][p / 8] == s[a + p / 8];
  }

  lemma {:induction false} BitsOfSlice(s: seq<byte>, a: nat, b: nat)
    requires a <= b <= |s|
    ensures BitsOf(s[a..b]) == BitsOf(s)[8 * a..8 * b]
  {
    var one, two := BitsOf(s[a..b]), BitsOf(s)[8 * a..8 * b];
    forall p | 0 <= p < |one|
      ensures one[p] == two[p]
    {
      BitOfSlice(s, a, b, p);
    }
  }

  lemma {:induction false} WindowInside(bits: seq<bool>, two: seq<bool>, q: nat, r: nat, n: nat)
    requires q + n <= |bits| && n <= |two| && bits[q..q + n] == two[..n] && r + 6 <= n
    ensures bits[q + r..q + r + 6] == two[r..r + 6]
  {
    SliceSlice(bits, q, q + n, r, r + 6);
    SliceSlice(two, 0, n, r, r + 6);
  }

  function SixAt(payload: seq<byte>, bit: nat): (r: seq<bool>)
    requires bit + 6 <= 8 * |payload|
    ensures |r| == 6
  {
    BitsOf(payload)[bit..bit + 6]
  }

  /** F and FT of six bits F, FT, Q. */
  function FieldsOf(six: seq<bool>): (bool, byte)
    requires |six| == 6
  {
    (six[0], Value(six[1..5]))
  }

  /** The six bits at any even offset lie in the octet there and the one after it. */
  lemma {:induction false} SixBitWindow(payload: seq<byte>, bit: nat, hi: byte, lo: byte)
    requires bit % 2 == 0 && bit + 6 <= 8 * |payload| && hi == payload[bit / 8]
    requires bit / 8 + 1 < |payload| ==> lo == payload[bit / 8 + 1]
    ensures SixAt(payload, bit) == SixAt([hi, lo], bit % 8)
  {
    var q, r := bit / 8, bit % 8;
    assert bit == 8 * q + r;
    if q + 1 < |payload| {
      assert payload[q..q + 2] == [hi, lo][0..2];
      WindowOf(payload, q, [hi, lo], r, 2);
    } else {
      assert payload[q..q + 1] == [hi, lo][0..1];
      WindowOf(payload, q, [hi, lo], r, 1);
    }
  }

  lemma {:induction false} WindowOf(s: seq<byte>, q: nat, t: seq<byte>, r: nat, n: nat)
    requires q + n <= |s| && n <= |t| && s[q..q + n] == t[0..n] && r + 6 <= 8 * n
    ensures SixAt(s, 8 * q + r) == SixAt(t, r)
  {
    OctetsBits(s, q, t, n);
    WindowInside(BitsOf(s), BitsOf(t), 8 * q, r, 8 * n);
  }

  lemma {:induction false} OctetsBits(s: seq<byte>, q: nat, t: seq<byte>, n: nat)
    requires q + n <= |s| && n <= |t| && s[q..q + n] == t[0..n]
    ensures BitsOf(s)[8 * q..8 * q + 8 * n] == BitsOf(t)[..8 * n]
  {
    BitsOfSlice(s, q, q + n);
    BitsOfSlice(t, 0, n);
  }

  lemma {:induction false} WindowAt0(hi: byte, lo: byte)
    ensures var b := SixAt([hi, lo], 0);
            && b[0] == (hi & 0x80 != 0) && b[1] == (hi & 0x40 != 0) && b[2] == (hi & 0x20 != 0)
            && b[3] == (hi & 0x10 != 0) && b[4] == (hi & 0x08 != 0)
  {
    TwoOctetBit(hi, lo, 0); TwoOctetBit(hi, lo, 1); TwoOctetBit(hi, lo, 2);
    TwoOctetBit(hi, lo, 3); TwoOctetBit(hi, lo, 4);
  }

  lemma {:induction false} WindowAt2(hi: byte, lo: byte)
    ensures var b := SixAt([hi, lo], 2);
            && b[0] == (hi & 0x20 != 0) && b[1] == (hi & 0x10 != 0) && b[2] == (hi & 0x08 != 0)
            && b[3] == (hi & 0x04 != 0) && b[4] == (hi & 0x02 != 0)
  {
    TwoOctetBit(hi, lo, 2); TwoOctetBit(hi, lo, 3); TwoOctetBit(hi, lo, 4);
    TwoOctetBit(hi, lo, 5); TwoOctetBit(hi, lo, 6);
  }

  lemma {:induction false} WindowAt4(hi: byte, lo: byte)
    ensures var b := SixAt([hi, lo], 4);
            && b[0] == (hi & 0x08 != 0) && b[1] == (hi & 0x04 != 0) && b[2] == (hi & 0x02 != 0)
            && b[3] == (hi & 0x01 != 0) && b[4] == (lo & 0x80 != 0)
  {
    TwoOctetBit(hi, lo, 4); TwoOctetBit(hi, lo, 5); TwoOctetBit(hi, lo, 6);
    TwoOctetBit(hi, lo, 7); TwoOctetBit(hi, lo, 8);
  }

  lemma {:induction false} WindowAt6(hi: byte, lo: byte)
    ensures var b := SixAt([hi, lo], 6);
            && b[0] == (hi & 0x02 != 0) && b[1] == (hi & 0x01 != 0) && b[2] == (lo & 0x80 != 0)
            && b[3] == (lo & 0x40 != 0) && b[4] == (lo & 0x20 != 0)
  {
    TwoOctetBit(hi, lo, 6); TwoOctetBit(hi, lo, 7); TwoOctetBit(hi, lo, 8);
    TwoOctetBit(hi, lo, 9); TwoOctetBit(hi, lo, 10);
  }

  lemma {:induction false} FieldsOfFour(b: seq<bool>, f: bool, x: bool, y: bool, z: bool, w: bool)
    requires |b| == 6 && b[0] == f && b[1] == x && b[2] == y && b[3] == z && b[4] == w
    ensures FieldsOf(b) == (f, Octet(false, false, false, false, x, y, z, w))
  {
    FourBits(b[1..5]);
  }

  lemma {:induction false} SixBitsRead0(hi: byte, lo: byte)
    ensures EntryOf(SixBits(hi, lo, 0)) == FieldsOf(SixAt([hi, lo], 0))
  {
    WindowAt0(hi, lo);
    SixBitsAt0(hi, lo);
    FieldsOfFour(SixAt([hi, lo], 0), hi & 0x80 != 0, hi & 0x40 != 0, hi & 0x20 != 0, hi & 0x10 != 0, hi & 0x08 != 0);
  }

  lemma {:induction false} SixBitsRead2(hi: byte, lo: byte)
    ensures EntryOf(SixBits(hi, lo, 2)) == FieldsOf(SixAt([hi, lo], 2))
  {
    WindowAt2(hi, lo);
    SixBitsAt2(hi, lo);
    FieldsOfFour(SixAt([hi, lo], 2), hi & 0x20 != 0, hi & 0x10 != 0, hi & 0x08 != 0, hi & 0x04 != 0, hi & 0x02 != 0);
  }

  lemma {:induction false} SixBitsRead4(hi: byte, lo: byte)
    ensures EntryOf(SixBits(hi, lo, 4)) == FieldsOf(SixAt([hi, lo], 4))
  {
    WindowAt4(hi, lo);
    SixBitsAt4(hi, lo);
    FieldsOfFour(SixAt([hi, lo], 4), hi & 0x08 != 0, hi & 0x04 != 0, hi & 0x02 != 0, hi & 0x01 != 0, lo & 0x80 != 0);
  }

  lemma {:induction false} SixBitsRead6(hi: byte, lo: byte)
    ensures EntryOf(SixBits(hi, lo, 6)) == FieldsOf(SixAt([hi, lo], 6))
  {
    WindowAt6(hi, lo);
    SixBitsAt6(hi, lo);
    FieldsOfFour(SixAt([hi, lo], 6), hi & 0x02 != 0, hi & 0x01 != 0, lo & 0x80 != 0, lo & 0x40 != 0, lo & 0x20 != 0);
  }

  /** The shift and the masks of the scan read F and FT out of two octets. */
  lemma {:induction false} SixBitsRead(hi: byte, lo: byte, r: nat)
    requires r == 0 || r == 2 || r == 4 || r == 6
    ensures EntryOf(SixBits(hi, lo, r)) == FieldsOf(SixAt([hi, lo], r))
  {
    if r == 0 {
      SixBitsRead0(hi, lo);
    } else if r == 2 {
      SixBitsRead2(hi, lo);
    } else if r == 4 {
      SixBitsRead4(hi, lo);
    } else {
      SixBitsRead6(hi, lo);
    }
  }

  method ReadWindow(hi: byte, lo: byte, r: nat) returns (entry: (bool, byte))
    requires r < 8 && r % 2 == 0
    ensures entry == FieldsOf(SixAt([hi, lo], r))
  {
    SixBitsRead(hi, lo, r);
    entry := EntryOf(SixBits(hi, lo, r));
  }

  // ----- the scan -------------------------------------------------------

  ghost function ModesInOctets(s: seq<byte>, speech: Sizes): Option<seq<byte>> {
    match ParseTocOctets(s)
    case None => None
    case Some((toc, _)) => Some(SpeechTypes(toc, speech))
  }

  ghost function ModesInBits(s: seq<bool>, speech: Sizes): Option<seq<byte>> {
    match ParseTocBits(s)
    case None => None
    case Some((toc, _)) => Some(SpeechTypes(toc, speech))
  }

  /** The modes listed from entry `k` of the table of contents on. */
  ghost function ModesFrom(payload: seq<byte>, speech: Sizes, octetAligned: bool, k: nat): Option<seq<byte>> {
    if octetAligned then if 1 + k > |payload| then None else ModesInOctets(payload[1 + k..], speech)
    else if 4 + 6 * k > 8 * |payload| then None else ModesInBits(BitsOf(payload)[4 + 6 * k..], speech)
  }

  ghost function OneMode(frameType: byte, speech: Sizes): seq<byte> {
    if Known(speech, frameType) then [frameType] else []
  }

  lemma {:induction false} SpeechTypesCons(e: TocEntry, toc: seq<TocEntry>, speech: Sizes)
    ensures SpeechTypes([e] + toc, speech) == OneMode(e.frameType, speech) + SpeechTypes(toc, speech)
    ensures SpeechTypes([e], speech) == OneMode(e.frameType, speech)
  {
    assert ([e] + toc)[1..] == toc;
  }

  lemma {:induction false} ModesStepOctets(s: seq<byte>, speech: Sizes)
    requires s != []
    ensures ModesInOctets(s, speech)
            == Listed((s[0] & 0x80 != 0, (s[0] >> 3) & 0x0f), speech, ModesInOctets(s[1..], speech))
  {
    var toc := match ParseTocOctets(s[1..]) case Some((toc, _)) => toc case None => [];
    SpeechTypesCons(OctetEntry(s[0]), toc, speech);
  }

  lemma {:induction false} ModesStepBits(bits: seq<bool>, bit: nat, speech: Sizes)
    requires bit + 6 <= |bits|
    ensures ModesInBits(bits[bit..], speech)
            == Listed((bits[bit], Value(bits[bit + 1..bit + 5])), speech, ModesInBits(bits[bit + 6..], speech))
  {
    var s := bits[bit..];
    assert s[1..5] == bits[bit + 1..bit + 5] && s[6..] == bits[bit + 6..];
    var toc := match ParseTocBits(s[6..]) case Some((toc, _)) => toc case None => [];
    SpeechTypesCons(TocEntry(Value(s[1..5]), Value(s[5..6])), toc, speech);
  }

  /** Entry `k` of the table of contents: whether another follows, and its frame type. */
  method EntryAt(payload: seq<byte>, ghost speech: Sizes, octetAligned: bool, k: nat)
    returns (e: Option<(bool, byte)>)
    ensures e == None ==> ModesFrom(payload, speech, octetAligned, k) == None
    ensures e.Some? ==>
              && 6 * k < 8 * |payload|
              && ModesFrom(payload, speech, octetAligned, k)
                 == Listed(e.value, speech, ModesFrom(payload, speech, octetAligned, k + 1))
  {
    if octetAligned {
      e := EntryOctetAt(payload, speech, k);
    } else {
      e := EntryWindowAt(payload, speech, k);
    }
  }

  method EntryOctetAt(payload: seq<byte>, ghost speech: Sizes, k: nat) returns (e: Option<(bool, byte)>)
    ensures e == None ==> ModesFrom(payload, speech, true, k) == None
    ensures e.Some? ==>
              && k < |payload|
              && ModesFrom(payload, speech, true, k) == Listed(e.value, speech, ModesFrom(payload, speech, true, k + 1))
  {
    if 1 + k >= |payload| {
      ModesEndOctets(payload, speech, k);
      return None;
    }
    var entry := payload[1 + k];
    ModesFromOctets(payload, speech, k);
    e := Some((entry & 0x80 != 0, (entry >> 3) & 0x0f));
  }

  method EntryWindowAt(payload: seq<byte>, ghost speech: Sizes, k: nat) returns (e: Option<(bool, byte)>)
    ensures e == None ==> ModesFrom(payload, speech, false, k) == None
    ensures e.Some? ==>
              && 6 * k < 8 * |payload|
              && ModesFrom(payload, speech, false, k)
                 == Listed(e.value, speech, ModesFrom(payload, speech, false, k + 1))
  {
    if 4 + 6 * k + 6 > |payload| * 8 {
      ModesEndBits(payload, speech, k);
      return None;
    }
    var entry := WholeEntryAt(payload, speech, k);
    e := Some(entry);
  }

  method WholeEntryAt(payload: seq<byte>, ghost speech: Sizes, k: nat) returns (entry: (bool, byte))
    requires 4 + 6 * k + 6 <= |payload| * 8
    ensures ModesFrom(payload, speech, false, k) == Listed(entry, speech, ModesFrom(payload, speech, false, k + 1))
  {
    entry := EntryBitsAt(payload, 4 + 6 * k);
    ModesFromSix(payload, speech, k);
  }

  lemma {:induction false} ModesEndOctets(payload: seq<byte>, speech: Sizes, k: nat)
    requires 1 + k >= |payload|
    ensures ModesFrom(payload, speech, true, k) == None
  {}

  lemma {:induction false} ModesEndBits(payload: seq<byte>, speech: Sizes, k: nat)
    requires 4 + 6 * k + 6 > 8 * |payload|
    ensures ModesFrom(payload, speech, false, k) == None
  {}

  lemma {:induction false} ModesFromOctets(payload: seq<byte>, speech: Sizes, k: nat)
    requires 1 + k < |payload|
    ensures var entry := payload[1 + k];
            ModesFrom(payload, speech, true, k)
            == Listed((entry & 0x80 != 0, (entry >> 3) & 0x0f), speech, ModesFrom(payload, speech, true, k + 1))
  {
    ModesStepOctets(payload[1 + k..], speech);
    assert payload[1 + k..][1..] == payload[2 + k..];
  }

  lemma {:induction false} ModesFromBits(payload: seq<byte>, speech: Sizes, k: nat)
    requires 4 + 6 * k + 6 <= 8 * |payload|
    ensures var bits, bit := BitsOf(payload), 4 + 6 * k;
            ModesFrom(payload, speech, false, k)
            == Listed((bits[bit], Value(bits[bit + 1..bit + 5])), speech, ModesFrom(payload, speech, false, k + 1))
  {
    ModesFromIs(payload, speech, k);
    ModesFromIs(payload, speech, k + 1);
    ModesStepBits(BitsOf(payload), 4 + 6 * k, speech);
  }

  lemma {:induction false} ModesFromSix(payload: seq<byte>, speech: Sizes, k: nat)
    requires 4 + 6 * k + 6 <= 8 * |payload|
    ensures ModesFrom(payload, speech, false, k)
            == Listed(FieldsOf(SixAt(payload, 4 + 6 * k)), speech, ModesFrom(payload, speech, false, k + 1))
  {
    ModesFromBits(payload, speech, k);
    FieldsAt(BitsOf(payload), 4 + 6 * k);
  }

  lemma {:induction false} FieldsAt(bits: seq<bool>, bit: nat)
    requires bit + 6 <= |bits|
    ensures FieldsOf(bits[bit..bit + 6]) == (bits[bit], Value(bits[bit + 1..bit + 5]))
  {
    SliceSlice(bits, bit, bit + 6, 1, 5);
  }

  lemma {:induction false} ModesFromIs(payload: seq<byte>, speech: Sizes, k: nat)
    requires 4 + 6 * k <= 8 * |payload|
    ensures ModesFrom(payload, speech, false, k) == ModesInBits(BitsOf(payload)[4 + 6 * k..], speech)
  {}

  /** What an entry adds to the modes listed after it. */
  ghost function Listed(entry: (bool, byte), speech: Sizes, rest: Option<seq<byte>>): Option<seq<byte>> {
    if entry.0 then After(OneMode(entry.1, speech), rest) else Some(OneMode(entry.1, speech))
  }

  method EntryBitsAt(payload: seq<byte>, bit: nat) returns (entry: (bool, byte))
    requires bit % 2 == 0 && bit + 6 <= |payload| * 8
    ensures entry == FieldsOf(SixAt(payload, bit))
  {
    var hi := payload[bit / 8];
    var lo := if bit / 8 + 1 < |payload| then payload[bit / 8 + 1] else 0;
    SixBitWindow(payload, bit, hi, lo);
    entry := ReadWindow(hi, lo, bit % 8);
  }

  lemma {:induction false} SpeechMax(kind: AmrKind, frameType: byte)
    ensures Known(SpeechSizes(kind), frameType) <==> frameType <= (if kind == Nb then 7 else 8)
  {}

  /** The scan loop, for a table whose speech types are those up to `speechMax`. */
  method ScanModes(payload: seq<byte>, ghost speech: Sizes, speechMax: byte, octetAligned: bool)
    returns (r: Option<seq<byte>>)
    requires forall ft: byte :: Known(speech, ft) <==> ft <= speechMax
    ensures r == ModesFrom(payload, speech, octetAligned, 0)
  {
    var modes: seq<byte> := [];
    var k := 0;
    ghost var all := ModesFrom(payload, speech, octetAligned, 0);
    AfterNil(all);
    while true
      invariant After(modes, ModesFrom(payload, speech, octetAligned, k)) == all
      decreases 8 * |payload| - 6 * k
    {
      var e := EntryAt(payload, speech, octetAligned, k);
      if e == None {
        return None;
      }
      var (follow, frameType) := e.value;
      AfterAfter(modes, OneMode(frameType, speech), ModesFrom(payload, speech, octetAligned, k + 1));
      modes := modes + (if frameType <= speechMax then [frameType] else []);
      if !follow {
        return Some(modes);
      }
      k := k + 1;
    }
  }

  /** The speech modes named by the table of contents, read without touching the audio. */
  method SpeechModes(payload: seq<byte>, kind: AmrKind, octetAligned: bool) returns (r: Option<seq<byte>>)
    ensures r == ListedModes(payload, kind, octetAligned)
  {
    forall ft: byte
      ensures Known(SpeechSizes(kind), ft) <==> ft <= (if kind == Nb then 7 else 8)
    {
      SpeechMax(kind, ft);
    }
    r := ScanModes(payload, SpeechSizes(kind), if kind == Nb then 7 else 8, octetAligned);
  }
}
