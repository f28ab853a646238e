/** What parsing, building and repacking promise, for every payload and every packet. */
module RepackLaws {
  import opened Wrappers
  import opened Seqs
  import opened Bits
  import opened Amr

  predicate ValidEntry(e: TocEntry) { e.frameType < 16 && e.quality < 2 }

  /** A frame as the parser produces it: a known type, exactly its octets, zero padding. */
  predicate CanonicalFrame(f: Frame, sizes: Sizes) {
    && ValidEntry(TocEntry(f.frameType, f.quality))
    && Known(sizes, f.frameType)
    && |f.bits| == Ceil8(SizeOf(sizes, f.frameType))
    && ZeroFrom(f.bits, SizeOf(sizes, f.frameType))
  }

  predicate ZeroFrom(bytes: seq<byte>, n: nat) {
    forall p | n <= p < 8 * |bytes| :: !BitsOf(bytes)[p]
  }

  predicate WellFormed(p: Packet, sizes: Sizes) {
    p.frames != [] && p.cmr < 16 && forall f | f in p.frames :: CanonicalFrame(f, sizes)
  }

  /** Total size of the frames, in bits and in octets. */
  function FrameBitSum(toc: seq<TocEntry>, sizes: Sizes): nat {
    if toc == [] then 0
    else (if Known(sizes, toc[0].frameType) then SizeOf(sizes, toc[0].frameType) else 0) + FrameBitSum(toc[1..], sizes)
  }

  function FrameOctetSum(toc: seq<TocEntry>, sizes: Sizes): nat {
    if toc == [] then 0
    else (if Known(sizes, toc[0].frameType) then Ceil8(SizeOf(sizes, toc[0].frameType)) else 0)
         + FrameOctetSum(toc[1..], sizes)
  }

  lemma {:induction false} TocCons(f: Frame, frames: seq<Frame>)
    ensures Toc([f] + frames) == [TocEntry(f.frameType, f.quality)] + Toc(frames)
  {}

  // ----- bandwidth-efficient table of contents --------------------------

  lemma {:induction false} EntryBitsRead(e: TocEntry, follow: bool, s: seq<bool>)
    requires ValidEntry(e)
    ensures var t := EntryBits(e, follow) + s;
            t[0] == follow && Value(t[1..5]) == e.frameType && Value(t[5..6]) == e.quality && t[6..] == s
  {
    var t := EntryBits(e, follow) + s;
    assert t[1..5] == Field(e.frameType, 4);
    assert t[5..6] == Field(e.quality, 1);
    ValueOfField(e.frameType, 4);
    ValueOfField(e.quality, 1);
  }

  lemma {:induction false} ReadEntryBits(s: seq<bool>)
    requires |s| >= 6
    ensures ValidEntry(TocEntry(Value(s[1..5]), Value(s[5..6])))
    ensures s == EntryBits(TocEntry(Value(s[1..5]), Value(s[5..6])), s[0]) + s[6..]
  {
    FieldOfValue(s[1..5]);
    FieldOfValue(s[5..6]);
    SmallValue(s[1..5]);
    SmallValue(s[5..6]);
  }

  lemma {:induction false} SmallValue(bits: seq<bool>)
    requires |bits| <= 8
    ensures |bits| == 4 ==> Value(bits) < 16
    ensures |bits| == 1 ==> Value(bits) < 2
  {
    forall j: nat | j < 8
      ensures Bit(Value(bits), j) == (8 - |bits| <= j && bits[j - (8 - |bits|)])
    {
      ValueBits(bits, j);
    }
    var v := Value(bits);
    assert Bit(v, 0) == (8 - |bits| <= 0 && bits[0 - (8 - |bits|)]);
    assert Bit(v, 1) == (8 - |bits| <= 1 && bits[1 - (8 - |bits|)]);
    assert Bit(v, 2) == (8 - |bits| <= 2 && bits[2 - (8 - |bits|)]);
    assert Bit(v, 3) == (8 - |bits| <= 3 && bits[3 - (8 - |bits|)]);
    if |bits| == 1 {
      assert !Bit(v, 4) && !Bit(v, 5) && !Bit(v, 6);
    }
  }

  lemma {:induction false} ParseTocOfBits(toc: seq<TocEntry>, s: seq<bool>)
    requires toc != [] && forall e | e in toc :: ValidEntry(e)
    ensures ParseTocBits(TocBits(toc) + s) == Some((toc, s))
  {
    var t := TocBits(toc[1..]) + s;
    assert TocBits(toc) + s == EntryBits(toc[0], |toc| > 1) + t by {
      Associate(EntryBits(toc[0], |toc| > 1), TocBits(toc[1..]), s);
    }
    EntryBitsRead(toc[0], |toc| > 1, t);
    if |toc| > 1 {
      ParseTocOfBits(toc[1..], s);
      assert [toc[0]] + toc[1..] == toc;
    } else {
      assert t == s && [toc[0]] == toc;
    }
  }

  lemma {:induction false} TocBitsOfParse(s: seq<bool>)
    requires ParseTocBits(s).Some?
    ensures var (toc, rest) := ParseTocBits(s).value;
            toc != [] && (forall e | e in toc :: ValidEntry(e)) && s == TocBits(toc) + rest
    decreases |s|
  {
    var (toc, rest) := ParseTocBits(s).value;
    ReadEntryBits(s);
    if s[0] {
      TocBitsOfParse(s[6..]);
      assert toc[1..] == ParseTocBits(s[6..]).value.0;
      Associate(EntryBits(toc[0], true), TocBits(toc[1..]), rest);
    } else {
      assert TocBits(toc) == EntryBits(toc[0], false) + TocBits(toc[1..]);
    }
  }

  // ----- bandwidth-efficient frames -------------------------------------

  lemma {:induction false} DataBitsCons(f: Frame, frames: seq<Frame>, sizes: Sizes, n: nat)
    requires Known(sizes, f.frameType) && SizeOf(sizes, f.frameType) == n && Ceil8(n) <= |f.bits|
    requires DataBits(frames, sizes).Some?
    ensures DataBits([f] + frames, sizes) == Some(BitsOf(f.bits)[..n] + DataBits(frames, sizes).value)
  {
    assert ([f] + frames)[1..] == frames;
  }

  /** Parsing one canonical frame's bits off the front. */
  lemma {:induction false} ParseFrameBits(f: Frame, data: seq<bool>, toc: seq<TocEntry>, sizes: Sizes,
                                          frames: seq<Frame>, rest: seq<bool>)
    requires CanonicalFrame(f, sizes) && ParseDataBits(data, toc, sizes) == Some((frames, rest))
    ensures ParseDataBits(BitsOf(f.bits)[..SizeOf(sizes, f.frameType)] + data,
                          [TocEntry(f.frameType, f.quality)] + toc, sizes)
            == Some(([f] + frames, rest))
  {
    var n, all := SizeOf(sizes, f.frameType), [TocEntry(f.frameType, f.quality)] + toc;
    var t := BitsOf(f.bits)[..n] + data;
    PackOfPrefix(f.bits, n);
    assert t[..n] == BitsOf(f.bits)[..n] && t[n..] == data && all[1..] == toc;
    assert f == Frame(all[0].frameType, all[0].quality, Pack(t[..n]));
  }

  lemma {:induction false} ParseDataOfBits(frames: seq<Frame>, sizes: Sizes, s: seq<bool>)
    requires forall f | f in frames :: CanonicalFrame(f, sizes)
    ensures DataBits(frames, sizes).Some?
    ensures |DataBits(frames, sizes).value| == FrameBitSum(Toc(frames), sizes)
    ensures ParseDataBits(DataBits(frames, sizes).value + s, Toc(frames), sizes) == Some((frames, s))
  {
    if frames == [] {
      assert DataBits(frames, sizes).value + s == s;
    } else {
      ParseDataOfBits(frames[1..], sizes, s);
      ParseDataOfBitsStep(frames[0], frames[1..], sizes, s);
      assert frames == [frames[0]] + frames[1..];
    }
  }

  lemma {:induction false} ParseDataOfBitsStep(f: Frame, frames: seq<Frame>, sizes: Sizes, s: seq<bool>)
    requires CanonicalFrame(f, sizes) && DataBits(frames, sizes).Some?
    requires |DataBits(frames, sizes).value| == FrameBitSum(Toc(frames), sizes)
    requires ParseDataBits(DataBits(frames, sizes).value + s, Toc(frames), sizes) == Some((frames, s))
    ensures DataBits([f] + frames, sizes).Some?
    ensures |DataBits([f] + frames, sizes).value| == FrameBitSum(Toc([f] + frames), sizes)
    ensures ParseDataBits(DataBits([f] + frames, sizes).value + s, Toc([f] + frames), sizes) == Some(([f] + frames, s))
  {
    var n, data := SizeOf(sizes, f.frameType), DataBits(frames, sizes).value;
    TocCons(f, frames);
    BitSumCons(TocEntry(f.frameType, f.quality), Toc(frames), sizes);
    DataBitsCons(f, frames, sizes, n);
    ParseFrameBits(f, data + s, Toc(frames), sizes, frames, s);
    Associate(BitsOf(f.bits)[..n], data, s);
  }

  lemma {:induction false} BitSumCons(e: TocEntry, toc: seq<TocEntry>, sizes: Sizes)
    requires Known(sizes, e.frameType)
    ensures FrameBitSum([e] + toc, sizes) == SizeOf(sizes, e.frameType) + FrameBitSum(toc, sizes)
  {
    assert ([e] + toc)[1..] == toc;
  }

  lemma {:induction false} PackedFrame(e: TocEntry, sizes: Sizes, n: nat, bits: seq<bool>)
    requires ValidEntry(e) && Known(sizes, e.frameType) && SizeOf(sizes, e.frameType) == n && |bits| == n
    ensures CanonicalFrame(Frame(e.frameType, e.quality, Pack(bits)), sizes)
    ensures BitsOf(Pack(bits))[..n] == bits
  {
    BitsOfPack(bits);
  }

  /** One step of the frame parser: it succeeds on the rest and puts a frame in front. */
  lemma {:induction false} ParseDataBitsStep(s: seq<bool>, toc: seq<TocEntry>, sizes: Sizes)
    returns (n: nat, f: Frame, frames: seq<Frame>, rest: seq<bool>)
    requires toc != [] && ValidEntry(toc[0]) && ParseDataBits(s, toc, sizes).Some?
    ensures CanonicalFrame(f, sizes) && TocEntry(f.frameType, f.quality) == toc[0]
    ensures n == SizeOf(sizes, f.frameType) && n <= |s| && BitsOf(f.bits)[..n] == s[..n]
    ensures ParseDataBits(s[n..], toc[1..], sizes) == Some((frames, rest))
    ensures ParseDataBits(s, toc, sizes) == Some(([f] + frames, rest))
  {
    n := SizeOf(sizes, toc[0].frameType);
    f := Frame(toc[0].frameType, toc[0].quality, Pack(s[..n]));
    frames, rest := ParseDataBits(s[n..], toc[1..], sizes).value.0, ParseDataBits(s[n..], toc[1..], sizes).value.1;
    PackedFrame(toc[0], sizes, n, s[..n]);
  }

  lemma {:induction false} DataBitsOfParse(s: seq<bool>, toc: seq<TocEntry>, sizes: Sizes)
    requires forall e | e in toc :: ValidEntry(e)
    requires ParseDataBits(s, toc, sizes).Some?
    ensures var (frames, rest) := ParseDataBits(s, toc, sizes).value;
            && Toc(frames) == toc
            && (forall f | f in frames :: CanonicalFrame(f, sizes))
            && DataBits(frames, sizes).Some?
            && s == DataBits(frames, sizes).value + rest
    decreases |toc|
  {
    if toc != [] {
      var n, f, tail, rest := ParseDataBitsStep(s, toc, sizes);
      DataBitsOfParse(s[n..], toc[1..], sizes);
      var data := DataBits(tail, sizes).value;
      assert Toc([f] + tail) == toc by { TocCons(f, tail); }
      assert DataBits([f] + tail, sizes) == Some(s[..n] + data) by { DataBitsCons(f, tail, sizes, n); }
      Regroup(s, n, data, rest);
    }
  }

  // ----- octet-aligned table of contents --------------------------------

  lemma {:induction false} EntryOctetRead(e: TocEntry, follow: bool)
    requires ValidEntry(e)
    ensures OctetEntry(EntryOctet(e, follow)) == e
    ensures (EntryOctet(e, follow) & 0x80 != 0) == follow
  {}

  lemma {:induction false} ReadEntryOctet(b: byte)
    ensures ValidEntry(OctetEntry(b))
    ensures EntryOctet(OctetEntry(b), b & 0x80 != 0) == b & 0xfc
  {}

  /** Every octet with the bits outside `m` cleared. */
  function MaskAll(s: seq<byte>, m: byte): (r: seq<byte>)
    ensures |r| == |s|
  {
    seq(|s|, i requires 0 <= i < |s| => s[i] & m)
  }

  lemma {:induction false} ParseTocOfOctets(toc: seq<TocEntry>, s: seq<byte>)
    requires toc != [] && forall e | e in toc :: ValidEntry(e)
    ensures ParseTocOctets(TocOctets(toc) + s) == Some((toc, s))
  {
    var t := TocOctets(toc[1..]) + s;
    assert TocOctets(toc) + s == [EntryOctet(toc[0], |toc| > 1)] + t by {
      Associate([EntryOctet(toc[0], |toc| > 1)], TocOctets(toc[1..]), s);
    }
    EntryOctetRead(toc[0], |toc| > 1);
    if |toc| > 1 {
      ParseTocOfOctets(toc[1..], s);
      assert [toc[0]] + toc[1..] == toc;
    } else {
      assert t == s && [toc[0]] == toc;
    }
  }

  lemma {:induction false} TocOctetsOfParse(s: seq<byte>)
    requires ParseTocOctets(s).Some?
    ensures var (toc, rest) := ParseTocOctets(s).value;
            && toc != [] && |toc| <= |s| && (forall e | e in toc :: ValidEntry(e))
            && rest == s[|toc|..] && TocOctets(toc) == MaskAll(s[..|toc|], 0xfc)
    decreases |s|
  {
    var (toc, rest) := ParseTocOctets(s).value;
    ReadEntryOctet(s[0]);
    if s[0] & 0x80 != 0 {
      TocOctetsOfParse(s[1..]);
      assert toc[1..] == ParseTocOctets(s[1..]).value.0;
      assert s[1..][..|toc| - 1] == s[..|toc|][1..];
      assert s[1..][|toc| - 1..] == s[|toc|..];
      assert TocOctets(toc) == MaskAll(s[..|toc|], 0xfc);
    } else {
      assert TocOctets(toc) == [EntryOctet(toc[0], false)];
    }
  }

  // ----- octet-aligned frames -------------------------------------------

  lemma {:induction false} LastMaskBits(b: byte, n: nat, i: nat)
    requires i < 8
    ensures Bit(b & LastMask(n), i) == (Bit(b, i) && (n % 8 == 0 || i < n % 8))
  {
    var r := n % 8;
    if r == 0 {} else if r == 1 {} else if r == 2 {} else if r == 3 {}
    else if r == 4 {} else if r == 5 {} else if r == 6 {} else {}
  }

  lemma {:induction false} InLastOctet(n: nat, p: nat)
    requires p < 8 * Ceil8(n)
    ensures p / 8 < Ceil8(n)
    ensures p / 8 + 1 < Ceil8(n) ==> p < n
    ensures p / 8 + 1 == Ceil8(n) ==> (p < n <==> n % 8 == 0 || p % 8 < n % 8)
  {}

  lemma {:induction false} CanonicalBit(bytes: seq<byte>, n: nat, p: nat)
    requires |bytes| == Ceil8(n) && p < 8 * |bytes|
    ensures p / 8 < |bytes|
    ensures Bit(Canonical(bytes, n)[p / 8], p % 8) == (p < n && Bit(bytes[p / 8], p % 8))
  {
    InLastOctet(n, p);
    var k, i := p / 8, p % 8;
    if n % 8 != 0 && k + 1 == |bytes| {
      assert Canonical(bytes, n)[k] == bytes[k] & LastMask(n);
      LastMaskBits(bytes[k], n, i);
    } else {
      assert Canonical(bytes, n)[k] == bytes[k];
    }
  }

  /** Clearing the pad bits is keeping exactly the first `n` bits. */
  lemma {:induction false} CanonicalIsPack(bytes: seq<byte>, n: nat)
    requires |bytes| == Ceil8(n)
    ensures Canonical(bytes, n) == Pack(BitsOf(bytes)[..n])
  {
    var c, bits := Canonical(bytes, n), BitsOf(bytes)[..n];
    forall p | 0 <= p < 8 * |bytes|
      ensures BitsOf(c)[p] == BitsOf(Pack(bits))[p]
    {
      PackedBit(bits, p);
      CanonicalBit(bytes, n, p);
    }
    assert BitsOf(c) == BitsOf(Pack(bits));
    OctetsOfBits(c, Pack(bits));
  }

  lemma {:induction false} CanonicalFixed(bytes: seq<byte>, n: nat)
    requires |bytes| == Ceil8(n) && ZeroFrom(bytes, n)
    ensures Canonical(bytes, n) == bytes
  {
    CanonicalIsPack(bytes, n);
    PackOfPrefix(bytes, n);
  }

  lemma {:induction false} DataOctetsCons(f: Frame, frames: seq<Frame>, sizes: Sizes, n: nat)
    requires Known(sizes, f.frameType) && SizeOf(sizes, f.frameType) == n && Ceil8(n) <= |f.bits|
    requires DataOctets(frames, sizes).Some?
    ensures DataOctets([f] + frames, sizes) == Some(f.bits[..Ceil8(n)] + DataOctets(frames, sizes).value)
  {
    assert ([f] + frames)[1..] == frames;
  }

  /** Parsing one canonical frame's octets off the front. */
  lemma {:induction false} ParseFrameOctets(f: Frame, data: seq<byte>, toc: seq<TocEntry>, sizes: Sizes,
                                            frames: seq<Frame>, rest: seq<byte>)
    requires CanonicalFrame(f, sizes) && ParseDataOctets(data, toc, sizes) == Some((frames, rest))
    ensures ParseDataOctets(f.bits + data, [TocEntry(f.frameType, f.quality)] + toc, sizes)
            == Some(([f] + frames, rest))
  {
    var n, all := SizeOf(sizes, f.frameType), [TocEntry(f.frameType, f.quality)] + toc;
    var t := f.bits + data;
    CanonicalFixed(f.bits, n);
    assert t[..Ceil8(n)] == f.bits && t[Ceil8(n)..] == data && all[1..] == toc;
    assert f == Frame(all[0].frameType, all[0].quality, Canonical(t[..Ceil8(n)], n));
  }

  lemma {:induction false} ParseDataOfOctets(frames: seq<Frame>, sizes: Sizes, s: seq<byte>)
    requires forall f | f in frames :: CanonicalFrame(f, sizes)
    ensures DataOctets(frames, sizes).Some?
    ensures |DataOctets(frames, sizes).value| == FrameOctetSum(Toc(frames), sizes)
    ensures ParseDataOctets(DataOctets(frames, sizes).value + s, Toc(frames), sizes) == Some((frames, s))
  {
    if frames == [] {
      assert DataOctets(frames, sizes).value + s == s;
    } else {
      ParseDataOfOctets(frames[1..], sizes, s);
      ParseDataOfOctetsStep(frames[0], frames[1..], sizes, s);
      assert frames == [frames[0]] + frames[1..];
    }
  }

  lemma {:induction false} ParseDataOfOctetsStep(f: Frame, frames: seq<Frame>, sizes: Sizes, s: seq<byte>)
    requires CanonicalFrame(f, sizes) && DataOctets(frames, sizes).Some?
    requires |DataOctets(frames, sizes).value| == FrameOctetSum(Toc(frames), sizes)
    requires ParseDataOctets(DataOctets(frames, sizes).value + s, Toc(frames), sizes) == Some((frames, s))
    ensures DataOctets([f] + frames, sizes).Some?
    ensures |DataOctets([f] + frames, sizes).value| == FrameOctetSum(Toc([f] + frames), sizes)
    ensures ParseDataOctets(DataOctets([f] + frames, sizes).value + s, Toc([f] + frames), sizes)
            == Some(([f] + frames, s))
  {
    var n, data := SizeOf(sizes, f.frameType), DataOctets(frames, sizes).value;
    TocCons(f, frames);
    OctetSumCons(TocEntry(f.frameType, f.quality), Toc(frames), sizes);
    assert DataOctets([f] + frames, sizes) == Some(f.bits + data) by {
      DataOctetsCons(f, frames, sizes, n);
      assert f.bits[..Ceil8(n)] == f.bits;
    }
    ParseFrameOctets(f, data + s, Toc(frames), sizes, frames, s);
    Associate(f.bits, data, s);
  }

  lemma {:induction false} OctetSumCons(e: TocEntry, toc: seq<TocEntry>, sizes: Sizes)
    requires Known(sizes, e.frameType)
    ensures FrameOctetSum([e] + toc, sizes) == Ceil8(SizeOf(sizes, e.frameType)) + FrameOctetSum(toc, sizes)
  {
    assert ([e] + toc)[1..] == toc;
  }

  /** The frame data of an octet-aligned payload with every frame's pad bits cleared. */
  function ClearPadding(s: seq<byte>, toc: seq<TocEntry>, sizes: Sizes): (r: seq<byte>)
    ensures |r| == |s|
    decreases |toc|
  {
    if toc == [] || !Known(sizes, toc[0].frameType) || |s| < Ceil8(SizeOf(sizes, toc[0].frameType)) then s
    else
      var n := SizeOf(sizes, toc[0].frameType);
      Canonical(s[..Ceil8(n)], n) + ClearPadding(s[Ceil8(n)..], toc[1..], sizes)
  }

  lemma {:induction false} CanonicalFrameOf(e: TocEntry, sizes: Sizes, n: nat, data: seq<byte>)
    requires ValidEntry(e) && Known(sizes, e.frameType) && SizeOf(sizes, e.frameType) == n && |data| == Ceil8(n)
    ensures CanonicalFrame(Frame(e.frameType, e.quality, Canonical(data, n)), sizes)
  {
    CanonicalIsPack(data, n);
    PackedFrame(e, sizes, n, BitsOf(data)[..n]);
  }

  lemma {:induction false} DataOctetsOfParse(s: seq<byte>, toc: seq<TocEntry>, sizes: Sizes)
    requires forall e | e in toc :: ValidEntry(e)
    requires ParseDataOctets(s, toc, sizes).Some?
    ensures var (frames, rest) := ParseDataOctets(s, toc, sizes).value;
            && Toc(frames) == toc
            && (forall f | f in frames :: CanonicalFrame(f, sizes))
            && DataOctets(frames, sizes).Some?
            && ClearPadding(s, toc, sizes) == DataOctets(frames, sizes).value + rest
    decreases |toc|
  {
    if toc != [] {
      var e, n := toc[0], SizeOf(sizes, toc[0].frameType);
      var k := Ceil8(n);
      DataOctetsOfParse(s[k..], toc[1..], sizes);
      var (tail, rest) := ParseDataOctets(s[k..], toc[1..], sizes).value;
      var f := Frame(e.frameType, e.quality, Canonical(s[..k], n));
      assert ParseDataOctets(s, toc, sizes).value == ([f] + tail, rest);
      assert ClearPadding(s, toc, sizes) == f.bits + ClearPadding(s[k..], toc[1..], sizes);
      assert Toc([f] + tail) == toc by { TocCons(f, tail); }
      CanonicalFrameOf(e, sizes, n, s[..k]);
      var data := DataOctets(tail, sizes).value;
      assert DataOctets([f] + tail, sizes) == Some(f.bits + data) by {
        DataOctetsCons(f, tail, sizes, n);
        assert f.bits[..k] == f.bits;
      }
      Associate(f.bits, data, rest);
    }
  }
}
