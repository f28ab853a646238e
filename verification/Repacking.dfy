/** The main results about repacking: round trips, exactness of failure, sizes,
    the table-of-contents scan and the codec mode request. */
module Repacking {
  import opened Wrappers
  import opened Bits
  import opened Amr
  import opened RepackLaws

  /** An octet-aligned payload with its reserved bits cleared: the low nibble of the CMR octet,
      the two low bits of each table-of-contents octet, and each frame's padding. */
  function ClearReserved(s: seq<byte>, toc: seq<TocEntry>, sizes: Sizes): (r: seq<byte>)
    requires 1 + |toc| <= |s|
    ensures |r| == |s|
  {
    [s[0] & 0xf0] + MaskAll(s[1..1 + |toc|], 0xfc) + ClearPadding(s[1 + |toc|..], toc, sizes)
  }

  /** Bits of a bandwidth-efficient packet: CMR, six per table-of-contents entry, the frames. */
  function UsedBits(toc: seq<TocEntry>, sizes: Sizes): nat { 4 + 6 * |toc| + FrameBitSum(toc, sizes) }

  // ----- parse inverts build --------------------------------------------

  lemma {:induction false} TocValid(frames: seq<Frame>, sizes: Sizes)
    requires forall f | f in frames :: CanonicalFrame(f, sizes)
    ensures forall e | e in Toc(frames) :: ValidEntry(e)
  {
    forall e | e in Toc(frames)
      ensures ValidEntry(e)
    {
      var i :| 0 <= i < |frames| && Toc(frames)[i] == e;
      assert CanonicalFrame(frames[i], sizes);
    }
  }

  lemma {:induction false} Join<T>(a: seq<T>, b: seq<T>, c: seq<T>, d: seq<T>)
    ensures var s := a + b + c + d;
            s == a + (b + (c + d)) && s[..|a|] == a && s[|a|..] == b + (c + d)
  {}

  lemma {:induction false} ParseBitsOfPacket(p: Packet, sizes: Sizes, pad: seq<bool>)
    requires WellFormed(p, sizes)
    ensures PacketBits(p, sizes).Some?
    ensures |PacketBits(p, sizes).value| == UsedBits(Toc(p.frames), sizes)
    ensures ParseBits(PacketBits(p, sizes).value + pad, sizes) == Some((p, pad))
  {
    var toc, cmr := Toc(p.frames), Field(p.cmr, 4);
    ParseDataOfBits(p.frames, sizes, pad);
    var data := DataBits(p.frames, sizes).value;
    assert ParseTocBits(TocBits(toc) + (data + pad)) == Some((toc, data + pad)) by {
      TocValid(p.frames, sizes);
      ParseTocOfBits(toc, data + pad);
    }
    assert Value(cmr) == p.cmr by { Nibble(p.cmr); }
    Join(cmr, TocBits(toc), data, pad);
  }

  lemma {:induction false} ParseOctetsOfPacket(p: Packet, sizes: Sizes)
    requires WellFormed(p, sizes)
    ensures PacketOctets(p, sizes).Some?
    ensures |PacketOctets(p, sizes).value| == 1 + |p.frames| + FrameOctetSum(Toc(p.frames), sizes)
    ensures ParseOctets(PacketOctets(p, sizes).value, sizes) == Some(p)
  {
    var toc := Toc(p.frames);
    ParseDataOfOctets(p.frames, sizes, []);
    var data := DataOctets(p.frames, sizes).value;
    assert data + [] == data;
    assert ParseTocOctets(TocOctets(toc) + data) == Some((toc, data)) by {
      TocValid(p.frames, sizes);
      ParseTocOfOctets(toc, data);
    }
    ParseOctetParts(p.cmr, toc, data, p.frames, sizes);
  }

  lemma {:induction false} ParseOctetParts(cmr: byte, toc: seq<TocEntry>, data: seq<byte>, frames: seq<Frame>,
                                           sizes: Sizes)
    requires cmr < 16
    requires ParseTocOctets(TocOctets(toc) + data) == Some((toc, data))
    requires ParseDataOctets(data, toc, sizes) == Some((frames, []))
    ensures ParseOctets([cmr << 4] + TocOctets(toc) + data, sizes) == Some(Packet(cmr, frames))
  {
    var s := [cmr << 4] + TocOctets(toc) + data;
    assert s[1..] == TocOctets(toc) + data;
    CmrShift(cmr);
  }

  lemma {:induction false} CmrShift(cmr: byte)
    ensures cmr < 16 ==> (cmr << 4) >> 4 == cmr
    ensures (cmr >> 4) << 4 == cmr & 0xf0
    ensures cmr >> 4 < 16
  {}

  /** Every well-formed packet survives being built and parsed, in both packings and for any
      number of frames. */
  lemma {:induction false} ParseOfBuild(p: Packet, kind: AmrKind, octetAligned: bool)
    requires WellFormed(p, FrameSizes(kind))
    ensures Build(p, kind, octetAligned).Some?
    ensures Parse(Build(p, kind, octetAligned).value, kind, octetAligned) == Some(p)
  {
    var sizes := FrameSizes(kind);
    if octetAligned {
      ParseOctetsOfPacket(p, sizes);
    } else {
      ParsePackedPacket(p, sizes);
    }
  }

  lemma {:induction false} ParsePackedPacket(p: Packet, sizes: Sizes)
    requires WellFormed(p, sizes)
    ensures PacketBits(p, sizes).Some?
    ensures var packed := BitsOf(Pack(PacketBits(p, sizes).value));
            ParseBits(packed, sizes).Some? && ParseBits(packed, sizes).value.0 == p
  {
    ParseBitsOfPacket(p, sizes, []);
    var bits := PacketBits(p, sizes).value;
    BitsOfPack(bits);
    var all := BitsOf(Pack(bits));
    assert all == bits + all[|bits|..];
    ParseBitsOfPacket(p, sizes, all[|bits|..]);
  }

  // ----- build inverts parse, up to what the wire format does not carry --

  lemma {:induction false} PacketOfParseBits(s: seq<bool>, sizes: Sizes)
    requires ParseBits(s, sizes).Some?
    ensures var (p, tail) := ParseBits(s, sizes).value;
            WellFormed(p, sizes) && PacketBits(p, sizes).Some? && s == PacketBits(p, sizes).value + tail
  {
    var (toc, rest) := ParseTocBits(s[4..]).value;
    var (frames, tail) := ParseDataBits(rest, toc, sizes).value;
    TocBitsOfParse(s[4..]);
    DataBitsOfParse(rest, toc, sizes);
    var cmr, data := s[..4], DataBits(frames, sizes).value;
    assert Field(Value(cmr), 4) == cmr by { FieldOfValue(cmr); }
    assert Value(cmr) < 16 by { SmallValue(cmr); }
    assert s == cmr + s[4..];
    Join(cmr, TocBits(toc), data, tail);
  }

  lemma {:induction false} PacketOfParseOctets(s: seq<byte>, sizes: Sizes)
    requires ParseOctets(s, sizes).Some?
    ensures var p := ParseOctets(s, sizes).value;
            && WellFormed(p, sizes) && 1 + |p.frames| <= |s|
            && PacketOctets(p, sizes) == Some(ClearReserved(s, Toc(p.frames), sizes))
  {
    var (toc, rest) := ParseTocOctets(s[1..]).value;
    TocOctetsOfParse(s[1..]);
    DataOctetsOfParse(rest, toc, sizes);
    CmrShift(s[0]);
    var p := ParseOctets(s, sizes).value;
    assert s[1..][..|toc|] == s[1..1 + |toc|] && rest == s[1 + |toc|..];
    assert DataOctets(p.frames, sizes).value + [] == DataOctets(p.frames, sizes).value;
  }

  /** What a successful parse says: the packet is well-formed and building it gives back the payload
      without its reserved bits (octet-aligned), or its used octets zero-padded (bandwidth-efficient). */
  lemma {:induction false} BuildOfParse(s: seq<byte>, kind: AmrKind, octetAligned: bool)
    requires Parse(s, kind, octetAligned).Some?
    ensures var p, sizes := Parse(s, kind, octetAligned).value, FrameSizes(kind);
            && WellFormed(p, sizes)
            && if octetAligned
               then 1 + |p.frames| <= |s| && Build(p, kind, true) == Some(ClearReserved(s, Toc(p.frames), sizes))
               else var used := UsedBits(Toc(p.frames), sizes);
                    used <= 8 * |s| && Build(p, kind, false) == Some(Canonical(s[..Ceil8(used)], used))
  {
    var sizes := FrameSizes(kind);
    if octetAligned {
      PacketOfParseOctets(s, sizes);
    } else {
      PacketOfParseBits(BitsOf(s), sizes);
      var (p, tail) := ParseBits(BitsOf(s), sizes).value;
      ParseBitsOfPacket(p, sizes, tail);
      var used := UsedBits(Toc(p.frames), sizes);
      assert BitsOf(s)[..used] == PacketBits(p, sizes).value;
      var head := s[..Ceil8(used)];
      assert BitsOf(head)[..used] == BitsOf(s)[..used];
      CanonicalIsPack(head, used);
    }
  }

  // ----- repack ---------------------------------------------------------

  /** Conversion between packings fails exactly when the source does not parse, and otherwise
      gives a payload that parses, in the other packing, to the same packet. */
  lemma {:induction false} RepackPreserves(s: seq<byte>, kind: AmrKind, from: bool, to: bool)
    requires from != to
    ensures Repack(s, kind, from, to).Some? <==> Parse(s, kind, from).Some?
    ensures Repack(s, kind, from, to).Some? ==>
              Parse(Repack(s, kind, from, to).value, kind, to) == Parse(s, kind, from)
  {
    if Parse(s, kind, from).Some? {
      BuildOfParse(s, kind, from);
      ParseOfBuild(Parse(s, kind, from).value, kind, to);
    }
  }

  /** There and back: an octet-aligned payload loses only its reserved bits. */
  lemma {:induction false} OctetAlignedRoundTrip(s: seq<byte>, kind: AmrKind)
    requires Repack(s, kind, true, false).Some?
    ensures var p := Parse(s, kind, true).value;
            && 1 + |p.frames| <= |s|
            && Repack(Repack(s, kind, true, false).value, kind, false, true)
               == Some(ClearReserved(s, Toc(p.frames), FrameSizes(kind)))
  {
    RepackPreserves(s, kind, true, false);
    BuildOfParse(s, kind, true);
  }

  /** There and back: a bandwidth-efficient payload loses only what follows its last frame. */
  lemma {:induction false} BandwidthEfficientRoundTrip(s: seq<byte>, kind: AmrKind)
    requires Repack(s, kind, false, true).Some?
    ensures var used := UsedBits(Toc(Parse(s, kind, false).value.frames), FrameSizes(kind));
            && used <= 8 * |s|
            && Repack(Repack(s, kind, false, true).value, kind, true, false)
               == Some(Canonical(s[..Ceil8(used)], used))
  {
    RepackPreserves(s, kind, false, true);
    BuildOfParse(s, kind, false);
  }

  lemma {:induction false} OctetsCoverBits(toc: seq<TocEntry>, sizes: Sizes)
    ensures FrameBitSum(toc, sizes) <= 8 * FrameOctetSum(toc, sizes)
  {
    if toc != [] { OctetsCoverBits(toc[1..], sizes); }
  }

  /** The exact payload sizes; the bandwidth-efficient form is never the longer one. */
  lemma {:induction false} PayloadSizes(p: Packet, kind: AmrKind)
    requires WellFormed(p, FrameSizes(kind))
    ensures Build(p, kind, false).Some? && Build(p, kind, true).Some?
    ensures |Build(p, kind, false).value| == Ceil8(UsedBits(Toc(p.frames), FrameSizes(kind)))
    ensures |Build(p, kind, true).value| == 1 + |p.frames| + FrameOctetSum(Toc(p.frames), FrameSizes(kind))
    ensures |Build(p, kind, false).value| <= |Build(p, kind, true).value|
  {
    var sizes := FrameSizes(kind);
    ParseBitsOfPacket(p, sizes, []);
    ParseOctetsOfPacket(p, sizes);
    OctetsCoverBits(Toc(p.frames), sizes);
  }

  // ----- the table-of-contents scan -------------------------------------

  /** The speech frame types of a table of contents, in order. */
  function SpeechTypes(toc: seq<TocEntry>, speech: Sizes): seq<byte> {
    if toc == [] then []
    else (if Known(speech, toc[0].frameType) then [toc[0].frameType] else []) + SpeechTypes(toc[1..], speech)
  }

  /** The table of contents of a payload, or `None` when it does not end inside it. */
  function TocOf(s: seq<byte>, octetAligned: bool): Option<seq<TocEntry>> {
    if s == [] then None
    else if octetAligned then
      match ParseTocOctets(s[1..]) case None => None case Some((toc, _)) => Some(toc)
    else
      match ParseTocBits(BitsOf(s)[4..]) case None => None case Some((toc, _)) => Some(toc)
  }

  /** The speech modes a payload lists; what the mode guard polices. */
  function ListedModes(s: seq<byte>, kind: AmrKind, octetAligned: bool): Option<seq<byte>> {
    match TocOf(s, octetAligned)
    case None => None
    case Some(toc) => Some(SpeechTypes(toc, SpeechSizes(kind)))
  }

  /** Whenever a payload parses, the modes it lists are the speech frame types of its packet. */
  lemma {:induction false} ListedModesOfParse(s: seq<byte>, kind: AmrKind, octetAligned: bool)
    requires Parse(s, kind, octetAligned).Some?
    ensures TocOf(s, octetAligned) == Some(Toc(Parse(s, kind, octetAligned).value.frames))
    ensures ListedModes(s, kind, octetAligned)
            == Some(SpeechTypes(Toc(Parse(s, kind, octetAligned).value.frames), SpeechSizes(kind)))
  {
    var sizes := FrameSizes(kind);
    if octetAligned {
      var (toc, rest) := ParseTocOctets(s[1..]).value;
      TocOctetsOfParse(s[1..]);
      DataOctetsOfParse(rest, toc, sizes);
    } else {
      var (toc, rest) := ParseTocBits(BitsOf(s)[4..]).value;
      TocBitsOfParse(BitsOf(s)[4..]);
      DataBitsOfParse(rest, toc, sizes);
    }
  }

  /** Repacking keeps the listed speech modes. */
  lemma {:induction false} RepackKeepsModes(s: seq<byte>, kind: AmrKind, from: bool, to: bool)
    requires Repack(s, kind, from, to).Some?
    ensures ListedModes(Repack(s, kind, from, to).value, kind, to)
            == if from == to then ListedModes(s, kind, to) else ListedModes(s, kind, from)
  {
    if from != to {
      RepackPreserves(s, kind, from, to);
      ListedModesOfParse(s, kind, from);
      ListedModesOfParse(Repack(s, kind, from, to).value, kind, to);
    }
  }

  // ----- the codec mode request -----------------------------------------

  function CmrOf(s: seq<byte>): Option<byte> { if s == [] then None else Some(s[0] >> 4) }

  function WithCmr(s: seq<byte>, cmr: byte): (r: seq<byte>)
    ensures |r| == |s|
  {
    if s == [] then s else s[0 := (cmr << 4) | (s[0] & 0x0f)]
  }

  lemma {:induction false} CmrNibbles(b: byte, cmr: byte)
    requires cmr < 16
    ensures ((cmr << 4) | (b & 0x0f)) >> 4 == cmr
    ensures ((cmr << 4) | (b & 0x0f)) & 0x0f == b & 0x0f
  {}

  lemma {:induction false} LowNibbleBit(b: byte, c: byte, i: nat)
    requires 4 <= i < 8 && b & 0x0f == c & 0x0f
    ensures Bit(b, i) == Bit(c, i)
  {
    if i == 4 {} else if i == 5 {} else if i == 6 {} else {}
  }

  lemma {:induction false} FirstNibble(s: seq<byte>)
    requires s != []
    ensures Value(BitsOf(s)[..4]) == s[0] >> 4
  {
    var v := Value(BitsOf(s)[..4]);
    forall j: nat | j < 8
      ensures Bit(v, j) == Bit(s[0] >> 4, j)
    {
      ValueBits(BitsOf(s)[..4], j);
      HighNibbleBits(s[0], j);
    }
    BitsDetermineOctet(v, s[0] >> 4);
  }

  lemma {:induction false} HighNibbleBits(b: byte, j: nat)
    requires j < 8
    ensures Bit(b >> 4, j) == (4 <= j && Bit(b, j - 4))
  {
    if j == 4 {} else if j == 5 {} else if j == 6 {} else if j == 7 {} else {}
  }

  /** The CMR is the first nibble in both packings: `cmr_of` agrees with the parser. */
  lemma {:induction false} CmrOfParse(s: seq<byte>, kind: AmrKind, octetAligned: bool)
    requires Parse(s, kind, octetAligned).Some?
    ensures CmrOf(s) == Some(Parse(s, kind, octetAligned).value.cmr)
  {
    FirstNibble(s);
  }

  /** Overwriting the CMR changes the request and nothing else, in both packings, whether or not
      the rest of the payload parses. */
  lemma {:induction false} WithCmrParse(s: seq<byte>, cmr: byte, kind: AmrKind, octetAligned: bool)
    requires cmr < 16 && s != []
    ensures CmrOf(WithCmr(s, cmr)) == Some(cmr)
    ensures TocOf(WithCmr(s, cmr), octetAligned) == TocOf(s, octetAligned)
    ensures Parse(WithCmr(s, cmr), kind, octetAligned)
            == match Parse(s, kind, octetAligned) case None => None case Some(p) => Some(p.(cmr := cmr))
  {
    var t := WithCmr(s, cmr);
    CmrNibbles(s[0], cmr);
    assert t[1..] == s[1..];
    forall p | 4 <= p < 8 * |s|
      ensures BitsOf(t)[p] == BitsOf(s)[p]
    {
      if p < 8 { LowNibbleBit(t[0], s[0], p); }
    }
    assert BitsOf(t)[4..] == BitsOf(s)[4..];
    FirstNibble(t);
    if Parse(s, kind, octetAligned).Some? { CmrOfParse(s, kind, octetAligned); }
  }
}
