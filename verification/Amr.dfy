/** AMR frames and packets, and the two RTP payload layouts of RFC 4867 as pure functions:
    octet-aligned (section 4.4) over octets, bandwidth-efficient (section 4.3) over bits. */
module Amr {
  import opened Wrappers
  import opened Bits

  datatype AmrKind = Nb | Wb

  datatype Frame = Frame(frameType: byte, quality: byte, bits: seq<byte>)

  datatype Packet = Packet(cmr: byte, frames: seq<Frame>)

  datatype TocEntry = TocEntry(frameType: byte, quality: byte)

  /** Speech bits in one 20 ms frame; `None` for a frame type that is not speech. */
  function SpeechBits(kind: AmrKind, ft: byte): Option<nat> {
    match kind
    case Nb =>
      if ft == 0 then Some(95) else if ft == 1 then Some(103) else if ft == 2 then Some(118)
      else if ft == 3 then Some(134) else if ft == 4 then Some(148) else if ft == 5 then Some(159)
      else if ft == 6 then Some(204) else if ft == 7 then Some(244) else None
    case Wb =>
      if ft == 0 then Some(132) else if ft == 1 then Some(177) else if ft == 2 then Some(253)
      else if ft == 3 then Some(285) else if ft == 4 then Some(317) else if ft == 5 then Some(365)
      else if ft == 6 then Some(397) else if ft == 7 then Some(461) else if ft == 8 then Some(477) else None
  }

  /** A frame's size in bits for every type a relay may see: speech, comfort noise (SID),
      SPEECH_LOST and NO_DATA. `None` for a reserved type, which cannot be repacked. */
  function FrameBits(kind: AmrKind, ft: byte): Option<nat> {
    if SpeechBits(kind, ft).Some? then SpeechBits(kind, ft)
    else if kind == Nb && ft == 8 then Some(39)
    else if kind == Wb && ft == 9 then Some(40)
    else if (kind == Wb && ft == 14) || ft == 15 then Some(0)
    else None
  }

  /** A table of frame sizes. The layouts below do not depend on which one it is. */
  type Sizes = byte -> Option<nat>

  function SpeechSizes(kind: AmrKind): Sizes { ft => SpeechBits(kind, ft) }

  function FrameSizes(kind: AmrKind): Sizes { ft => FrameBits(kind, ft) }

  predicate Known(sizes: Sizes, ft: byte) { sizes(ft).Some? }

  function SizeOf(sizes: Sizes, ft: byte): nat
    requires Known(sizes, ft)
  {
    sizes(ft).value
  }

  /** The octet mask `0xff << (8 - n % 8)` that keeps the used bits of the last octet. */
  function LastMask(n: nat): byte {
    var r := n % 8;
    if r == 0 then 0xff else if r == 1 then 0x80 else if r == 2 then 0xc0 else if r == 3 then 0xe0
    else if r == 4 then 0xf0 else if r == 5 then 0xf8 else if r == 6 then 0xfc else 0xfe
  }

  /** Zero the unused low bits of the last octet of an `n`-bit field. */
  function Canonical(bytes: seq<byte>, n: nat): (r: seq<byte>)
    ensures |r| == |bytes|
  {
    if n % 8 != 0 && bytes != []
    then bytes[|bytes| - 1 := bytes[|bytes| - 1] & LastMask(n)]
    else bytes
  }

  function Toc(frames: seq<Frame>): (r: seq<TocEntry>)
    ensures |r| == |frames|
  {
    seq(|frames|, i requires 0 <= i < |frames| => TocEntry(frames[i].frameType, frames[i].quality))
  }

  // ----- bandwidth-efficient layout, on bits ----------------------------

  function EntryBits(e: TocEntry, follow: bool): (r: seq<bool>)
    ensures |r| == 6
  {
    [follow] + Field(e.frameType, 4) + Field(e.quality, 1)
  }

  function TocBits(toc: seq<TocEntry>): (r: seq<bool>)
    ensures |r| == 6 * |toc|
  {
    if toc == [] then [] else EntryBits(toc[0], |toc| > 1) + TocBits(toc[1..])
  }

  function DataBits(frames: seq<Frame>, sizes: Sizes): Option<seq<bool>> {
    if frames == [] then Some([])
    else if !Known(sizes, frames[0].frameType) || |frames[0].bits| < Ceil8(SizeOf(sizes, frames[0].frameType)) then None
    else match DataBits(frames[1..], sizes)
         case None => None
         case Some(rest) => Some(BitsOf(frames[0].bits)[..SizeOf(sizes, frames[0].frameType)] + rest)
  }

  /** The whole packet as one bit string, before padding. */
  function PacketBits(p: Packet, sizes: Sizes): Option<seq<bool>> {
    if p.frames == [] then None
    else match DataBits(p.frames, sizes)
         case None => None
         case Some(data) => Some(Field(p.cmr, 4) + TocBits(Toc(p.frames)) + data)
  }

  function ParseTocBits(s: seq<bool>): Option<(seq<TocEntry>, seq<bool>)>
    decreases |s|
  {
    if |s| < 6 then None
    else
      var e := TocEntry(Value(s[1..5]), Value(s[5..6]));
      if !s[0] then Some(([e], s[6..]))
      else match ParseTocBits(s[6..])
           case None => None
           case Some((toc, rest)) => Some(([e] + toc, rest))
  }

  function ParseDataBits(s: seq<bool>, toc: seq<TocEntry>, sizes: Sizes): Option<(seq<Frame>, seq<bool>)>
    decreases |toc|
  {
    if toc == [] then Some(([], s))
    else if !Known(sizes, toc[0].frameType) || |s| < SizeOf(sizes, toc[0].frameType) then None
    else
      var n := SizeOf(sizes, toc[0].frameType);
      match ParseDataBits(s[n..], toc[1..], sizes)
      case None => None
      case Some((frames, rest)) =>
        Some(([Frame(toc[0].frameType, toc[0].quality, Pack(s[..n]))] + frames, rest))
  }

  /** A bandwidth-efficient payload: the packet, and the bits after its last frame, which are ignored. */
  function ParseBits(s: seq<bool>, sizes: Sizes): Option<(Packet, seq<bool>)> {
    if |s| < 4 then None
    else match ParseTocBits(s[4..])
         case None => None
         case Some((toc, rest)) =>
           match ParseDataBits(rest, toc, sizes)
           case None => None
           case Some((frames, tail)) => Some((Packet(Value(s[..4]), frames), tail))
  }

  // ----- octet-aligned layout, on octets --------------------------------

  function EntryOctet(e: TocEntry, follow: bool): byte {
    (if follow then 0x80 else 0) | (e.frameType << 3) | (e.quality << 2)
  }

  function OctetEntry(b: byte): TocEntry { TocEntry((b >> 3) & 0x0f, (b >> 2) & 1) }

  function TocOctets(toc: seq<TocEntry>): (r: seq<byte>)
    ensures |r| == |toc|
  {
    if toc == [] then [] else [EntryOctet(toc[0], |toc| > 1)] + TocOctets(toc[1..])
  }

  function DataOctets(frames: seq<Frame>, sizes: Sizes): Option<seq<byte>> {
    if frames == [] then Some([])
    else if !Known(sizes, frames[0].frameType) || |frames[0].bits| < Ceil8(SizeOf(sizes, frames[0].frameType)) then None
    else match DataOctets(frames[1..], sizes)
         case None => None
         case Some(rest) => Some(frames[0].bits[..Ceil8(SizeOf(sizes, frames[0].frameType))] + rest)
  }

  function PacketOctets(p: Packet, sizes: Sizes): Option<seq<byte>> {
    if p.frames == [] then None
    else match DataOctets(p.frames, sizes)
         case None => None
         case Some(data) => Some([p.cmr << 4] + TocOctets(Toc(p.frames)) + data)
  }

  function ParseTocOctets(s: seq<byte>): Option<(seq<TocEntry>, seq<byte>)>
    decreases |s|
  {
    if s == [] then None
    else
      var e := OctetEntry(s[0]);
      if s[0] & 0x80 == 0 then Some(([e], s[1..]))
      else match ParseTocOctets(s[1..])
           case None => None
           case Some((toc, rest)) => Some(([e] + toc, rest))
  }

  function ParseDataOctets(s: seq<byte>, toc: seq<TocEntry>, sizes: Sizes): Option<(seq<Frame>, seq<byte>)>
    decreases |toc|
  {
    if toc == [] then Some(([], s))
    else if !Known(sizes, toc[0].frameType) || |s| < Ceil8(SizeOf(sizes, toc[0].frameType)) then None
    else
      var n := SizeOf(sizes, toc[0].frameType);
      match ParseDataOctets(s[Ceil8(n)..], toc[1..], sizes)
      case None => None
      case Some((frames, rest)) =>
        Some(([Frame(toc[0].frameType, toc[0].quality, Canonical(s[..Ceil8(n)], n))] + frames, rest))
  }

  /** An octet-aligned payload; octets left over after the last frame make it unparseable. */
  function ParseOctets(s: seq<byte>, sizes: Sizes): Option<Packet> {
    if s == [] then None
    else match ParseTocOctets(s[1..])
         case None => None
         case Some((toc, rest)) =>
           match ParseDataOctets(rest, toc, sizes)
           case None => None
           case Some((frames, tail)) => if tail == [] then Some(Packet(s[0] >> 4, frames)) else None
  }

  // ----- both layouts ---------------------------------------------------

  function Parse(s: seq<byte>, kind: AmrKind, octetAligned: bool): Option<Packet> {
    if octetAligned then ParseOctets(s, FrameSizes(kind))
    else match ParseBits(BitsOf(s), FrameSizes(kind))
         case None => None
         case Some((p, _)) => Some(p)
  }

  function Build(p: Packet, kind: AmrKind, octetAligned: bool): Option<seq<byte>> {
    if octetAligned then PacketOctets(p, FrameSizes(kind))
    else match PacketBits(p, FrameSizes(kind))
         case None => None
         case Some(bits) => Some(Pack(bits))
  }

  function Repack(s: seq<byte>, kind: AmrKind, from: bool, to: bool): Option<seq<byte>> {
    if from == to then Some(s)
    else match Parse(s, kind, from)
         case None => None
         case Some(p) => Build(p, kind, to)
  }
}
