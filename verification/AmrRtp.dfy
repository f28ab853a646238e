/** `payload_to_frame` and `frame_to_payload` of `ims/amr_rtp.rs`: the decoding path, which handles
    one speech frame per packet in the codec libraries' layout (header octet, then speech octets). */
module AmrRtp {
  import opened Wrappers
  import opened Bits
  import opened BitIo
  import opened Amr
  import opened RepackLaws
  import opened Repacking
  import opened Repacker

  const CMR_NO_REQUEST: byte := 0x0f

  // ----- what the two functions compute ---------------------------------

  function FrameOfBits(bits: seq<bool>, speech: Sizes): Option<seq<byte>> {
    if |bits| < 10 then None
    else
      var e := TocEntry(Value(bits[5..9]), Value(bits[9..10]));
      if !Known(speech, e.frameType) || |bits| < 10 + SizeOf(speech, e.frameType) then None
      else Some([EntryOctet(e, false)] + Pack(bits[10..10 + SizeOf(speech, e.frameType)]))
  }

  function FrameOfPayload(s: seq<byte>, kind: AmrKind, octetAligned: bool): Option<seq<byte>> {
    if !octetAligned then FrameOfBits(BitsOf(s), SpeechSizes(kind))
    else if |s| < 2 || !Known(SpeechSizes(kind), OctetEntry(s[1]).frameType) then None
    else Some(s[1..])
  }

  function BitsOfFrame(e: TocEntry, speech: seq<byte>, n: nat): seq<bool>
    requires n <= 8 * |speech|
  {
    Field(CMR_NO_REQUEST, 4) + EntryBits(e, false) + BitsOf(speech)[..n]
  }

  function PayloadOfFrame(frame: seq<byte>, kind: AmrKind, octetAligned: bool): Option<seq<byte>> {
    if frame == [] || !Known(SpeechSizes(kind), OctetEntry(frame[0]).frameType) then None
    else if octetAligned then Some([CMR_NO_REQUEST << 4] + frame)
    else
      var e := OctetEntry(frame[0]);
      var n := SizeOf(SpeechSizes(kind), e.frameType);
      if |frame| - 1 < Ceil8(n) then None else Some(Pack(BitsOfFrame(e, frame[1..], n)))
  }

  // ----- the code -------------------------------------------------------

  method PayloadToFrame(payload: seq<byte>, kind: AmrKind, octetAligned: bool) returns (r: Option<seq<byte>>)
    ensures r == FrameOfPayload(payload, kind, octetAligned)
  {
    if octetAligned {
      if |payload| < 2 {
        return None;
      }
      var frameType := (payload[1] >> 3) & 0x0f;
      if !Known(SpeechSizes(kind), frameType) {
        return None;
      }
      return Some(payload[1..]);
    }
    r := ReadFrame(payload, SpeechSizes(kind));
  }

  method ReadFrame(payload: seq<byte>, speech: Sizes) returns (r: Option<seq<byte>>)
    ensures r == FrameOfBits(BitsOf(payload), speech)
  {
    var reader := new BitReader(payload);
    var e := ReadHeader(reader);
    if e == None || !Known(speech, e.value.frameType) {
      return None;
    }
    var data := reader.ReadBitsToBytes(SizeOf(speech, e.value.frameType));
    if data == None {
      return None;
    }
    HeaderOctet(e.value.frameType, e.value.quality);
    r := Some([(e.value.frameType << 3) | (e.value.quality << 2)] + data.value);
  }

  /** The mode request and F are skipped; FT and Q head the frame. */
  method ReadHeader(reader: BitReader) returns (e: Option<TocEntry>)
    requires reader.Valid() && reader.pos == 0
    modifies reader
    ensures reader.Valid() && (e == None <==> |reader.bits| < 10)
    ensures e.Some? ==>
              && reader.pos == 10
              && e.value == TocEntry(Value(reader.bits[5..9]), Value(reader.bits[9..10]))
  {
    var cmr := reader.Read(4);
    if cmr == None {
      return None;
    }
    var f := reader.Read(1);
    if f == None {
      return None;
    }
    var frameType := reader.Read(4);
    if frameType == None {
      return None;
    }
    var quality := reader.Read(1);
    if quality == None {
      return None;
    }
    e := Some(TocEntry(frameType.value, quality.value));
  }

  lemma {:induction false} HeaderOctet(frameType: byte, quality: byte)
    ensures (frameType << 3) | (quality << 2) == EntryOctet(TocEntry(frameType, quality), false)
  {}

  method FrameToPayload(frame: seq<byte>, kind: AmrKind, octetAligned: bool) returns (r: Option<seq<byte>>)
    ensures r == PayloadOfFrame(frame, kind, octetAligned)
  {
    if frame == [] {
      return None;
    }
    var frameType := (frame[0] >> 3) & 0x0f;
    var quality := (frame[0] >> 2) & 1;
    if !Known(SpeechSizes(kind), frameType) {
      return None;
    }
    if octetAligned {
      return Some([CMR_NO_REQUEST << 4] + frame);
    }
    var n := SizeOf(SpeechSizes(kind), frameType);
    var speech := frame[1..];
    if |speech| < Ceil8(n) {
      return None;
    }
    r := WriteFrame(frameType, quality, speech, n);
  }

  method WriteFrame(frameType: byte, quality: byte, speech: seq<byte>, n: nat) returns (r: Option<seq<byte>>)
    requires n <= 8 * |speech|
    ensures r == Some(Pack(BitsOfFrame(TocEntry(frameType, quality), speech, n)))
  {
    var writer := new BitWriter();
    writer.Write(CMR_NO_REQUEST, 4);
    assert writer.stream == Field(CMR_NO_REQUEST, 4);
    WriteEntry(writer, frameType, quality, false);
    writer.WriteBitsFromBytes(speech, n);
    r := Some(writer.bytes);
  }

  // ----- agreement with the forwarding path -----------------------------

  /** A frame in the codec libraries' layout. */
  function Mime(f: Frame): seq<byte> { [EntryOctet(TocEntry(f.frameType, f.quality), false)] + f.bits }

  predicate SpeechFrame(f: Frame, kind: AmrKind) {
    Known(SpeechSizes(kind), f.frameType) && CanonicalFrame(f, FrameSizes(kind))
  }

  lemma {:induction false} SpeechSizeOf(kind: AmrKind, ft: byte)
    requires Known(SpeechSizes(kind), ft)
    ensures Known(FrameSizes(kind), ft) && SizeOf(FrameSizes(kind), ft) == SizeOf(SpeechSizes(kind), ft)
  {}

  /** On a one-frame bit string the decoder reads exactly what the repacker parses. */
  lemma {:induction false} FrameOfParse(s: seq<bool>, sizes: Sizes, speech: Sizes)
    requires ParseBits(s, sizes).Some? && |ParseBits(s, sizes).value.0.frames| == 1
    requires var ft := ParseBits(s, sizes).value.0.frames[0].frameType;
             Known(speech, ft) && Known(sizes, ft) && SizeOf(speech, ft) == SizeOf(sizes, ft)
    ensures FrameOfBits(s, speech) == Some(Mime(ParseBits(s, sizes).value.0.frames[0]))
  {
    var (toc, rest) := ParseTocBits(s[4..]).value;
    TocBitsOfParse(s[4..]);
    DataBitsOfParse(rest, toc, sizes);
    assert |toc| == 1;
    var n := SizeOf(sizes, toc[0].frameType);
    assert s[4..][1..5] == s[5..9] && s[4..][5..6] == s[9..10] && rest == s[10..];
    assert rest[..n] == s[10..10 + n];
  }

  /** What encoding a storage frame gives. */
  lemma {:induction false} EncodedFrame(f: Frame, kind: AmrKind, octetAligned: bool)
    requires SpeechFrame(f, kind)
    ensures PayloadOfFrame(Mime(f), kind, octetAligned) == Build(Packet(CMR_NO_REQUEST, [f]), kind, octetAligned)
    ensures PayloadOfFrame(Mime(f), kind, octetAligned).Some?
  {
    var p, e := Packet(CMR_NO_REQUEST, [f]), TocEntry(f.frameType, f.quality);
    EntryOctetRead(e, false);
    SpeechSizeOf(kind, f.frameType);
    OneFramePacket(p, FrameSizes(kind));
    assert Mime(f)[1..] == f.bits;
    if octetAligned {
      assert [p.cmr << 4] + Mime(f) == [p.cmr << 4] + [EntryOctet(e, false)] + f.bits;
    }
  }

  lemma {:induction false} DecodedOctets(f: Frame, kind: AmrKind)
    requires SpeechFrame(f, kind)
    ensures FrameOfPayload([CMR_NO_REQUEST << 4] + Mime(f), kind, true) == Some(Mime(f))
  {
    var s := [CMR_NO_REQUEST << 4] + Mime(f);
    EntryOctetRead(TocEntry(f.frameType, f.quality), false);
    SpeechSizeOf(kind, f.frameType);
    assert s[1] == Mime(f)[0] && s[1..] == Mime(f);
  }

  lemma {:induction false} DecodedBits(f: Frame, kind: AmrKind)
    requires SpeechFrame(f, kind) && Build(Packet(CMR_NO_REQUEST, [f]), kind, false).Some?
    ensures FrameOfPayload(Build(Packet(CMR_NO_REQUEST, [f]), kind, false).value, kind, false) == Some(Mime(f))
  {
    var p := Packet(CMR_NO_REQUEST, [f]);
    ParseOfBuild(p, kind, false);
    SpeechSizeOf(kind, f.frameType);
    FrameOfParse(BitsOf(Build(p, kind, false).value), FrameSizes(kind), SpeechSizes(kind));
  }

  /** Decoding inverts encoding for every canonical speech frame, in both packings, and what is
      encoded is the packet of that one frame with no mode request. */
  lemma {:induction false} FrameRoundTrip(f: Frame, kind: AmrKind, octetAligned: bool)
    requires SpeechFrame(f, kind)
    ensures PayloadOfFrame(Mime(f), kind, octetAligned) == Build(Packet(CMR_NO_REQUEST, [f]), kind, octetAligned)
    ensures PayloadOfFrame(Mime(f), kind, octetAligned).Some?
    ensures FrameOfPayload(PayloadOfFrame(Mime(f), kind, octetAligned).value, kind, octetAligned) == Some(Mime(f))
  {
    EncodedFrame(f, kind, octetAligned);
    if octetAligned {
      DecodedOctets(f, kind);
    } else {
      DecodedBits(f, kind);
    }
  }

  lemma {:induction false} OneFramePacket(p: Packet, sizes: Sizes)
    requires |p.frames| == 1 && CanonicalFrame(p.frames[0], sizes)
    ensures var f := p.frames[0];
            var e := TocEntry(f.frameType, f.quality);
            && PacketOctets(p, sizes) == Some([p.cmr << 4] + [EntryOctet(e, false)] + f.bits)
            && PacketBits(p, sizes)
               == Some(Field(p.cmr, 4) + EntryBits(e, false) + BitsOf(f.bits)[..SizeOf(sizes, f.frameType)])
  {
    var f := p.frames[0];
    var e := TocEntry(f.frameType, f.quality);
    assert p.frames == [f] + [] && Toc(p.frames) == [e];
    DataOctetsCons(f, [], sizes, SizeOf(sizes, f.frameType));
    DataBitsCons(f, [], sizes, SizeOf(sizes, f.frameType));
    assert f.bits[..|f.bits|] + [] == f.bits;
    assert BitsOf(f.bits)[..SizeOf(sizes, f.frameType)] + [] == BitsOf(f.bits)[..SizeOf(sizes, f.frameType)];
    assert TocOctets([e]) == [EntryOctet(e, false)] && TocBits([e]) == EntryBits(e, false);
  }

  /** The forwarding and decoding paths on an octet-aligned payload of one speech frame. Decoding the
      payload and decoding its bandwidth-efficient repacking give the same frame exactly when the
      reserved bits of the table-of-contents octet and the frame's padding are zero. */
  lemma {:induction false} PathsAgree(s: seq<byte>, kind: AmrKind)
    requires Parse(s, kind, true).Some? && |Parse(s, kind, true).value.frames| == 1
    requires Known(SpeechSizes(kind), Parse(s, kind, true).value.frames[0].frameType)
    ensures |s| >= 2 && Repack(s, kind, true, false).Some?
    ensures var n := SizeOf(SpeechSizes(kind), OctetEntry(s[1]).frameType);
            var be := Repack(s, kind, true, false).value;
            && FrameOfPayload(s, kind, true).Some? && FrameOfPayload(be, kind, false).Some?
            && (FrameOfPayload(s, kind, true) == FrameOfPayload(be, kind, false)
                <==> s[1] & 0x03 == 0 && Canonical(s[2..], n) == s[2..])
  {
    RepackPreserves(s, kind, true, false);
    var be := Repack(s, kind, true, false).value;
    OneFrameOctets(s, FrameSizes(kind));
    var e := OctetEntry(s[1]);
    SpeechSizeOf(kind, e.frameType);
    FrameOfParse(BitsOf(be), FrameSizes(kind), SpeechSizes(kind));
    var n := SizeOf(SpeechSizes(kind), e.frameType);
    assert FrameOfPayload(be, kind, false) == Some([s[1] & 0xfc] + Canonical(s[2..], n)) by { ReadEntryOctet(s[1]); }
    SameFrame(s, n);
  }

  /** A 4.75 kbit/s frame of zeros with the reserved bits of its table octet set. */
  function ReservedBitsSet(): (s: seq<byte>)
    ensures |s| == 14
  {
    [0xf0, 0x07] + seq(12, _ => 0)
  }

  lemma {:induction false} ReservedTable(s: seq<byte>)
    requires s == ReservedBitsSet()
    ensures s[1] == 0x07 && OctetEntry(s[1]) == TocEntry(0, 1)
    ensures ParseTocOctets(s[1..]) == Some(([TocEntry(0, 1)], s[2..]))
  {
    assert s[1] == 0x07 && s[1..][1..] == s[2..];
    assert (0x07 as byte >> 3) & 0x0f == 0 && (0x07 as byte >> 2) & 1 == 1 && 0x07 as byte & 0x80 == 0;
  }

  lemma {:induction false} ReservedParses(s: seq<byte>)
    requires s == ReservedBitsSet()
    ensures Parse(s, Nb, true).Some? && |Parse(s, Nb, true).value.frames| == 1
    ensures Parse(s, Nb, true).value.frames[0].frameType == 0
  {
    ReservedTable(s);
    var toc, rest, sizes := [TocEntry(0, 1)], s[2..], FrameSizes(Nb);
    assert Known(sizes, 0) && SizeOf(sizes, 0) == 95 && Ceil8(95) == 12;
    assert rest[12..] == [] && toc[1..] == [];
    assert ParseDataOctets([], [], sizes) == Some(([], []));
  }

  /** The two paths do differ: decoding keeps the reserved bits that repacking clears. */
  lemma {:induction false} PathsDiffer()
    ensures var s := ReservedBitsSet();
            && Repack(s, Nb, true, false).Some?
            && FrameOfPayload(s, Nb, true).Some?
            && FrameOfPayload(Repack(s, Nb, true, false).value, Nb, false).Some?
            && FrameOfPayload(s, Nb, true) != FrameOfPayload(Repack(s, Nb, true, false).value, Nb, false)
  {
    var s := ReservedBitsSet();
    ReservedParses(s);
    ReservedTable(s);
    PathsAgree(s, Nb);
    assert s[1] & 0x03 != 0;
  }

  lemma {:induction false} SameFrame(s: seq<byte>, n: nat)
    requires |s| >= 2
    ensures s[1..] == [s[1] & 0xfc] + Canonical(s[2..], n) <==> s[1] & 0x03 == 0 && Canonical(s[2..], n) == s[2..]
  {
    assert s[1..] == [s[1]] + s[2..];
    ReservedBits(s[1]);
    SameParts(s[1], s[1] & 0xfc, s[2..], Canonical(s[2..], n));
  }

  lemma {:induction false} SameParts(a: byte, b: byte, s: seq<byte>, t: seq<byte>)
    ensures [a] + s == [b] + t <==> a == b && s == t
  {
    if [a] + s == [b] + t {
      assert ([a] + s)[0] == a && ([a] + s)[1..] == s && ([b] + t)[1..] == t;
    }
  }

  lemma {:induction false} ReservedBits(b: byte)
    ensures b & 0xfc == b <==> b & 0x03 == 0
  {}

  lemma {:induction false} OneFrameOctets(s: seq<byte>, sizes: Sizes)
    requires ParseOctets(s, sizes).Some? && |ParseOctets(s, sizes).value.frames| == 1
    ensures |s| >= 2 && s[1] & 0x80 == 0
    ensures Known(sizes, OctetEntry(s[1]).frameType)
    ensures var e := OctetEntry(s[1]);
            ParseOctets(s, sizes).value.frames[0]
            == Frame(e.frameType, e.quality, Canonical(s[2..], SizeOf(sizes, e.frameType)))
  {
    var (toc, rest) := ParseTocOctets(s[1..]).value;
    TocOctetsOfParse(s[1..]);
    DataOctetsOfParse(rest, toc, sizes);
    assert |toc| == 1 && rest == s[2..];
    var n := SizeOf(sizes, toc[0].frameType);
    assert rest[..Ceil8(n)] == rest;
  }
}
