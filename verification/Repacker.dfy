/** The loops of `amr_forward/repack.rs`, each proved to compute the function that specifies it. */
module Repacker {
  import opened Wrappers
  import opened Bits
  import opened BitIo
  import opened Amr
  import opened Repacking

  /** A scan result with the entries already read put in front. */
  ghost function Prepend<E, T>(done: seq<E>, r: Option<(seq<E>, T)>): Option<(seq<E>, T)> {
    match r
    case None => None
    case Some((more, rest)) => Some((done + more, rest))
  }

  lemma {:induction false} PrependNil<E, T>(r: Option<(seq<E>, T)>)
    ensures Prepend([], r) == r
  {
    match r
    case None =>
    case Some((more, _)) => assert [] + more == more;
  }

  lemma {:induction false} PrependCons<E, T>(done: seq<E>, e: E, r: Option<(seq<E>, T)>)
    ensures Prepend(done, Prepend([e], r)) == Prepend(done + [e], r)
  {
    match r
    case None =>
    case Some((more, rest)) => assert done + ([e] + more) == done + [e] + more;
  }

  method ParseOctetAligned(payload: seq<byte>, kind: AmrKind) returns (r: Option<Packet>)
    ensures r == Parse(payload, kind, true)
  {
    if payload == [] {
      return None;
    }
    var cmr := payload[0] >> 4;
    var toc: seq<TocEntry> := [];
    var at := 1;
    PrependNil(ParseTocOctets(payload[1..]));
    while true
      invariant 1 <= at <= |payload|
      invariant ParseTocOctets(payload[1..]) == Prepend(toc, ParseTocOctets(payload[at..]))
      decreases |payload| - at
    {
      if at >= |payload| {
        return None;
      }
      var entry := payload[at];
      ghost var rest := payload[at..];
      at := at + 1;
      assert rest[1..] == payload[at..];
      PrependCons(toc, OctetEntry(entry), ParseTocOctets(payload[at..]));
      toc := toc + [OctetEntry(entry)];
      if entry & 0x80 == 0 {
        break;
      }
    }
    assert ParseTocOctets(payload[1..]) == Some((toc, payload[at..]));
    var frames := FramesOctetAligned(payload, at, toc, FrameSizes(kind));
    if frames == None {
      return None;
    }
    at := frames.value.1;
    r := if at == |payload| then Some(Packet(cmr, frames.value.0)) else None;
  }

  lemma {:induction false} FrameStepOctets(payload: seq<byte>, at: nat, e: TocEntry, toc: seq<TocEntry>, sizes: Sizes,
                                           n: nat)
    requires Known(sizes, e.frameType) && SizeOf(sizes, e.frameType) == n && at + Ceil8(n) <= |payload|
    ensures ParseDataOctets(payload[at..], [e] + toc, sizes)
            == Prepend([Frame(e.frameType, e.quality, Canonical(payload[at..at + Ceil8(n)], n))],
                       ParseDataOctets(payload[at + Ceil8(n)..], toc, sizes))
  {
    var s := payload[at..];
    assert s[..Ceil8(n)] == payload[at..at + Ceil8(n)] && s[Ceil8(n)..] == payload[at + Ceil8(n)..];
    assert ([e] + toc)[1..] == toc;
  }

  lemma {:induction false} NoFrameOctets(payload: seq<byte>, at: nat, e: TocEntry, toc: seq<TocEntry>, sizes: Sizes,
                                         frames: seq<Frame>)
    requires at <= |payload|
    requires Known(sizes, e.frameType) ==> at + Ceil8(SizeOf(sizes, e.frameType)) > |payload|
    ensures Prepend(frames, ParseDataOctets(payload[at..], [e] + toc, sizes)) == None
  {}

  lemma {:induction false} MoreOctets(payload: seq<byte>, at: nat, e: TocEntry, toc: seq<TocEntry>, sizes: Sizes,
                                      n: nat, frames: seq<Frame>)
    requires Known(sizes, e.frameType) && SizeOf(sizes, e.frameType) == n && at + Ceil8(n) <= |payload|
    ensures var f := Frame(e.frameType, e.quality, Canonical(payload[at..at + Ceil8(n)], n));
            Prepend(frames, ParseDataOctets(payload[at..], [e] + toc, sizes))
            == Prepend(frames + [f], ParseDataOctets(payload[at + Ceil8(n)..], toc, sizes))
  {
    var f := Frame(e.frameType, e.quality, Canonical(payload[at..at + Ceil8(n)], n));
    FrameStepOctets(payload, at, e, toc, sizes, n);
    PrependCons(frames, f, ParseDataOctets(payload[at + Ceil8(n)..], toc, sizes));
  }

  /** The frame at `at` and where it ends. */
  function FrameOctetAligned(payload: seq<byte>, at: nat, e: TocEntry, sizes: Sizes): Option<(Frame, nat)> {
    if !Known(sizes, e.frameType) then None
    else
      var bits := SizeOf(sizes, e.frameType);
      var len := Ceil8(bits);
      if at + len > |payload| then None
      else Some((Frame(e.frameType, e.quality, Canonical(payload[at..at + len], bits)), at + len))
  }

  /** One turn of the octet-aligned frame loop. */
  lemma {:induction false} TurnOctets(payload: seq<byte>, at: nat, e: TocEntry, toc: seq<TocEntry>, sizes: Sizes,
                                      frames: seq<Frame>)
    requires at <= |payload|
    ensures var all := Prepend(frames, ParseDataOctets(payload[at..], [e] + toc, sizes));
            match FrameOctetAligned(payload, at, e, sizes)
            case None => all == None
            case Some((f, next)) =>
              at <= next <= |payload| && all == Prepend(frames + [f], ParseDataOctets(payload[next..], toc, sizes))
  {
    if !Known(sizes, e.frameType) || at + Ceil8(SizeOf(sizes, e.frameType)) > |payload| {
      NoFrameOctets(payload, at, e, toc, sizes, frames);
    } else {
      MoreOctets(payload, at, e, toc, sizes, SizeOf(sizes, e.frameType), frames);
    }
  }

  lemma {:induction false} NoMoreOctets(payload: seq<byte>, at: nat, sizes: Sizes, frames: seq<Frame>)
    requires at <= |payload|
    ensures Prepend(frames, ParseDataOctets(payload[at..], [], sizes)) == Some((frames, payload[at..]))
  {
    assert frames + [] == frames;
  }

  lemma {:induction false} NoMoreBits(s: seq<bool>, sizes: Sizes, frames: seq<Frame>)
    ensures Prepend(frames, ParseDataBits(s, [], sizes)) == Some((frames, s))
  {
    assert frames + [] == frames;
  }

  lemma {:induction false} FrameStepBits(bits: seq<bool>, at: nat, e: TocEntry, toc: seq<TocEntry>, sizes: Sizes,
                                         n: nat)
    requires Known(sizes, e.frameType) && SizeOf(sizes, e.frameType) == n && at + n <= |bits|
    ensures ParseDataBits(bits[at..], [e] + toc, sizes)
            == Prepend([Frame(e.frameType, e.quality, Pack(bits[at..at + n]))],
                       ParseDataBits(bits[at + n..], toc, sizes))
  {
    var s := bits[at..];
    assert s[..n] == bits[at..at + n] && s[n..] == bits[at + n..];
    assert ([e] + toc)[1..] == toc;
  }

  /** The frame loop of the octet-aligned parser; also returns where it stopped. */
  method FramesOctetAligned(payload: seq<byte>, start: nat, toc: seq<TocEntry>, sizes: Sizes)
    returns (r: Option<(seq<Frame>, nat)>)
    requires start <= |payload|
    ensures r.None? <==> ParseDataOctets(payload[start..], toc, sizes) == None
    ensures r.Some? ==> start <= r.value.1 <= |payload|
                        && ParseDataOctets(payload[start..], toc, sizes)
                           == Some((r.value.0, payload[r.value.1..]))
  {
    var frames: seq<Frame> := [];
    var at := start;
    PrependNil(ParseDataOctets(payload[start..], toc, sizes));
    assert toc[0..] == toc;
    for i := 0 to |toc|
      invariant start <= at <= |payload|
      invariant ParseDataOctets(payload[start..], toc, sizes)
                == Prepend(frames, ParseDataOctets(payload[at..], toc[i..], sizes))
    {
      assert toc[i..] == [toc[i]] + toc[i + 1..];
      TurnOctets(payload, at, toc[i], toc[i + 1..], sizes, frames);
      var f := FrameOctetAligned(payload, at, toc[i], sizes);
      if f == None {
        return None;
      }
      frames, at := frames + [f.value.0], f.value.1;
    }
    assert toc[|toc|..] == [];
    NoMoreOctets(payload, at, sizes, frames);
    r := Some((frames, at));
  }

  method ParseBandwidthEfficient(payload: seq<byte>, kind: AmrKind) returns (r: Option<Packet>)
    ensures r == Parse(payload, kind, false)
  {
    var reader := new BitReader(payload);
    ghost var bits := reader.bits;
    var cmr := reader.Read(4);
    if cmr == None {
      return None;
    }
    var toc := ReadToc(reader);
    if toc == None {
      return None;
    }
    var frames := FramesBandwidthEfficient(reader, toc.value, FrameSizes(kind));
    r := match frames
      case None => None
      case Some(fs) => Some(Packet(cmr.value, fs));
  }

  /** The table of contents: entries up to one that no other follows. */
  method ReadToc(reader: BitReader) returns (r: Option<seq<TocEntry>>)
    requires reader.Valid()
    modifies reader
    ensures reader.Valid()
    ensures r == None ==> ParseTocBits(reader.bits[old(reader.pos)..]) == None
    ensures r.Some? ==> ParseTocBits(reader.bits[old(reader.pos)..]) == Some((r.value, reader.bits[reader.pos..]))
  {
    ghost var bits, start := reader.bits, reader.pos;
    var toc: seq<TocEntry> := [];
    PrependNil(ParseTocBits(bits[start..]));
    while true
      invariant reader.Valid() && reader.bits == bits
      invariant ParseTocBits(bits[start..]) == Prepend(toc, ParseTocBits(bits[reader.pos..]))
      decreases |bits| - reader.pos
    {
      var e, follow := NextEntry(reader, toc);
      if e == None {
        return None;
      }
      toc := toc + [e.value];
      if !follow {
        return Some(toc);
      }
    }
  }

  /** One turn of that loop. */
  method NextEntry(reader: BitReader, ghost toc: seq<TocEntry>) returns (e: Option<TocEntry>, follow: bool)
    requires reader.Valid()
    modifies reader
    ensures reader.Valid()
    ensures var all := Prepend(toc, ParseTocBits(reader.bits[old(reader.pos)..]));
            && (e == None ==> all == None)
            && (e.Some? ==>
                  && old(reader.pos) < reader.pos
                  && all == if follow then Prepend(toc + [e.value], ParseTocBits(reader.bits[reader.pos..]))
                            else Some((toc + [e.value], reader.bits[reader.pos..])))
  {
    ghost var p := reader.pos;
    e, follow := ReadEntry(reader);
    if e.Some? {
      MoreToc(reader.bits, p, toc);
    }
  }

  /** One table-of-contents entry: F, FT and Q. */
  method ReadEntry(reader: BitReader) returns (e: Option<TocEntry>, follow: bool)
    requires reader.Valid()
    modifies reader
    ensures reader.Valid()
    ensures var bits, p := reader.bits, old(reader.pos);
            if p + 6 > |bits| then e == None
            else
              && reader.pos == p + 6 && follow == bits[p]
              && e == Some(TocEntry(Value(bits[p + 1..p + 5]), Value(bits[p + 5..p + 6])))
  {
    ghost var p := reader.pos;
    follow := false;
    var f := reader.Read(1);
    if f == None {
      return None, follow;
    }
    FirstBit(reader.bits, p);
    follow := f.value != 0;
    var ft := reader.Read(4);
    if ft == None {
      return None, follow;
    }
    var q := reader.Read(1);
    if q == None {
      return None, follow;
    }
    e := Some(TocEntry(ft.value, q.value));
  }

  lemma {:induction false} TocStepBits(bits: seq<bool>, p: nat)
    requires p + 6 <= |bits|
    ensures var e := TocEntry(Value(bits[p + 1..p + 5]), Value(bits[p + 5..p + 6]));
            ParseTocBits(bits[p..])
            == if bits[p] then Prepend([e], ParseTocBits(bits[p + 6..])) else Some(([e], bits[p + 6..]))
  {
    SliceOfDrop(bits, p, 1, 5);
    SliceOfDrop(bits, p, 5, 6);
    assert bits[p..][6..] == bits[p + 6..];
  }

  lemma {:induction false} MoreToc(bits: seq<bool>, p: nat, toc: seq<TocEntry>)
    requires p + 6 <= |bits|
    ensures var more := toc + [TocEntry(Value(bits[p + 1..p + 5]), Value(bits[p + 5..p + 6]))];
            Prepend(toc, ParseTocBits(bits[p..]))
            == if bits[p] then Prepend(more, ParseTocBits(bits[p + 6..])) else Some((more, bits[p + 6..]))
  {
    TocStepBits(bits, p);
    PrependCons(toc, TocEntry(Value(bits[p + 1..p + 5]), Value(bits[p + 5..p + 6])), ParseTocBits(bits[p + 6..]));
  }

  lemma {:induction false} OneBit(b: bool)
    ensures Value([b]) == if b then 1 else 0
  {
    ValueSnoc([], b);
    assert [] + [b] == [b];
  }

  lemma {:induction false} FirstBit(bits: seq<bool>, p: nat)
    requires p < |bits|
    ensures Value(bits[p..p + 1]) == if bits[p] then 1 else 0
  {
    assert bits[p..p + 1] == [bits[p]];
    OneBit(bits[p]);
  }

  lemma {:induction false} SliceOfDrop(bits: seq<bool>, p: nat, a: nat, b: nat)
    requires a <= b && p + b <= |bits|
    ensures bits[p..][a..b] == bits[p + a..p + b]
  {}

  /** One turn of the bandwidth-efficient frame loop. */
  method FrameBandwidthEfficient(reader: BitReader, e: TocEntry, sizes: Sizes,
                                 ghost frames: seq<Frame>, ghost toc: seq<TocEntry>)
    returns (r: Option<Frame>)
    requires reader.Valid()
    modifies reader
    ensures reader.Valid()
    ensures var all := Prepend(frames, ParseDataBits(reader.bits[old(reader.pos)..], [e] + toc, sizes));
            && (r.None? ==> all == None)
            && (r.Some? ==> all == Prepend(frames + [r.value], ParseDataBits(reader.bits[reader.pos..], toc, sizes)))
  {
    if !Known(sizes, e.frameType) {
      return None;
    }
    var n := SizeOf(sizes, e.frameType);
    ghost var p := reader.pos;
    var data := reader.ReadBitsToBytes(n);
    if data == None {
      return None;
    }
    FrameStepBits(reader.bits, p, e, toc, sizes, n);
    var f := Frame(e.frameType, e.quality, data.value);
    PrependCons(frames, f, ParseDataBits(reader.bits[p + n..], toc, sizes));
    r := Some(f);
  }

  method FramesBandwidthEfficient(reader: BitReader, toc: seq<TocEntry>, sizes: Sizes)
    returns (r: Option<seq<Frame>>)
    requires reader.Valid()
    modifies reader
    ensures match ParseDataBits(reader.bits[old(reader.pos)..], toc, sizes)
            case None => r == None
            case Some((frames, _)) => r == Some(frames)
  {
    ghost var bits, start := reader.bits, reader.pos;
    var frames: seq<Frame> := [];
    PrependNil(ParseDataBits(bits[start..], toc, sizes));
    assert toc[0..] == toc;
    for i := 0 to |toc|
      invariant reader.Valid() && reader.bits == bits
      invariant ParseDataBits(bits[start..], toc, sizes)
                == Prepend(frames, ParseDataBits(bits[reader.pos..], toc[i..], sizes))
    {
      assert toc[i..] == [toc[i]] + toc[i + 1..];
      var f := FrameBandwidthEfficient(reader, toc[i], sizes, frames, toc[i + 1..]);
      if f == None {
        return None;
      }
      frames := frames + [f.value];
    }
    assert toc[|toc|..] == [];
    NoMoreBits(bits[reader.pos..], sizes, frames);
    r := Some(frames);
  }

  method ParsePayload(payload: seq<byte>, kind: AmrKind, octetAligned: bool) returns (r: Option<Packet>)
    ensures r == Parse(payload, kind, octetAligned)
  {
    if octetAligned {
      r := ParseOctetAligned(payload, kind);
    } else {
      r := ParseBandwidthEfficient(payload, kind);
    }
  }

  // ----- building -------------------------------------------------------

  ghost function After<T>(done: seq<T>, r: Option<seq<T>>): Option<seq<T>> {
    match r
    case None => None
    case Some(more) => Some(done + more)
  }

  lemma {:induction false} AfterNil<T>(r: Option<seq<T>>)
    ensures After([], r) == r
  {
    match r
    case None =>
    case Some(more) => assert [] + more == more;
  }

  lemma {:induction false} AfterAfter<T>(done: seq<T>, more: seq<T>, r: Option<seq<T>>)
    ensures After(done, After(more, r)) == After(done + more, r)
  {
    match r
    case None =>
    case Some(rest) => assert done + (more + rest) == done + more + rest;
  }

  method BuildOctetAligned(p: Packet, kind: AmrKind) returns (r: Option<seq<byte>>)
    ensures r == Build(p, kind, true)
  {
    if p.frames == [] {
      return None;
    }
    var last := |p.frames| - 1;
    ghost var toc := Toc(p.frames);
    var out := [p.cmr << 4];
    assert toc[0..] == toc;
    for i := 0 to |p.frames|
      invariant out + TocOctets(toc[i..]) == [p.cmr << 4] + TocOctets(toc)
    {
      var f := p.frames[i];
      var b := EntryOctet(TocEntry(f.frameType, f.quality), i != last);
      assert toc[i..][1..] == toc[i + 1..];
      assert TocOctets(toc[i..]) == [b] + TocOctets(toc[i + 1..]);
      assert out + ([b] + TocOctets(toc[i + 1..])) == out + [b] + TocOctets(toc[i + 1..]);
      out := out + [b];
    }
    assert toc[|p.frames|..] == [] && out == [p.cmr << 4] + TocOctets(toc);
    r := AppendFrames(out, p.frames, FrameSizes(kind));
  }

  method AppendFrames(start: seq<byte>, frames: seq<Frame>, sizes: Sizes) returns (r: Option<seq<byte>>)
    ensures r == After(start, DataOctets(frames, sizes))
  {
    var out := start;
    assert frames[0..] == frames;
    for i := 0 to |frames|
      invariant After(out, DataOctets(frames[i..], sizes)) == After(start, DataOctets(frames, sizes))
    {
      var f := frames[i];
      assert frames[i..][0] == f && frames[i..][1..] == frames[i + 1..];
      if !Known(sizes, f.frameType) {
        return None;
      }
      var len := Ceil8(SizeOf(sizes, f.frameType));
      if len > |f.bits| {
        return None;
      }
      AfterAfter(out, f.bits[..len], DataOctets(frames[i + 1..], sizes));
      out := out + f.bits[..len];
    }
    assert frames[|frames|..] == [] && out + [] == out;
    r := Some(out);
  }

  method BuildBandwidthEfficient(p: Packet, kind: AmrKind) returns (r: Option<seq<byte>>)
    ensures r == Build(p, kind, false)
  {
    if p.frames == [] {
      return None;
    }
    var writer := new BitWriter();
    writer.Write(p.cmr, 4);
    assert writer.stream == Field(p.cmr, 4);
    WriteToc(writer, p.frames);
    var ok := WriteFrames(writer, p.frames, FrameSizes(kind));
    r := if ok then Some(writer.bytes) else None;
  }

  method WriteToc(writer: BitWriter, frames: seq<Frame>)
    requires writer.Valid() && frames != []
    modifies writer
    ensures writer.Valid()
    ensures writer.stream == old(writer.stream) + TocBits(Toc(frames))
  {
    var last := |frames| - 1;
    ghost var toc := Toc(frames);
    assert toc[0..] == toc;
    for i := 0 to |frames|
      invariant writer.Valid()
      invariant writer.stream + TocBits(toc[i..]) == old(writer.stream) + TocBits(toc)
    {
      ghost var was := writer.stream;
      WriteEntry(writer, frames[i].frameType, frames[i].quality, i != last);
      TocBitsStep(was, toc, i);
    }
    assert toc[|frames|..] == [];
  }

  lemma {:induction false} TocBitsStep(was: seq<bool>, toc: seq<TocEntry>, i: nat)
    requires i < |toc|
    ensures was + TocBits(toc[i..]) == was + EntryBits(toc[i], i != |toc| - 1) + TocBits(toc[i + 1..])
  {
    assert toc[i..][1..] == toc[i + 1..];
  }

  method WriteEntry(writer: BitWriter, frameType: byte, quality: byte, follow: bool)
    requires writer.Valid()
    modifies writer
    ensures writer.Valid()
    ensures writer.stream == old(writer.stream) + EntryBits(TocEntry(frameType, quality), follow)
  {
    var f: byte := if follow then 1 else 0;
    writer.Write(f, 1);
    assert Bit(f, 7) == follow;
    assert Field(f, 1) == [follow];
    writer.Write(frameType, 4);
    writer.Write(quality, 1);
  }

  method WriteFrames(writer: BitWriter, frames: seq<Frame>, sizes: Sizes) returns (ok: bool)
    requires writer.Valid()
    modifies writer
    ensures writer.Valid()
    ensures ok <==> DataBits(frames, sizes).Some?
    ensures ok ==> writer.stream == old(writer.stream) + DataBits(frames, sizes).value
  {
    ghost var start := writer.stream;
    assert frames[0..] == frames;
    for i := 0 to |frames|
      invariant writer.Valid()
      invariant After(writer.stream, DataBits(frames[i..], sizes)) == After(start, DataBits(frames, sizes))
    {
      var f := frames[i];
      assert frames[i..][0] == f && frames[i..][1..] == frames[i + 1..];
      if !Known(sizes, f.frameType) {
        return false;
      }
      var n := SizeOf(sizes, f.frameType);
      if |f.bits| < Ceil8(n) {
        return false;
      }
      AfterAfter(writer.stream, BitsOf(f.bits)[..n], DataBits(frames[i + 1..], sizes));
      writer.WriteBitsFromBytes(f.bits, n);
    }
    assert frames[|frames|..] == [] && writer.stream + [] == writer.stream;
    ok := true;
  }

  method BuildPayload(p: Packet, kind: AmrKind, octetAligned: bool) returns (r: Option<seq<byte>>)
    ensures r == Build(p, kind, octetAligned)
  {
    if octetAligned {
      r := BuildOctetAligned(p, kind);
    } else {
      r := BuildBandwidthEfficient(p, kind);
    }
  }

  method RepackPayload(payload: seq<byte>, kind: AmrKind, from: bool, to: bool) returns (r: Option<seq<byte>>)
    ensures r == Repack(payload, kind, from, to)
  {
    if from == to {
      return Some(payload);
    }
    var p := ParsePayload(payload, kind, from);
    if p == None {
      return None;
    }
    r := BuildPayload(p.value, kind, to);
  }

  // ----- the codec mode request -----------------------------------------

  /** Overwrites the CMR in place; nothing happens to an empty payload. */
  method SetCmr(buf: array<byte>, start: nat, end: nat, cmr: byte)
    requires start <= end <= buf.Length
    modifies buf
    ensures buf[start..end] == WithCmr(old(buf[start..end]), cmr)
    ensures buf[..start] == old(buf[..start]) && buf[end..] == old(buf[end..])
  {
    if start < end {
      buf[start] := (cmr << 4) | (buf[start] & 0x0f);
    }
  }
}
