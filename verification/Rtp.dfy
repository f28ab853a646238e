/** The RTP packet header of section 5.1 of RFC 3550, as `ims/rtp.rs` parses it. */
module Rtp {
  import opened Wrappers
  import opened Bits

  const HEADER_LEN: nat := 12

  /** The payload type and where the payload lies. Sequence number, timestamp and SSRC are
      octets 2 to 11 of the packet and are only ever copied. */
  datatype Parsed = Parsed(payloadType: byte, start: nat, end: nat)

  /** The extension header's length: `start` moves past it, or `None` when it does not fit. */
  function AfterExtension(d: seq<byte>, start: nat): Option<nat>
    requires start <= |d|
  {
    if |d| < start + 4 then None
    else
      var words := 256 * (d[start + 2] as nat) + (d[start + 3] as nat);
      if |d| < start + 4 + 4 * words then None else Some(start + 4 + 4 * words)
  }

  /** The end of the payload once trailing padding is taken off. */
  function BeforePadding(d: seq<byte>, start: nat): Option<nat>
    requires start <= |d| && d != []
  {
    var pad := d[|d| - 1] as nat;
    if pad == 0 || |d| - start < pad then None else Some(|d| - pad)
  }

  /** The fixed header and the contributing sources its first octet counts. */
  function FixedLen(first: byte): nat { HEADER_LEN + 4 * ((first & 0x0f) as nat) }

  function PayloadStart(d: seq<byte>): (r: Option<nat>)
    requires d != []
    ensures r.Some? ==> FixedLen(d[0]) <= r.value <= |d|
  {
    var fixed := FixedLen(d[0]);
    if |d| < fixed then None
    else if d[0] & 0x10 != 0 then AfterExtension(d, fixed) else Some(fixed)
  }

  function ParsePacket(d: seq<byte>): (r: Option<Parsed>)
    ensures r.Some? ==> HEADER_LEN <= r.value.start <= r.value.end <= |d|
  {
    if |d| < HEADER_LEN || d[0] >> 6 != 2 then None
    else match PayloadStart(d)
         case None => None
         case Some(start) =>
           var end := if d[0] & 0x20 != 0 then BeforePadding(d, start) else Some(|d|);
           if end == None then None else Some(Parsed(d[1] & 0x7f, start, end.value))
  }

  function Payload(d: seq<byte>): (r: seq<byte>)
    requires ParsePacket(d).Some?
  {
    d[ParsePacket(d).value.start..ParsePacket(d).value.end]
  }

  function SeqTsSsrc(d: seq<byte>): seq<byte>
    requires |d| >= HEADER_LEN
  {
    d[2..HEADER_LEN]
  }

  /** Marker bit kept, payload type replaced: `(d[1] & 0x80) | (pt & 0x7f)`. */
  function Relabelled(d: seq<byte>, pt: byte): (r: seq<byte>)
    requires |d| >= HEADER_LEN
    ensures |r| == |d|
  {
    d[1 := (d[1] & 0x80) | (pt & 0x7f)]
  }

  /** A packet with a plain header: no padding, extension or contributing sources. */
  function Plain(d: seq<byte>, pt: byte, payload: seq<byte>): seq<byte>
    requires |d| >= HEADER_LEN
  {
    [0x80, (d[1] & 0x80) | (pt & 0x7f)] + SeqTsSsrc(d) + payload
  }

  lemma {:induction false} LabelBits(b: byte, pt: byte)
    ensures ((b & 0x80) | (pt & 0x7f)) & 0x7f == pt & 0x7f
    ensures ((b & 0x80) | (pt & 0x7f)) & 0x80 == b & 0x80
  {}

  lemma {:induction false} SameExtension(d: seq<byte>, e: seq<byte>, fixed: nat, start: nat)
    requires fixed <= |d| == |e| && AfterExtension(d, fixed) == Some(start)
    requires forall i | fixed <= i < start :: e[i] == d[i]
    ensures AfterExtension(e, fixed) == Some(start)
  {
    assert e[fixed + 2] == d[fixed + 2] && e[fixed + 3] == d[fixed + 3];
  }

  lemma {:induction false} SameStart(d: seq<byte>, e: seq<byte>)
    requires d != [] && |e| == |d| && e[0] == d[0] && PayloadStart(d).Some?
    requires forall i | 2 <= i < PayloadStart(d).value :: e[i] == d[i]
    ensures PayloadStart(e) == PayloadStart(d)
  {
    if d[0] & 0x10 != 0 { SameExtension(d, e, FixedLen(d[0]), PayloadStart(d).value); }
  }

  lemma {:induction false} SamePadding(d: seq<byte>, e: seq<byte>, start: nat)
    requires start <= |d| == |e| && d != [] && e[|d| - 1] == d[|d| - 1]
    ensures BeforePadding(e, start) == BeforePadding(d, start)
  {}

  /** Two packets that agree on octet 0, from octet 2 up to the payload, and on the last octet when
      there is padding, have their payload in the same place. */
  lemma {:induction false} SameShape(d: seq<byte>, e: seq<byte>)
    requires ParsePacket(d).Some? && |e| == |d| && e[0] == d[0]
    requires var p := ParsePacket(d).value;
             && (forall i | 2 <= i < p.start :: e[i] == d[i])
             && (d[0] & 0x20 != 0 ==> e[|d| - 1] == d[|d| - 1])
    ensures ParsePacket(e) == Some(ParsePacket(d).value.(payloadType := e[1] & 0x7f))
  {
    SameStart(d, e);
    if d[0] & 0x20 != 0 { SamePadding(d, e, PayloadStart(d).value); }
  }

  lemma {:induction false} RelabelledParses(d: seq<byte>, pt: byte)
    requires ParsePacket(d).Some?
    ensures ParsePacket(Relabelled(d, pt)) == Some(ParsePacket(d).value.(payloadType := pt & 0x7f))
    ensures Payload(Relabelled(d, pt)) == Payload(d)
    ensures SeqTsSsrc(Relabelled(d, pt)) == SeqTsSsrc(d)
    ensures Relabelled(d, pt)[1] & 0x80 == d[1] & 0x80
  {
    LabelBits(d[1], pt);
    SameShape(d, Relabelled(d, pt));
  }

  lemma {:induction false} PlainParses(d: seq<byte>, pt: byte, payload: seq<byte>)
    requires |d| >= HEADER_LEN
    ensures var out := Plain(d, pt, payload);
            && ParsePacket(out) == Some(Parsed(pt & 0x7f, HEADER_LEN, |out|))
            && Payload(out) == payload && SeqTsSsrc(out) == SeqTsSsrc(d) && out[1] & 0x80 == d[1] & 0x80
  {
    var out := Plain(d, pt, payload);
    LabelBits(d[1], pt);
    assert out[0] == 0x80 && (0x80 as byte) >> 6 == 2 && (0x80 as byte) & 0x0f == 0;
    assert ((0x80 as byte) & 0x0f) as nat == 0;
    assert out[1] & 0x7f == pt & 0x7f;
    assert out[HEADER_LEN..] == payload && out[2..HEADER_LEN] == SeqTsSsrc(d);
  }

  /** The packet with its payload overwritten in place. */
  function WithPayload(d: seq<byte>, s: seq<byte>): (r: seq<byte>)
    requires ParsePacket(d).Some? && |s| == |Payload(d)|
    ensures |r| == |d|
  {
    d[..ParsePacket(d).value.start] + s + d[ParsePacket(d).value.end..]
  }

  /** Overwriting the payload moves neither its start nor its end: a padding count sits after it. */
  lemma {:induction false} PayloadIsNotHeader(d: seq<byte>, s: seq<byte>)
    requires ParsePacket(d).Some? && |s| == |Payload(d)|
    ensures var e := WithPayload(d, s);
            ParsePacket(e) == ParsePacket(d) && Payload(e) == s && SeqTsSsrc(e) == SeqTsSsrc(d) && e[1] == d[1]
  {
    SameShape(d, WithPayload(d, s));
  }
}
