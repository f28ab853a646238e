/** What a forwarded call does to each datagram: the mode guard and the translation of
    `amr_forward/relay.rs` as functions, and what holds of every packet. */
module Relay {
  import opened Wrappers
  import opened Bits
  import opened Amr
  import opened Repacking
  import opened ModeMask
  import opened Rtp

  datatype LegConfig = LegConfig(pt: byte, dtmf: Option<byte>, octetAligned: bool)

  datatype ModeGuard = ModeGuard(modes: Mask, drop: bool)

  /** The guard's counters. Counts are mathematical; the source keeps them in 64 bits. */
  datatype Counters = Counters(cmrClamped: nat, framesSeen: nat, outOfSet: nat, dropped: nat)

  /** One direction of the relay. `fromCarrier` is the source's direction `a->b`. */
  datatype Direction =
    Direction(kind: AmrKind, src: LegConfig, dst: LegConfig, guard: Option<ModeGuard>, fromCarrier: bool)

  function CountBad(modes: seq<byte>, mask: Mask): (n: nat)
    ensures n <= |modes|
  {
    if modes == [] then 0 else (if Allows(mask, modes[0]) then 0 else 1) + CountBad(modes[1..], mask)
  }

  /** The payload asks for a mode outside the set. CMR 15, "no request", is outside every AMR set. */
  predicate NeedsClamp(s: seq<byte>, mask: Mask) { s != [] && !Allows(mask, CmrOf(s).value) }

  predicate Audio(c: Direction, d: seq<byte>) {
    ParsePacket(d).Some? && ParsePacket(d).value.payloadType == c.src.pt
  }

  /** Policing the speech modes a client packet lists: the counters after it, and whether it goes on. */
  function Policed(g: ModeGuard, k: Counters, listed: Option<seq<byte>>): (Counters, bool) {
    match listed
    case None => (k, true)
    case Some(modes) =>
      var bad := CountBad(modes, g.modes);
      var seen := k.(framesSeen := k.framesSeen + |modes|);
      if bad == 0 then (seen, true)
      else
        var counted := seen.(outOfSet := k.outOfSet + bad);
        if g.drop then (counted.(dropped := k.dropped + |modes|), false) else (counted, true)
  }

  /** The mode guard: the packet it leaves, the counters after it, and whether the packet goes on. */
  function Guarded(c: Direction, k: Counters, d: seq<byte>): (seq<byte>, Counters, bool)
    requires c.guard.Some? ==> c.guard.value.modes != 0
  {
    if c.guard == None || !Audio(c, d) then (d, k, true)
    else if c.fromCarrier then
      var mask := c.guard.value.modes;
      if NeedsClamp(Payload(d), mask)
      then (WithPayload(d, WithCmr(Payload(d), Highest(mask))), k.(cmrClamped := k.cmrClamped + 1), true)
      else (d, k, true)
    else
      var (after, pass) := Policed(c.guard.value, k, ListedModes(Payload(d), c.kind, c.src.octetAligned));
      (d, after, pass)
  }

  /** Relabel and, if the legs pack differently, repack; `None` drops the packet. */
  function Translated(c: Direction, d: seq<byte>): Option<seq<byte>>
    requires |d| >= HEADER_LEN
  {
    var pt := d[1] & 0x7f;
    if Some(pt) == c.src.dtmf then
      match c.dst.dtmf case None => None case Some(to) => Some(Relabelled(d, to))
    else if pt != c.src.pt then None
    else if c.src.octetAligned == c.dst.octetAligned then Some(Relabelled(d, c.dst.pt))
    else Rebuilt(d, c.kind, c.src.octetAligned, c.dst.octetAligned, c.dst.pt)
  }

  /** The datagram with its payload repacked, under a plain header. */
  function Rebuilt(d: seq<byte>, kind: AmrKind, from: bool, to: bool, pt: byte): Option<seq<byte>>
    requires |d| >= HEADER_LEN
  {
    if ParsePacket(d) == None then None
    else match Repack(Payload(d), kind, from, to)
         case None => None
         case Some(payload) => Some(Plain(d, pt, payload))
  }

  /** A received datagram on an open direction: the counters after it and what is handed on. */
  function Forward(c: Direction, k: Counters, d: seq<byte>): (Counters, Option<seq<byte>>)
    requires c.guard.Some? ==> c.guard.value.modes != 0
  {
    if ParsePacket(d) == None then (k, None)
    else
      var (guarded, after, pass) := Guarded(c, k, d);
      (after, if pass && |guarded| >= HEADER_LEN then Translated(c, guarded) else None)
  }

  /** A leg's telephone-event type is not its audio type. */
  predicate Distinct(leg: LegConfig) { leg.dtmf != Some(leg.pt) }

  // ----- one packet -----------------------------------------------------

  /** The header a forwarded packet must have: marker, sequence number, timestamp and SSRC
      untouched, the receiving leg's payload type. */
  predicate SameStream(d: seq<byte>, out: seq<byte>, pt: byte) {
    && ParsePacket(d).Some? && ParsePacket(out).Some?
    && ParsePacket(out).value.payloadType == pt & 0x7f
    && SeqTsSsrc(out) == SeqTsSsrc(d)
    && out[1] & 0x80 == d[1] & 0x80
  }

  /** Translation of an audio packet: header kept, payload the same packet in the other packing. */
  lemma {:induction false} TranslatedAudio(c: Direction, d: seq<byte>)
    requires Audio(c, d) && Distinct(c.src) && Translated(c, d).Some?
    ensures var out := Translated(c, d).value;
            && SameStream(d, out, c.dst.pt)
            && Repack(Payload(d), c.kind, c.src.octetAligned, c.dst.octetAligned) == Some(Payload(out))
  {
    if c.src.octetAligned == c.dst.octetAligned {
      RelabelledParses(d, c.dst.pt);
    } else {
      PlainParses(d, c.dst.pt, Repack(Payload(d), c.kind, c.src.octetAligned, c.dst.octetAligned).value);
    }
  }

  /** Telephone events cross byte for byte apart from their label; everything else is dropped. */
  lemma {:induction false} TranslatedEvent(c: Direction, d: seq<byte>)
    requires ParsePacket(d).Some? && !Audio(c, d) && Translated(c, d).Some?
    ensures Some(ParsePacket(d).value.payloadType) == c.src.dtmf && c.dst.dtmf.Some?
    ensures var out := Translated(c, d).value;
            SameStream(d, out, c.dst.dtmf.value) && Payload(out) == Payload(d)
  {
    RelabelledParses(d, c.dst.dtmf.value);
  }

  /** The frames of a payload, whatever its CMR. */
  function Frames(s: seq<byte>, kind: AmrKind, octetAligned: bool): Option<seq<Frame>> {
    match Parse(s, kind, octetAligned) case None => None case Some(p) => Some(p.frames)
  }

  lemma {:induction false} ClampedPayload(s: seq<byte>, mask: Mask, kind: AmrKind, octetAligned: bool)
    requires mask != 0 && s != []
    ensures var t := WithCmr(s, Highest(mask));
            && t != [] && !NeedsClamp(t, mask)
            && Frames(t, kind, octetAligned) == Frames(s, kind, octetAligned)
  {
    HighestIsMaximum(mask, 0);
    WithCmrParse(s, Highest(mask), kind, octetAligned);
  }

  /** What the guard does to a carrier packet: at most the CMR nibble changes, and afterwards it is
      a mode of the carrier's set. */
  lemma {:induction false} GuardedCarrier(c: Direction, k: Counters, d: seq<byte>)
    requires c.fromCarrier && c.guard.Some? && c.guard.value.modes != 0 && Audio(c, d)
    ensures var (e, after, pass) := Guarded(c, k, d);
            && pass && |e| == |d| && ParsePacket(e) == ParsePacket(d)
            && SeqTsSsrc(e) == SeqTsSsrc(d) && e[1] == d[1]
            && !NeedsClamp(Payload(e), c.guard.value.modes)
            && Frames(Payload(e), c.kind, c.src.octetAligned) == Frames(Payload(d), c.kind, c.src.octetAligned)
            && after == k.(cmrClamped := after.cmrClamped)
  {
    var s, mask := Payload(d), c.guard.value.modes;
    if NeedsClamp(s, mask) {
      ClampedPayload(s, mask, c.kind, c.src.octetAligned);
      PayloadIsNotHeader(d, WithCmr(s, Highest(mask)));
    }
  }

  /** Carrier to client: every forwarded audio packet keeps its stream identity, takes the client's
      payload type, asks only for modes of the carrier's set, and carries the same frames. */
  lemma {:induction false} CarrierToClient(c: Direction, k: Counters, d: seq<byte>)
    requires c.fromCarrier && c.guard.Some? && c.guard.value.modes != 0
    requires Audio(c, d) && Distinct(c.src) && Forward(c, k, d).1.Some?
    ensures var out := Forward(c, k, d).1.value;
            && SameStream(d, out, c.dst.pt)
            && !NeedsClamp(Payload(out), c.guard.value.modes)
            && (Frames(Payload(d), c.kind, c.src.octetAligned).Some? ==>
                  Frames(Payload(out), c.kind, c.dst.octetAligned) == Frames(Payload(d), c.kind, c.src.octetAligned))
  {
    var (e, after, pass) := Guarded(c, k, d);
    GuardedCarrier(c, k, d);
    TranslatedAudio(c, e);
    var from, to := c.src.octetAligned, c.dst.octetAligned;
    if from != to {
      RepackPreserves(Payload(e), c.kind, from, to);
      CmrOfParse(Payload(e), c.kind, from);
      CmrOfParse(Payload(Translated(c, e).value), c.kind, to);
    }
  }

  ghost predicate InSet(modes: seq<byte>, mask: Mask) { forall i | 0 <= i < |modes| :: Allows(mask, modes[i]) }

  ghost function BadIndices(modes: seq<byte>, mask: Mask): set<nat> {
    set i: nat | i < |modes| && !Allows(mask, modes[i])
  }

  /** The guard's count is the number of listed frames outside the set. */
  lemma {:induction false} CountBadCounts(modes: seq<byte>, mask: Mask)
    ensures CountBad(modes, mask) == |BadIndices(modes, mask)|
    ensures CountBad(modes, mask) == 0 <==> InSet(modes, mask)
  {
    if modes == [] {
      assert BadIndices(modes, mask) == {};
    } else {
      var init, m := modes[..|modes| - 1], modes[|modes| - 1];
      assert modes == init + [m];
      CountBadCounts(init, mask);
      CountBadSnoc(init, m, mask);
      BadIndicesSnoc(init, m, mask);
    }
  }

  lemma {:induction false} BadIndicesSnoc(modes: seq<byte>, m: byte, mask: Mask)
    ensures |BadIndices(modes + [m], mask)| == |BadIndices(modes, mask)| + if Allows(mask, m) then 0 else 1
    ensures InSet(modes + [m], mask) <==> InSet(modes, mask) && Allows(mask, m)
  {
    var all, was := modes + [m], BadIndices(modes, mask);
    assert forall i | 0 <= i < |modes| :: all[i] == modes[i];
    assert all[|modes|] == m;
    if Allows(mask, m) {
      assert BadIndices(all, mask) == was;
    } else {
      assert BadIndices(all, mask) == was + {|modes|};
    }
  }

  lemma {:induction false} CountBadSnoc(modes: seq<byte>, m: byte, mask: Mask)
    ensures CountBad(modes + [m], mask) == CountBad(modes, mask) + if Allows(mask, m) then 0 else 1
  {
    if modes == [] {
      assert modes + [m] == [m];
    } else {
      CountBadSnoc(modes[1..], m, mask);
      assert (modes + [m])[1..] == modes[1..] + [m];
    }
  }

  /** What the guard counts on a client packet: every listed speech frame, those outside the set,
      and, when dropping, all of them as soon as one is outside. */
  lemma {:induction false} GuardedClient(c: Direction, k: Counters, d: seq<byte>)
    requires !c.fromCarrier && c.guard.Some? && c.guard.value.modes != 0 && Audio(c, d)
    ensures var (e, after, pass) := Guarded(c, k, d);
            var g := c.guard.value;
            && e == d && after.cmrClamped == k.cmrClamped
            && match ListedModes(Payload(d), c.kind, c.src.octetAligned)
               case None => pass && after == k
               case Some(modes) =>
                 && after.framesSeen == k.framesSeen + |modes|
                 && after.outOfSet == k.outOfSet + |BadIndices(modes, g.modes)|
                 && (pass <==> !g.drop || InSet(modes, g.modes))
                 && after.dropped == k.dropped + if pass then 0 else |modes|
  {
    match ListedModes(Payload(d), c.kind, c.src.octetAligned)
    case None =>
    case Some(modes) => CountBadCounts(modes, c.guard.value.modes);
  }

  /** Client to carrier under a dropping guard: a forwarded packet whose table of contents ends
      inside its payload lists only modes of the carrier's set, after relabelling and repacking. */
  lemma {:induction false} ClientToCarrier(c: Direction, k: Counters, d: seq<byte>)
    requires !c.fromCarrier && c.guard.Some? && c.guard.value.modes != 0
    requires Audio(c, d) && Distinct(c.src) && Forward(c, k, d).1.Some?
    ensures var out := Forward(c, k, d).1.value;
            && SameStream(d, out, c.dst.pt)
            && var modes := ListedModes(Payload(out), c.kind, c.dst.octetAligned);
            && modes == ListedModes(Payload(d), c.kind, c.src.octetAligned)
            && (c.guard.value.drop && modes.Some? ==> InSet(modes.value, c.guard.value.modes))
  {
    GuardedClient(c, k, d);
    TranslatedAudio(c, d);
    RepackKeepsModes(Payload(d), c.kind, c.src.octetAligned, c.dst.octetAligned);
  }

  lemma {:induction false} UnguardedForward(c: Direction, k: Counters, d: seq<byte>)
    requires (c.guard.Some? ==> c.guard.value.modes != 0) && ParsePacket(d).Some?
    requires c.guard == None || !Audio(c, d)
    ensures Forward(c, k, d) == (k, Translated(c, d))
  {}

  /** The guard lets a packet through. */
  ghost predicate Admits(c: Direction, d: seq<byte>)
    requires ParsePacket(d).Some?
  {
    c.guard.Some? && !c.fromCarrier && c.guard.value.drop ==>
      var modes := ListedModes(Payload(d), c.kind, c.src.octetAligned);
      modes.Some? ==> InSet(modes.value, c.guard.value.modes)
  }

  lemma {:induction false} RebuiltExactly(c: Direction, d: seq<byte>)
    requires Audio(c, d) && Distinct(c.src)
    ensures Translated(c, d).Some? <==>
              c.src.octetAligned == c.dst.octetAligned || Frames(Payload(d), c.kind, c.src.octetAligned).Some?
  {
    if c.src.octetAligned != c.dst.octetAligned {
      RepackPreserves(Payload(d), c.kind, c.src.octetAligned, c.dst.octetAligned);
    }
  }

  /** What is handed on and what is not: audio the guard admits, if the legs pack alike or its payload
      parses; events if the other leg has a type for them; nothing else. */
  lemma {:induction false} ForwardedExactly(c: Direction, k: Counters, d: seq<byte>)
    requires (c.guard.Some? ==> c.guard.value.modes != 0) && Distinct(c.src) && ParsePacket(d).Some?
    ensures Forward(c, k, d).1.Some? <==>
              if Audio(c, d)
              then Admits(c, d)
                   && (c.src.octetAligned == c.dst.octetAligned || Frames(Payload(d), c.kind, c.src.octetAligned).Some?)
              else Some(ParsePacket(d).value.payloadType) == c.src.dtmf && c.dst.dtmf.Some?
  {
    if c.guard == None || !Audio(c, d) {
      UnguardedForward(c, k, d);
      if Audio(c, d) { RebuiltExactly(c, d); }
    } else if c.fromCarrier {
      GuardedCarrier(c, k, d);
      RebuiltExactly(c, Guarded(c, k, d).0);
    } else {
      GuardedClient(c, k, d);
      RebuiltExactly(c, d);
    }
  }
}
