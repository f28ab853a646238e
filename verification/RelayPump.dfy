/** One pump of `amr_forward/relay.rs`: the packet buffer is rewritten in place. Each method is proved
    to do what the functions in `Relay` say. */
module RelayPump {
  import opened Wrappers
  import opened Seqs
  import opened Bits
  import opened Amr
  import opened Repacking
  import opened Repacker
  import opened ModeScan
  import opened ModeMask
  import opened Rtp
  import opened SourceLatch
  import opened Relay

  class GuardStats {
    var cmrClamped: nat
    var framesSeen: nat
    var outOfSet: nat
    var dropped: nat

    constructor ()
      ensures Counts() == Counters(0, 0, 0, 0)
    {
      cmrClamped, framesSeen, outOfSet, dropped := 0, 0, 0, 0;
    }

    function Counts(): Counters
      reads this
    {
      Counters(cmrClamped, framesSeen, outOfSet, dropped)
    }
  }

  function LegSettings(leg: LegIo): LegConfig
    reads leg
  {
    LegConfig(leg.payloadType, leg.DtmfPt(), leg.octetAligned)
  }

  /** Relabels in place; a leg without the payload type cannot be sent the packet. */
  method RelabelTo(buf: array<byte>, n: nat, pt: Option<byte>) returns (out: Option<seq<byte>>)
    requires HEADER_LEN <= n <= buf.Length
    modifies buf
    ensures out == match pt case None => None case Some(to) => Some(Relabelled(old(buf[..n]), to))
  {
    if pt == None {
      return None;
    }
    buf[1] := (buf[1] & 0x80) | (pt.value & 0x7f);
    out := Some(buf[..n]);
  }

  /** Different packing: the datagram is rebuilt with a plain header. */
  method Rebuild(d: seq<byte>, kind: AmrKind, from: bool, to: bool, pt: byte) returns (out: Option<seq<byte>>)
    requires |d| >= HEADER_LEN
    ensures out == Rebuilt(d, kind, from, to, pt)
  {
    var parsed := ParsePacket(d);
    if parsed == None {
      return None;
    }
    var payload := RepackPayload(d[parsed.value.start..parsed.value.end], kind, from, to);
    if payload == None {
      return None;
    }
    out := Some([0x80, (d[1] & 0x80) | (pt & 0x7f)] + d[2..HEADER_LEN] + payload.value);
  }

  method TranslateFor(buf: array<byte>, n: nat, c: Direction) returns (out: Option<seq<byte>>)
    requires HEADER_LEN <= n <= buf.Length
    modifies buf
    ensures out == Translated(c, old(buf[..n]))
  {
    ghost var d := buf[..n];
    assert d[1] == buf[1];
    var pt := buf[1] & 0x7f;
    if Some(pt) == c.src.dtmf {
      out := RelabelTo(buf, n, c.dst.dtmf);
    } else if pt != c.src.pt {
      out := None;
    } else if c.src.octetAligned == c.dst.octetAligned {
      out := RelabelTo(buf, n, Some(c.dst.pt));
    } else {
      out := Rebuild(buf[..n], c.kind, c.src.octetAligned, c.dst.octetAligned, c.dst.pt);
    }
  }

  /** A buffer that changed only inside the payload of its first `n` octets. */
  lemma {:induction false} Respliced(was: seq<byte>, now: seq<byte>, n: nat, p: Parsed, s: seq<byte>)
    requires |was| == |now| && n <= |was| && ParsePacket(was[..n]) == Some(p)
    requires p.end <= n && |s| == p.end - p.start
    requires now[..p.start] == was[..p.start] && now[p.start..p.end] == s && now[p.end..] == was[p.end..]
    ensures now[..n] == WithPayload(was[..n], s)
  {
    TakeDrop(was, p.end, n);
    TakeDrop(now, p.end, n);
    TakeTake(was, p.start, n);
    TakeTake(now, p.start, p.end);
    assert now[..n] == now[..n][..p.end] + now[..n][p.end..];
    TakeTake(now, p.end, n);
    assert now[..p.end] == now[..p.start] + now[p.start..p.end];
  }

  class Pump {
    const kind: AmrKind
    const src: LegIo
    const dst: LegIo
    const guard: Option<ModeGuard>
    const stats: GuardStats
    const fromCarrier: bool
    var open: bool
    var received: nat
    var sent: nat

    constructor (kind: AmrKind, src: LegIo, dst: LegIo, guard: Option<ModeGuard>, stats: GuardStats, fromCarrier: bool)
      ensures this.kind == kind && this.src == src && this.dst == dst && this.guard == guard
      ensures this.stats == stats && this.fromCarrier == fromCarrier
      ensures open && received == 0 && sent == 0
    {
      this.kind, this.src, this.dst, this.guard, this.stats := kind, src, dst, guard, stats;
      this.fromCarrier := fromCarrier;
      open, received, sent := true, 0, 0;
    }

    ghost predicate Usable() { guard.Some? ==> guard.value.modes != 0 }

    ghost function Settings(): Direction
      reads src, dst
    {
      Direction(kind, LegSettings(src), LegSettings(dst), guard, fromCarrier)
    }

    /** Clamps the codec mode request of a carrier packet into the set, in place. */
    method ClampCmr(buf: array<byte>, n: nat, p: Parsed, mask: Mask)
      requires n <= buf.Length && ParsePacket(buf[..n]) == Some(p) && mask != 0
      modifies buf, stats`cmrClamped
      ensures var s := old(Payload(buf[..n]));
              && buf[..n] == (if NeedsClamp(s, mask) then WithPayload(old(buf[..n]), WithCmr(s, Highest(mask)))
                              else old(buf[..n]))
              && stats.cmrClamped == old(stats.cmrClamped) + if NeedsClamp(s, mask) then 1 else 0
    {
      ghost var d := buf[..n];
      var cmr := CmrOf(buf[p.start..p.end]);
      assert buf[p.start..p.end] == Payload(d);
      if cmr.Some? && !Allows(mask, cmr.value) {
        ghost var all := buf[..];
        SetCmr(buf, p.start, p.end, Highest(mask));
        Respliced(all, buf[..], n, p, WithCmr(Payload(d), Highest(mask)));
        stats.cmrClamped := stats.cmrClamped + 1;
      }
    }

    /** Counts a client packet's speech frames; `false` drops the packet. */
    method Police(payload: seq<byte>, g: ModeGuard) returns (pass: bool)
      modifies stats
      ensures (stats.Counts(), pass) == Policed(g, old(stats.Counts()), ListedModes(payload, kind, src.octetAligned))
    {
      var modes := SpeechModes(payload, kind, src.octetAligned);
      if modes == None {
        return true;
      }
      var bad := CountBad(modes.value, g.modes);
      stats.framesSeen := stats.framesSeen + |modes.value|;
      if bad == 0 {
        return true;
      }
      stats.outOfSet := stats.outOfSet + bad;
      if g.drop {
        stats.dropped := stats.dropped + |modes.value|;
        return false;
      }
      pass := true;
    }

    /** Applies the mode guard to `buf[..n]` before it is translated. */
    method ApplyGuard(buf: array<byte>, n: nat) returns (pass: bool)
      requires Usable() && n <= buf.Length
      modifies buf, stats
      ensures (buf[..n], stats.Counts(), pass) == Guarded(Settings(), old(stats.Counts()), old(buf[..n]))
    {
      if guard == None {
        return true;
      }
      var parsed := ParsePacket(buf[..n]);
      if parsed == None || parsed.value.payloadType != src.payloadType {
        return true;
      }
      if fromCarrier {
        ClampCmr(buf, n, parsed.value, guard.value.modes);
        return true;
      }
      pass := Police(buf[..n][parsed.value.start..parsed.value.end], guard.value);
    }

    /** Relabels `buf[..n]` in place or rebuilds it; `None` drops the packet. */
    method Translate(buf: array<byte>, n: nat) returns (out: Option<seq<byte>>)
      requires HEADER_LEN <= n <= buf.Length
      modifies buf
      ensures out == Translated(Settings(), old(buf[..n]))
    {
      out := TranslateFor(buf, n, Direction(kind, LegSettings(src), LegSettings(dst), guard, fromCarrier));
    }

    /** What an RTP packet on an open direction becomes. */
    method GuardAndTranslate(buf: array<byte>, n: nat) returns (out: Option<seq<byte>>)
      requires Usable() && n <= buf.Length && ParsePacket(buf[..n]).Some?
      modifies buf, stats
      ensures (stats.Counts(), out) == Forward(Settings(), old(stats.Counts()), old(buf[..n]))
    {
      out := None;
      var pass := ApplyGuard(buf, n);
      if pass {
        out := Translate(buf, n);
      }
    }

    /** One turn of the pump loop: `buf[..n]` was received from `from`. The result is what goes out
        on the other leg; a leg with no address yet sends nothing. */
    method OnDatagram(buf: array<byte>, n: nat, from: SocketAddr) returns (out: Option<seq<byte>>)
      requires Usable() && n <= buf.Length && src != dst
      modifies this`received, this`sent, buf, stats, src`current, src`confirmed
      ensures src.State() == if src.connected then old(src.State())
                             else Accept(old(src.State()), src.latch, from, old(src.Fits(buf[..n]))).0
      ensures var heard := src.connected || Accept(old(src.State()), src.latch, from, old(src.Fits(buf[..n]))).1;
              var (after, forwarded) := Forward(Settings(), old(stats.Counts()), old(buf[..n]));
              var reachable := dst.connected || dst.current.Some?;
              && received == old(received) + (if heard then 1 else 0)
              && stats.Counts() == (if heard && open then after else old(stats.Counts()))
              && out == (if heard && open && reachable then forwarded else None)
              && sent == old(sent) + (if out.Some? then 1 else 0)
    {
      out := None;
      var heard := src.AcceptsFrom(from, buf[..n]);
      if !heard {
        return;
      }
      received := received + 1;
      if ParsePacket(buf[..n]) == None || !open {
        return;
      }
      var translated := GuardAndTranslate(buf, n);
      if translated.Some? && (dst.connected || dst.current.Some?) {
        out := translated;
        sent := sent + 1;
      }
    }
  }
}
