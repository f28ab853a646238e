/** Which datagrams a leg lets into the call: `LegIo::accepts_from` of `amr_forward/relay.rs`. */
module SourceLatch {
  import opened Wrappers
  import opened Bits
  import opened Rtp

  datatype SocketAddr = SocketAddr(ip: nat, port: nat)

  /** The client's current address, and the address a datagram was last accepted from. */
  datatype Latch = Latch(current: Option<SocketAddr>, confirmed: Option<SocketAddr>)

  /** Marks "no telephone-event type". */
  const NO_DTMF: bv16 := 0x100

  class LegIo {
    const connected: bool
    var payloadType: byte
    var dtmf: bv16
    var octetAligned: bool
    var latch: bool
    var current: Option<SocketAddr>
    var confirmed: Option<SocketAddr>

    constructor (connected: bool, payloadType: byte, dtmf: Option<byte>, octetAligned: bool)
      ensures this.connected == connected && this.payloadType == payloadType && DtmfPt() == dtmf
      ensures this.octetAligned == octetAligned && !latch && State() == Latch(None, None)
    {
      this.connected := connected;
      this.payloadType := payloadType;
      this.dtmf := match dtmf case None => NO_DTMF case Some(d) => d as bv16;
      this.octetAligned := octetAligned;
      latch := false;
      current := None;
      confirmed := None;
    }

    function DtmfPt(): Option<byte>
      reads this
    {
      if dtmf <= 0xff then Some(dtmf as byte) else None
    }

    function State(): Latch
      reads this
    {
      Latch(current, confirmed)
    }

    /** Well-formed RTP of a payload type this leg negotiated. */
    predicate Fits(packet: seq<byte>)
      reads this
    {
      match ParsePacket(packet)
      case None => false
      case Some(p) => p.payloadType == payloadType || Some(p.payloadType) == DtmfPt()
    }

    method AcceptsFrom(from: SocketAddr, packet: seq<byte>) returns (ok: bool)
      modifies this`current, this`confirmed
      ensures connected ==> ok && State() == old(State())
      ensures !connected ==> (State(), ok) == Accept(old(State()), latch, from, Fits(packet))
    {
      if connected {
        return true;
      }
      if current == Some(from) {
        confirmed := Some(from);
        return true;
      }
      ok := latch && current.Some? && confirmed != current && Fits(packet);
      if ok {
        current := Some(from);
        confirmed := Some(from);
      }
    }

    /** A (re-)INVITE tells the client's address: only the current address is written. */
    method SetRemote(addr: Option<SocketAddr>)
      modifies this`current
      ensures State() == Written(old(State()), addr)
    {
      current := addr;
    }
  }

  function Written(s: Latch, addr: Option<SocketAddr>): Latch { s.(current := addr) }

  function Accept(s: Latch, latch: bool, from: SocketAddr, fits: bool): (Latch, bool) {
    if s.current == Some(from) then (s.(confirmed := Some(from)), true)
    else if latch && s.current.Some? && s.confirmed != s.current && fits then (Latch(Some(from), Some(from)), true)
    else (s, false)
  }

  // ----- runs between two writes of the client address ------------------

  /** A datagram, with what the leg made of its content, or the opt-in being switched. */
  datatype Event = Datagram(from: SocketAddr, fits: bool) | AllowLatch(on: bool)

  datatype Run = Run(latch: Latch, on: bool, accepted: seq<SocketAddr>, changes: nat)

  function Step(r: Run, e: Event): Run {
    match e
    case AllowLatch(on) => r.(on := on)
    case Datagram(from, fits) =>
      var (next, ok) := Accept(r.latch, r.on, from, fits);
      Run(next, r.on, if ok then r.accepted + [from] else r.accepted,
          r.changes + (if next.current != r.latch.current then 1 else 0))
  }

  function Steps(r: Run, es: seq<Event>): Run
    decreases |es|
  {
    if es == [] then r else Steps(Step(r, es[0]), es[1..])
  }

  function Start(s: Latch, on: bool): Run { Run(s, on, [], 0) }

  /** Nothing accepted yet and nothing moved, or settled on the one sender ever accepted. */
  predicate Settling(r: Run, start: Latch) {
    && (r.accepted == [] ==> r.latch == start && r.changes == 0)
    && (r.accepted != [] ==>
          && start.current.Some?
          && r.latch == Latch(Some(r.accepted[0]), Some(r.accepted[0]))
          && (forall a | a in r.accepted :: a == r.accepted[0])
          && r.changes == if start.current == Some(r.accepted[0]) then 0 else 1)
  }

  lemma {:induction false} StepSettles(r: Run, e: Event, start: Latch)
    requires Settling(r, start)
    ensures Settling(Step(r, e), start)
  {}

  lemma {:induction false} StepsSettle(r: Run, es: seq<Event>, start: Latch)
    requires Settling(r, start)
    ensures Settling(Steps(r, es), start)
    decreases |es|
  {
    if es != [] {
      StepSettles(r, es[0], start);
      StepsSettle(Step(r, es[0]), es[1..], start);
    }
  }

  /** Over any run between two writes of the client address: every accepted datagram comes from one
      source, the address moves at most once, it rests on that source afterwards, and without an
      address nothing is accepted. */
  lemma {:induction false} OneSource(start: Latch, on: bool, es: seq<Event>)
    ensures var r := Steps(Start(start, on), es);
            && (forall a, b | a in r.accepted && b in r.accepted :: a == b)
            && (forall a | a in r.accepted :: r.latch == Latch(Some(a), Some(a)))
            && r.changes <= 1
            && (r.accepted == [] ==> r.latch == start)
            && (start.current == None ==> r.accepted == [])
  {
    StepsSettle(Start(start, on), es, start);
  }

  /** Once settled, and whenever latching stays off, only the current address is heard and it
      never moves. */
  lemma {:induction false} OnlyCurrent(r: Run, es: seq<Event>)
    requires (r.latch.confirmed == r.latch.current)
             || (!r.on && forall e | e in es :: e.AllowLatch? ==> !e.on)
    ensures var last := Steps(r, es);
            && last.latch.current == r.latch.current && last.changes == r.changes
            && r.accepted <= last.accepted
            && forall i | |r.accepted| <= i < |last.accepted| :: Some(last.accepted[i]) == r.latch.current
    decreases |es|
  {
    if es != [] {
      OnlyCurrent(Step(r, es[0]), es[1..]);
    }
  }
}
