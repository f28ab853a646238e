/** A whole forwarded call, `ForwardSession` of `amr_forward/relay.rs`: both directions, the addresses they
    are heard from and sent to, and what holds of every run. */
module ForwardSession {
  import opened Wrappers
  import opened Bits
  import opened Amr
  import opened Repacking
  import opened ModeMask
  import opened Rtp
  import L = SourceLatch
  import opened Relay

  type SocketAddr = L.SocketAddr

  /** A packet handed to a leg, with the settings in force when it was, whom it came from and where it
      went; a connected leg has one peer, which is not named. */
  datatype Sent = Sent(dir: Direction, d: seq<byte>, out: seq<byte>, from: SocketAddr, to: Option<SocketAddr>)

  /** Whom a leg hears and sends to: its socket's peer, or an address that may be learned. */
  datatype Peer = Connected | Dynamic(latch: L.Latch, on: bool)

  /** The carrier leg `a`, the client leg `b`, whom they hear, the hold gate, the counters and everything
      sent so far. */
  datatype Session = Session(kind: AmrKind, a: LegConfig, b: LegConfig, guard: Option<ModeGuard>,
                             peerA: Peer, peerB: Peer, towardsA: bool, towardsB: bool,
                             counters: Counters, sent: seq<Sent>)

  /** What can happen between datagrams is a renegotiated client leg, a changed hold state, a written
      address, and the client's leg being allowed to learn its address or not. */
  datatype Event =
    | FromCarrier(from: SocketAddr, d: seq<byte>)
    | FromClient(from: SocketAddr, d: seq<byte>)
    | UpdateLegB(leg: LegConfig)
    | SetDirection(towardsA: bool, towardsB: bool)
    | SetRemote(ofCarrier: bool, addr: Option<SocketAddr>)
    | AllowLatch(on: bool)

  predicate Usable(s: Session) { s.guard.Some? ==> s.guard.value.modes != 0 }

  function DirectionOf(s: Session, fromCarrier: bool): Direction {
    if fromCarrier then Direction(s.kind, s.a, s.b, s.guard, true) else Direction(s.kind, s.b, s.a, s.guard, false)
  }

  function PeerOf(s: Session, carrier: bool): Peer { if carrier then s.peerA else s.peerB }

  function WithPeer(s: Session, carrier: bool, peer: Peer): Session {
    if carrier then s.(peerA := peer) else s.(peerB := peer)
  }

  /** Well-formed RTP of a payload type the leg negotiated. */
  predicate Fits(leg: LegConfig, d: seq<byte>) {
    match ParsePacket(d)
    case None => false
    case Some(p) => p.payloadType == leg.pt || Some(p.payloadType) == leg.dtmf
  }

  /** Whether a leg lets a datagram in, and whom it hears from then on. */
  function Hear(peer: Peer, from: SocketAddr, fits: bool): (Peer, bool) {
    match peer
    case Connected => (peer, true)
    case Dynamic(latch, on) => var (next, ok) := L.Accept(latch, on, from, fits); (Dynamic(next, on), ok)
  }

  function Address(peer: Peer): Option<SocketAddr> {
    match peer case Connected => None case Dynamic(latch, _) => latch.current
  }

  predicate Reachable(peer: Peer) { peer.Connected? || peer.latch.current.Some? }

  /** A datagram that was let in. */
  function Pumped(s: Session, from: SocketAddr, d: seq<byte>, fromCarrier: bool): (r: Session)
    requires Usable(s)
    ensures Usable(r) && r == s.(counters := r.counters, sent := r.sent)
  {
    if !(if fromCarrier then s.towardsB else s.towardsA) then s
    else
      var dir, peer := DirectionOf(s, fromCarrier), PeerOf(s, !fromCarrier);
      var (after, out) := Forward(dir, s.counters, d);
      s.(counters := after,
         sent := if out.Some? && Reachable(peer) then s.sent + [Sent(dir, d, out.value, from, Address(peer))]
                 else s.sent)
  }

  function HeardFrom(s: Session, from: SocketAddr, d: seq<byte>, fromCarrier: bool): (Peer, bool) {
    Hear(PeerOf(s, fromCarrier), from, Fits(if fromCarrier then s.a else s.b, d))
  }

  function Received(s: Session, from: SocketAddr, d: seq<byte>, fromCarrier: bool): (r: Session)
    requires Usable(s)
    ensures Usable(r)
  {
    var (peer, ok) := HeardFrom(s, from, d, fromCarrier);
    var heard := WithPeer(s, fromCarrier, peer);
    if ok then Pumped(heard, from, d, fromCarrier) else heard
  }

  function Step(s: Session, e: Event): (r: Session)
    requires Usable(s)
    ensures Usable(r)
  {
    match e
    case FromCarrier(from, d) => Received(s, from, d, true)
    case FromClient(from, d) => Received(s, from, d, false)
    case UpdateLegB(leg) => s.(b := leg)
    case SetDirection(towardsA, towardsB) => s.(towardsA := towardsA, towardsB := towardsB)
    case SetRemote(ofCarrier, addr) =>
      var peer := PeerOf(s, ofCarrier);
      if peer.Connected? then s else WithPeer(s, ofCarrier, peer.(latch := L.Written(peer.latch, addr)))
    case AllowLatch(on) => if s.peerB.Connected? then s else s.(peerB := s.peerB.(on := on))
  }

  function Steps(s: Session, es: seq<Event>): (r: Session)
    requires Usable(s)
    ensures Usable(r)
    decreases |es|
  {
    if es == [] then s else Steps(Step(s, es[0]), es[1..])
  }

  /** A new session: its legs, its guard, and whom it hears. */
  datatype Setup = Setup(kind: AmrKind, a: LegConfig, b: LegConfig, guard: Option<ModeGuard>, peerA: Peer, peerB: Peer)

  predicate ValidSetup(w: Setup) { Distinct(w.a) && Distinct(w.b) && (w.guard.Some? ==> w.guard.value.modes != 0) }

  function Start(w: Setup): Session {
    Session(w.kind, w.a, w.b, w.guard, w.peerA, w.peerB, true, true, Counters(0, 0, 0, 0), [])
  }

  // ----- what every packet promises -------------------------------------

  predicate SameFrames(x: Sent)
    requires ParsePacket(x.d).Some? && ParsePacket(x.out).Some?
  {
    var before := Frames(Payload(x.d), x.dir.kind, x.dir.src.octetAligned);
    before.Some? ==> Frames(Payload(x.out), x.dir.kind, x.dir.dst.octetAligned) == before
  }

  /** Everything a sent packet promises. */
  ghost predicate GoodAudio(x: Sent)
    requires ParsePacket(x.d).Some?
  {
    && SameStream(x.d, x.out, x.dir.dst.pt) && SameFrames(x)
    && (x.dir.guard.Some? ==>
          if x.dir.fromCarrier then !NeedsClamp(Payload(x.out), x.dir.guard.value.modes)
          else var modes := ListedModes(Payload(x.out), x.dir.kind, x.dir.dst.octetAligned);
               x.dir.guard.value.drop && modes.Some? ==> InSet(modes.value, x.dir.guard.value.modes))
  }

  ghost predicate GoodEvent(x: Sent)
    requires ParsePacket(x.d).Some?
  {
    && Some(ParsePacket(x.d).value.payloadType) == x.dir.src.dtmf && x.dir.dst.dtmf.Some?
    && SameStream(x.d, x.out, x.dir.dst.dtmf.value) && Payload(x.out) == Payload(x.d)
  }

  ghost predicate Good(x: Sent) {
    ParsePacket(x.d).Some? && if Audio(x.dir, x.d) then GoodAudio(x) else GoodEvent(x)
  }

  predicate GoodCounters(s: Session) {
    match s.guard
    case None => s.counters == Counters(0, 0, 0, 0)
    case Some(g) =>
      && s.counters.outOfSet <= s.counters.framesSeen
      && if g.drop then s.counters.outOfSet <= s.counters.dropped <= s.counters.framesSeen
         else s.counters.dropped == 0
  }

  ghost predicate Inv(s: Session) {
    && Usable(s) && Distinct(s.a) && Distinct(s.b) && GoodCounters(s)
    && forall i | 0 <= i < |s.sent| :: Good(s.sent[i])
  }

  predicate ValidEvent(e: Event) { e.UpdateLegB? ==> Distinct(e.leg) }

  lemma {:induction false} ForwardGood(c: Direction, k: Counters, d: seq<byte>, from: SocketAddr,
                                       to: Option<SocketAddr>)
    requires (c.guard.Some? ==> c.guard.value.modes != 0) && Distinct(c.src) && Forward(c, k, d).1.Some?
    ensures Good(Sent(c, d, Forward(c, k, d).1.value, from, to))
  {
    var out := Forward(c, k, d).1.value;
    if !Audio(c, d) {
      UnguardedForward(c, k, d);
      TranslatedEvent(c, d);
    } else if c.guard.Some? && c.fromCarrier {
      CarrierToClient(c, k, d);
    } else {
      if c.guard == None { UnguardedForward(c, k, d); } else { GuardedClient(c, k, d); ClientToCarrier(c, k, d); }
      assert Translated(c, d) == Some(out);
      TranslatedAudio(c, d);
      if c.src.octetAligned != c.dst.octetAligned {
        RepackPreserves(Payload(d), c.kind, c.src.octetAligned, c.dst.octetAligned);
      }
    }
  }

  lemma {:induction false} BadBound(modes: seq<byte>, mask: Mask)
    ensures |BadIndices(modes, mask)| <= |modes|
    ensures InSet(modes, mask) <==> |BadIndices(modes, mask)| == 0
  {
    CountBadCounts(modes, mask);
  }

  lemma {:induction false} ForwardCounts(s: Session, d: seq<byte>, fromCarrier: bool)
    requires Inv(s)
    ensures GoodCounters(s.(counters := Forward(DirectionOf(s, fromCarrier), s.counters, d).0))
  {
    var c := DirectionOf(s, fromCarrier);
    if ParsePacket(d).Some? {
      if c.guard == None || !Audio(c, d) {
        UnguardedForward(c, s.counters, d);
      } else if fromCarrier {
        GuardedCarrier(c, s.counters, d);
      } else {
        GuardedClient(c, s.counters, d);
        match ListedModes(Payload(d), c.kind, c.src.octetAligned)
        case None =>
        case Some(modes) => BadBound(modes, c.guard.value.modes);
      }
    }
  }

  lemma {:induction false} PumpedKeeps(s: Session, from: SocketAddr, d: seq<byte>, fromCarrier: bool)
    requires Inv(s)
    ensures Inv(Pumped(s, from, d, fromCarrier))
  {
    var c := DirectionOf(s, fromCarrier);
    ForwardCounts(s, d, fromCarrier);
    if Forward(c, s.counters, d).1.Some? {
      ForwardGood(c, s.counters, d, from, Address(PeerOf(s, !fromCarrier)));
    }
  }

  lemma {:induction false} PeersDoNotMatter(s: Session, carrier: bool, peer: Peer)
    requires Inv(s)
    ensures Inv(WithPeer(s, carrier, peer))
  {}

  lemma {:induction false} ReceivedKeeps(s: Session, from: SocketAddr, d: seq<byte>, fromCarrier: bool)
    requires Inv(s)
    ensures Inv(Received(s, from, d, fromCarrier))
  {
    var peer := HeardFrom(s, from, d, fromCarrier).0;
    PeersDoNotMatter(s, fromCarrier, peer);
    PumpedKeeps(WithPeer(s, fromCarrier, peer), from, d, fromCarrier);
  }

  lemma {:induction false} StepKeeps(s: Session, e: Event)
    requires Inv(s) && ValidEvent(e)
    ensures Inv(Step(s, e))
  {
    match e
    case FromCarrier(from, d) => ReceivedKeeps(s, from, d, true);
    case FromClient(from, d) => ReceivedKeeps(s, from, d, false);
    case _ =>
  }

  lemma {:induction false} StepsKeep(s: Session, es: seq<Event>)
    requires Inv(s) && forall e | e in es :: ValidEvent(e)
    ensures Inv(Steps(s, es))
    decreases |es|
  {
    if es != [] {
      assert ValidEvent(es[0]);
      StepKeeps(s, es[0]);
      StepsKeep(Step(s, es[0]), es[1..]);
    }
  }

  /** Every call, whatever the carrier, the client and anyone else send and however the client
      renegotiates: each packet sent in either direction is good, and the counters add up. */
  lemma {:induction false} EveryCallIsSafe(w: Setup, es: seq<Event>)
    requires ValidSetup(w) && forall e | e in es :: ValidEvent(e)
    ensures var s := Steps(Start(w), es);
            GoodCounters(s) && forall i | 0 <= i < |s.sent| :: Good(s.sent[i])
  {
    StepsKeep(Start(w), es);
  }

  // ----- whom a call hears ----------------------------------------------

  /** What the latch of a leg sees of an event. */
  function LatchEvents(s: Session, e: Event, carrier: bool): seq<L.Event> {
    match e
    case FromCarrier(from, d) => if carrier then [L.Datagram(from, Fits(s.a, d))] else []
    case FromClient(from, d) => if carrier then [] else [L.Datagram(from, Fits(s.b, d))]
    case AllowLatch(on) => if carrier then [] else [L.AllowLatch(on)]
    case _ => []
  }

  predicate Writes(e: Event, carrier: bool) { e.SetRemote? && e.ofCarrier == carrier }

  /** The session's leg and the run of its latch: what the leg hears, and, from `since` on, whom the
      packets it handed over came from and where the packets sent to it went. */
  predicate Follows(s: Session, r: L.Run, start: L.Latch, since: nat, carrier: bool) {
    && since <= |s.sent| && PeerOf(s, carrier) == Dynamic(r.latch, r.on) && L.Settling(r, start)
    && forall i | since <= i < |s.sent| ::
         if s.sent[i].dir.fromCarrier == carrier then s.sent[i].from in r.accepted
         else s.sent[i].to == start.current || s.sent[i].to == r.latch.current
  }

  lemma {:induction false} LatchStep(r: L.Run, es: seq<L.Event>, start: L.Latch)
    requires |es| <= 1 && L.Settling(r, start)
    ensures var n := L.Steps(r, es);
            && n == (if es == [] then r else L.Step(r, es[0]))
            && L.Settling(n, start) && r.accepted <= n.accepted
            && (r.latch.current == n.latch.current || r.latch.current == start.current)
  {
    if es != [] {
      assert es[1..] == [];
      L.StepSettles(r, es[0], start);
    }
  }

  /** Whatever a leg hears, it follows its latch. */
  lemma {:induction false} HearFollows(s: Session, from: SocketAddr, d: seq<byte>, r: L.Run, start: L.Latch, since: nat,
                                       carrier: bool)
    requires Follows(s, r, start, since, carrier)
    ensures var n := L.Step(r, L.Datagram(from, Fits(if carrier then s.a else s.b, d)));
            var (peer, ok) := HeardFrom(s, from, d, carrier);
            Follows(WithPeer(s, carrier, peer), n, start, since, carrier) && (ok ==> from in n.accepted)
  {
    LatchStep(r, [L.Datagram(from, Fits(if carrier then s.a else s.b, d))], start);
  }

  /** A packet the leg hands over comes from an accepted source. */
  lemma {:induction false} PumpFollows(s: Session, from: SocketAddr, d: seq<byte>, r: L.Run, start: L.Latch, since: nat,
                                       carrier: bool)
    requires Usable(s) && Follows(s, r, start, since, carrier) && from in r.accepted
    ensures Follows(Pumped(s, from, d, carrier), r, start, since, carrier)
  {}

  lemma {:induction false} OwnFollows(s: Session, from: SocketAddr, d: seq<byte>, r: L.Run, start: L.Latch, since: nat,
                                      carrier: bool)
    requires Usable(s) && Follows(s, r, start, since, carrier)
    ensures var fits := Fits(if carrier then s.a else s.b, d);
            Follows(Received(s, from, d, carrier), L.Step(r, L.Datagram(from, fits)), start, since, carrier)
  {
    var n := L.Step(r, L.Datagram(from, Fits(if carrier then s.a else s.b, d)));
    var (peer, ok) := HeardFrom(s, from, d, carrier);
    HearFollows(s, from, d, r, start, since, carrier);
    if ok { PumpFollows(WithPeer(s, carrier, peer), from, d, n, start, since, carrier); }
  }

  lemma {:induction false} OtherFollows(s: Session, from: SocketAddr, d: seq<byte>, r: L.Run, start: L.Latch,
                                        since: nat, carrier: bool)
    requires Usable(s) && Follows(s, r, start, since, carrier)
    ensures Follows(Received(s, from, d, !carrier), r, start, since, carrier)
  {}

  lemma {:induction false} StepFollows(s: Session, e: Event, r: L.Run, start: L.Latch, since: nat, carrier: bool)
    requires Usable(s) && Follows(s, r, start, since, carrier) && !Writes(e, carrier)
    ensures Follows(Step(s, e), L.Steps(r, LatchEvents(s, e, carrier)), start, since, carrier)
  {
    LatchStep(r, LatchEvents(s, e, carrier), start);
    if e.FromCarrier? || e.FromClient? {
      if e.FromCarrier? == carrier {
        OwnFollows(s, e.from, e.d, r, start, since, carrier);
      } else {
        OtherFollows(s, e.from, e.d, r, start, since, carrier);
      }
    }
  }

  lemma {:induction false} StepsFollow(s: Session, es: seq<Event>, r: L.Run, start: L.Latch, since: nat,
                                       carrier: bool)
    returns (n: L.Run)
    requires Usable(s) && Follows(s, r, start, since, carrier) && forall e | e in es :: !Writes(e, carrier)
    ensures Follows(Steps(s, es), n, start, since, carrier)
    decreases |es|
  {
    if es == [] {
      n := r;
    } else {
      assert !Writes(es[0], carrier);
      StepFollows(s, es[0], r, start, since, carrier);
      n := StepsFollow(Step(s, es[0]), es[1..], L.Steps(r, LatchEvents(s, es[0], carrier)), start, since, carrier);
    }
  }

  lemma {:induction false} StepsFrom(s: Session, es: seq<Event>, i: nat)
    requires Usable(s) && i <= |es|
    ensures Steps(s, es) == Steps(Steps(s, es[..i]), es[i..])
    decreases i
  {
    if i == 0 {
      assert es[0..] == es;
    } else {
      StepsFrom(Step(s, es[0]), es[1..], i - 1);
      assert es[1..][..i - 1] == es[..i][1..] && es[1..][i - 1..] == es[i..];
    }
  }

  /** Between two writes of a leg's address, in every call: all packets the leg hands over come from one
      source, on which the address then rests, none if there was no address to begin with, and every
      packet sent to the leg goes to the address written or to that source. */
  lemma {:induction false} OneSourceBetweenWrites(w: Setup, es: seq<Event>, i: nat, carrier: bool)
    requires ValidSetup(w) && i <= |es| && PeerOf(Steps(Start(w), es[..i]), carrier).Dynamic?
    requires forall e | e in es[i..] :: !Writes(e, carrier)
    ensures var since, s := Steps(Start(w), es[..i]), Steps(Start(w), es);
            var before, now := PeerOf(since, carrier), PeerOf(s, carrier);
            && |since.sent| <= |s.sent| && now.Dynamic?
            && forall k | |since.sent| <= k < |s.sent| ::
                 if s.sent[k].dir.fromCarrier == carrier
                 then before.latch.current.Some? && now.latch == L.Latch(Some(s.sent[k].from), Some(s.sent[k].from))
                 else s.sent[k].to == before.latch.current || s.sent[k].to == now.latch.current
  {
    var since := Steps(Start(w), es[..i]);
    var peer := PeerOf(since, carrier);
    StepsFrom(Start(w), es, i);
    var n := StepsFollow(since, es[i..], L.Start(peer.latch, peer.on), peer.latch, |since.sent|, carrier);
  }
}
