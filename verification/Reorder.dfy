/** The bounded wait for a missing RTP sequence number before decoding: `RtpReorderBuffer` of
    `ims/rtp_reorder.rs`, the buffer and what it does per packet. */
module Reorder {
  import opened Wrappers

  const CYCLE: nat := 65536
  const HALF: nat := 0x8000
  const RECENT: nat := 100               // RECENT_SEQUENCE_HISTORY
  const CONFIRM: nat := 1_000_000_000    // RESTART_CONFIRMATION_WINDOW, in nanoseconds

  type Seq16 = n: nat | n < 65536

  /** What the buffer sees of a packet: its source, its sequence number and the fingerprint of its media.
      `id` and `at` tell which arrival it was, and when; the buffer does not look at them. */
  datatype Packet = Packet(id: nat, at: nat, ssrc: nat, seqNo: Seq16, media: nat)

  datatype Identity = Identity(seqNo: Seq16, media: nat)

  datatype Candidate = Candidate(packet: Packet, since: nat)

  datatype State = State(
    maxWait: nat, ssrc: Option<nat>, retired: set<nat>, delivered: map<Identity, int>, order: seq<Identity>,
    expected: Seq16, pending: map<Seq16, Packet>, deadline: Option<nat>, candidate: Option<Candidate>)

  /** `to.wrapping_sub(from)`. */
  function Ahead(from: Seq16, to: Seq16): Seq16 { (to - from) % CYCLE }

  function Succ(q: Seq16): Seq16 { (q + 1) % CYCLE }

  function IdentityOf(p: Packet): Identity { Identity(p.seqNo, p.media) }

  function New(maxWait: nat): State { State(maxWait, None, {}, map[], [], 0, map[], None, None) }

  // ----- what one call does ---------------------------------------------

  function Bumped(m: map<Identity, int>, i: Identity): map<Identity, int> {
    m[i := (if i in m then m[i] else 0) + 1]
  }

  function Dropped(m: map<Identity, int>, i: Identity): map<Identity, int> {
    if i !in m then m else if m[i] == 1 then m - {i} else m[i := m[i] - 1]
  }

  function Remember(s: State, p: Packet): State {
    var i := IdentityOf(p);
    var bumped, order := Bumped(s.delivered, i), s.order + [i];
    if |order| > CYCLE then s.(delivered := Dropped(bumped, order[0]), order := order[1..])
    else s.(delivered := bumped, order := order)
  }

  function RememberAll(s: State, ps: seq<Packet>): State {
    if ps == [] then s else Remember(RememberAll(s, ps[..|ps| - 1]), ps[|ps| - 1])
  }

  lemma {:induction false} RememberAllTake(s: State, ps: seq<Packet>, i: nat)
    requires i < |ps|
    ensures RememberAll(s, ps[..i + 1]) == Remember(RememberAll(s, ps[..i]), ps[i])
  {
    assert ps[..i + 1][..i] == ps[..i];
  }

  /** The queued sequence numbers from distance `d` on, nearest first. */
  function KeysFrom(keys: set<Seq16>, expected: Seq16, d: nat): seq<Seq16>
    requires d <= CYCLE
    decreases CYCLE - d
  {
    if d == CYCLE then []
    else
      var k := (expected + d) % CYCLE;
      (if k in keys then [k] else []) + KeysFrom(keys, expected, d + 1)
  }

  lemma {:induction false} AheadOf(from: Seq16, d: nat)
    requires d < CYCLE
    ensures Ahead(from, (from + d) % CYCLE) == d
  {}

  lemma {:induction false} AheadInverse(from: Seq16, to: Seq16)
    ensures (from + Ahead(from, to)) % CYCLE == to
  {}

  /** The release order holds every queued number once, by increasing distance from the expected one. */
  lemma {:induction false} KeysInOrder(keys: set<Seq16>, expected: Seq16, d: nat)
    requires d <= CYCLE
    ensures forall k | k in KeysFrom(keys, expected, d) :: k in keys && Ahead(expected, k) >= d
    ensures forall k | k in keys && Ahead(expected, k) >= d :: k in KeysFrom(keys, expected, d)
    ensures forall i, j | 0 <= i < j < |KeysFrom(keys, expected, d)| ::
              Ahead(expected, KeysFrom(keys, expected, d)[i]) < Ahead(expected, KeysFrom(keys, expected, d)[j])
    decreases CYCLE - d
  {
    if d < CYCLE {
      var k := (expected + d) % CYCLE;
      AheadOf(expected, d);
      KeysInOrder(keys, expected, d + 1);
      forall q | q in keys && Ahead(expected, q) == d
        ensures q == k
      {
        AheadInverse(expected, q);
      }
    }
  }

  function Packets(pending: map<Seq16, Packet>, keys: seq<Seq16>): (ps: seq<Packet>)
    requires forall k | k in keys :: k in pending
    ensures |ps| == |keys|
  {
    seq(|keys|, i requires 0 <= i < |keys| => assert keys[i] in keys; pending[keys[i]])
  }

  /** The queue as it is released. */
  function Batch(pending: map<Seq16, Packet>, expected: Seq16): seq<Packet> {
    var keys := KeysFrom(pending.Keys, expected, 0);
    assert forall k | k in keys :: k in pending by { KeysInOrder(pending.Keys, expected, 0); }
    Packets(pending, keys)
  }

  function AfterBatch(pending: map<Seq16, Packet>, expected: Seq16): Seq16 {
    var keys := KeysFrom(pending.Keys, expected, 0);
    if keys == [] then expected else Succ(keys[|keys| - 1])
  }

  function Release(s: State): (State, seq<Packet>) {
    var ps := Batch(s.pending, s.expected);
    (RememberAll(s.(candidate := None, deadline := None, pending := map[],
                    expected := AfterBatch(s.pending, s.expected)), ps), ps)
  }

  /** Restart probation ends after a second. */
  function Expired(s: State, now: nat): State {
    if s.candidate.Some? && s.candidate.value.since + CONFIRM <= now then s.(candidate := None) else s
  }

  function Flush(s: State, now: nat): (State, seq<Packet>) {
    var t := Expired(s, now);
    if t.deadline.Some? && now >= t.deadline.value then Release(t) else (t, [])
  }

  /** The first packet of a source not heard before. */
  function NewSource(s: State, p: Packet): State {
    Remember(s.(retired := if s.ssrc.Some? then s.retired + {s.ssrc.value} else s.retired, pending := map[],
                deadline := None, candidate := None, delivered := map[], order := [], ssrc := Some(p.ssrc),
                expected := Succ(p.seqNo)), p)
  }

  function Restarted(s: State, first: Packet, second: Packet): State {
    Remember(Remember(s.(candidate := None, pending := map[], deadline := None, expected := Succ(second.seqNo)), first),
             second)
  }

  /** A packet behind the expected one: late, a duplicate, or evidence of a restart. */
  function Behind(s: State, p: Packet, now: nat): (State, seq<Packet>) {
    if IdentityOf(p) in s.delivered then (s.(candidate := None), [])
    else if s.candidate.Some? && p.seqNo == Succ(s.candidate.value.packet.seqNo) then
      (Restarted(s, s.candidate.value.packet, p), [s.candidate.value.packet, p])
    else if s.candidate.Some? && p.seqNo == s.candidate.value.packet.seqNo then (s, [])
    else if Ahead(p.seqNo, s.expected) > RECENT then (s.(candidate := Some(Candidate(p, now))), [])
    else (s.(candidate := None), [])
  }

  /** The expected packet: it goes out with everything queued behind it. */
  function InTurn(s: State, p: Packet): (State, seq<Packet>) {
    var (t, more) := Release(Remember(s.(candidate := None, expected := Succ(p.seqNo)), p));
    (t, [p] + more)
  }

  /** A packet ahead of the expected one waits; the first to wait sets the deadline. */
  function Queued(s: State, p: Packet, now: nat): State {
    s.(candidate := None, pending := if p.seqNo in s.pending then s.pending else s.pending[p.seqNo := p],
       deadline := if s.deadline.Some? then s.deadline else Some(now + s.maxWait))
  }

  function SameSource(s: State, p: Packet, now: nat): (State, seq<Packet>) {
    var d := Ahead(s.expected, p.seqNo);
    if d >= HALF then Behind(s, p, now)
    else if d == 0 then InTurn(s, p)
    else Flush(Queued(s, p, now), now)
  }

  function Push(s: State, packet: Option<Packet>, now: nat): (State, seq<Packet>) {
    match packet
    case None => Flush(s, now)
    case Some(p) =>
      if s.ssrc != Some(p.ssrc) then
        if p.ssrc in s.retired then Flush(s, now) else (NewSource(s, p), [p])
      else
        var (t, ready) := Flush(s, now);
        var (u, more) := SameSource(t, p, now);
        (u, ready + more)
  }

  // ----- the buffer -----------------------------------------------------

  class RtpReorderBuffer {
    const maxWait: nat
    var ssrc: Option<nat>
    var retired: set<nat>
    var delivered: map<Identity, int>
    var order: seq<Identity>
    var expected: Seq16
    var pending: map<Seq16, Packet>
    var deadline: Option<nat>
    var candidate: Option<Candidate>

    constructor (maxWait: nat)
      ensures Now() == New(maxWait)
    {
      this.maxWait := maxWait;
      ssrc, retired, delivered, order, expected := None, {}, map[], [], 0;
      pending, deadline, candidate := map[], None, None;
    }

    function Now(): State
      reads this
    {
      State(maxWait, ssrc, retired, delivered, order, expected, pending, deadline, candidate)
    }

    method RememberDelivery(p: Packet)
      modifies this
      ensures Now() == Remember(old(Now()), p)
    {
      var i := IdentityOf(p);
      delivered := delivered[i := (if i in delivered then delivered[i] else 0) + 1];
      order := order + [i];
      if |order| > CYCLE {
        var oldest := order[0];
        order := order[1..];
        if oldest in delivered {
          delivered := delivered[oldest := delivered[oldest] - 1];
          if delivered[oldest] == 0 {
            delivered := delivered - {oldest};
          }
        }
      }
    }

    method RememberDeliveries(packets: seq<Packet>)
      modifies this
      ensures Now() == RememberAll(old(Now()), packets)
    {
      for i := 0 to |packets|
        invariant Now() == RememberAll(old(Now()), packets[..i])
      {
        RememberAllTake(old(Now()), packets, i);
        RememberDelivery(packets[i]);
      }
      assert packets[..|packets|] == packets;
    }

    method ReleasePending() returns (ready: seq<Packet>)
      modifies this
      ensures (Now(), ready) == Release(old(Now()))
    {
      candidate := None;
      deadline := None;
      ready := Batch(pending, expected);
      expected := AfterBatch(pending, expected);
      pending := map[];
      RememberDeliveries(ready);
    }

    method FlushExpired(now: nat) returns (ready: seq<Packet>)
      modifies this
      ensures (Now(), ready) == Flush(old(Now()), now)
    {
      if candidate.Some? && candidate.value.since + CONFIRM <= now {
        candidate := None;
      }
      ready := [];
      if deadline.Some? && now >= deadline.value {
        ready := ReleasePending();
      }
    }

    /** The branch for a packet behind the expected one. */
    method TakeBehind(p: Packet, now: nat) returns (ready: seq<Packet>)
      modifies this
      ensures (Now(), ready) == Behind(old(Now()), p, now)
    {
      ready := [];
      if IdentityOf(p) in delivered {
        candidate := None;
        return;
      }
      var taken := candidate;
      candidate := None;
      if taken.Some? && p.seqNo == Succ(taken.value.packet.seqNo) {
        pending := map[];
        deadline := None;
        expected := Succ(p.seqNo);
        RememberDelivery(taken.value.packet);
        RememberDelivery(p);
        ready := [taken.value.packet, p];
      } else if taken.Some? && p.seqNo == taken.value.packet.seqNo {
        candidate := taken;
      } else if Ahead(p.seqNo, expected) > RECENT {
        candidate := Some(Candidate(p, now));
      }
    }

    method TakeInTurn(p: Packet) returns (ready: seq<Packet>)
      modifies this
      ensures (Now(), ready) == InTurn(old(Now()), p)
    {
      candidate := None;
      expected := Succ(p.seqNo);
      RememberDelivery(p);
      var more := ReleasePending();
      ready := [p] + more;
    }

    method TakeAhead(p: Packet, now: nat) returns (ready: seq<Packet>)
      modifies this
      ensures (Now(), ready) == Flush(Queued(old(Now()), p, now), now)
    {
      candidate := None;
      if p.seqNo !in pending {
        pending := pending[p.seqNo := p];
      }
      if deadline == None {
        deadline := Some(now + maxWait);
      }
      ready := FlushExpired(now);
    }

    method TakeNewSource(p: Packet)
      modifies this
      ensures Now() == NewSource(old(Now()), p)
    {
      if ssrc.Some? {
        retired := retired + {ssrc.value};
      }
      pending := map[];
      deadline := None;
      candidate := None;
      delivered := map[];
      order := [];
      ssrc := Some(p.ssrc);
      expected := Succ(p.seqNo);
      RememberDelivery(p);
    }

    /** `push`; `None` stands for a datagram that is not RTP. */
    method Take(packet: Option<Packet>, now: nat) returns (ready: seq<Packet>)
      modifies this
      ensures (Now(), ready) == Push(old(Now()), packet, now)
    {
      if packet == None {
        ready := FlushExpired(now);
        return;
      }
      var p := packet.value;
      if ssrc != Some(p.ssrc) {
        if p.ssrc in retired {
          ready := FlushExpired(now);
        } else {
          TakeNewSource(p);
          ready := [p];
        }
        return;
      }
      ready := FlushExpired(now);
      var distance := Ahead(expected, p.seqNo);
      var more;
      if distance >= HALF {
        more := TakeBehind(p, now);
      } else if distance == 0 {
        more := TakeInTurn(p);
      } else {
        more := TakeAhead(p, now);
      }
      ready := ready + more;
    }
  }
}
