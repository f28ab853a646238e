/** The diagnostic call's echo path, `ims/echo.rs`: a bounded delay line and the mixer that interleaves
    echo with an independent marker. Times are nanoseconds, samples integers. */
module Echo {
  import opened Wrappers

  const MARKER_DURATION: nat := 400_000_000

  // ----- the delay line -------------------------------------------------

  /** 600 ms of audio, rounded to the nearest sample, and at least one sample. */
  function Capacity(sampleRate: nat): nat {
    var n := (6 * sampleRate + 5) / 10;
    if n < 1 then 1 else n
  }

  /** The newest `cap` samples. */
  function Newest(q: seq<int>, cap: nat): seq<int> { if |q| <= cap then q else q[|q| - cap..] }

  function Least(a: nat, b: nat): nat { if a < b then a else b }

  class EchoBuffer {
    var inner: seq<int>
    const capacity: nat

    constructor (sampleRate: nat)
      ensures inner == [] && capacity == Capacity(sampleRate)
    {
      inner := [];
      capacity := Capacity(sampleRate);
    }

    /** Appends freshly decoded audio and drops the oldest past the bound. */
    method Push(samples: seq<int>)
      modifies this
      ensures inner == Newest(old(inner) + samples, capacity)
    {
      inner := inner + samples;
      ghost var all := inner;
      while |inner| > capacity
        invariant inner == all || (|inner| >= capacity && inner == all[|all| - |inner|..])
        invariant |inner| <= |all|
      {
        inner := inner[1..];
      }
    }

    /** Removes and returns up to `n` of the oldest samples. */
    method Take(n: nat) returns (r: seq<int>)
      modifies this
      ensures r == old(inner)[..Least(n, |old(inner)|)]
      ensures inner == old(inner)[Least(n, |old(inner)|)..]
    {
      var take := Least(n, |inner|);
      r := inner[..take];
      inner := inner[take..];
    }
  }

  // ----- the gain -------------------------------------------------------

  /** An `f32` as configured. */
  datatype Float = NotANumber | Infinite(negative: bool) | Finite(value: real)

  /** 0.95 as an `f32`. */
  const MAX_GAIN: real := 15938355.0 / 16777216.0

  /** `attenuation.clamp(0.0, 0.95)`, which leaves a NaN alone. */
  function Clamped(x: Float): (r: Float)
    ensures r.NotANumber? || (r.Finite? && 0.0 <= r.value <= MAX_GAIN)
  {
    match x
    case NotANumber => NotANumber
    case Infinite(negative) => Finite(if negative then 0.0 else MAX_GAIN)
    case Finite(value) => Finite(if value < 0.0 then 0.0 else if value > MAX_GAIN then MAX_GAIN else value)
  }

  /** A gain, and how a product is rounded. */
  datatype Gain = Gain(factor: Float, round: real -> real)

  /** Any rounding that keeps the sign and is off by no more than a millionth; `f32` rounding is closer. */
  ghost predicate Rounds(round: real -> real) {
    forall x: real | x >= 0.0 :: 0.0 <= round(x) <= x * 1.000001 + 0.000001 && round(-x) == -round(x)
  }

  ghost predicate Usable(g: Gain) {
    Rounds(g.round) && (g.factor.NotANumber? || (g.factor.Finite? && 0.0 <= g.factor.value <= MAX_GAIN))
  }

  /** `as i16` in range: truncation towards zero. */
  function Truncated(x: real): int { if x >= 0.0 then x.Floor else -((-x).Floor) }

  function Product(s: int, v: real): real { s as real * v }

  /** `(s as f32 * gain) as i16`; a NaN becomes zero. */
  function Attenuated(s: int, g: Gain): int {
    if g.factor.Finite? then Truncated(g.round(Product(s, g.factor.value))) else 0
  }

  function Abs(s: int): nat { if s >= 0 then s else -s }

  function AttenuatedAll(pcm: seq<int>, g: Gain): (r: seq<int>)
    ensures |r| == |pcm|
  {
    seq(|pcm|, i requires 0 <= i < |pcm| => Attenuated(pcm[i], g))
  }

  lemma {:induction false} Monotone(n: real, v: real, w: real)
    requires 0.0 <= n && 0.0 <= v <= w
    ensures 0.0 <= n * v <= n * w
  {}

  lemma {:induction false} RoundedBelow(n: real, v: real, y: real)
    requires 1.0 <= n && 0.0 <= v <= MAX_GAIN && 0.0 <= y <= (n * v) * 1.000001 + 0.000001
    ensures y < n
  {
    Monotone(n, v, 0.95);
    assert n * 0.95 * 1.000001 + 0.000001 < n;
  }

  lemma {:induction false} TruncatedBelow(x: real, n: nat)
    requires 0.0 <= x < n as real
    ensures 0 <= Truncated(x) < n
  {}

  lemma {:induction false} ShrinksUp(n: int, g: Gain)
    requires Usable(g) && n > 0
    ensures 0 <= Attenuated(n, g) < n
  {
    if g.factor.Finite? {
      var v := g.factor.value;
      Monotone(n as real, v, 0.95);
      var y := g.round(Product(n, v));
      RoundedBelow(n as real, v, y);
      TruncatedBelow(y, n);
    }
  }

  lemma {:induction false} Odd(n: int, g: Gain)
    requires Usable(g) && n >= 0
    ensures Attenuated(-n, g) == -Attenuated(n, g)
  {
    if g.factor.Finite? {
      var v := g.factor.value;
      var x := Product(n, v);
      Monotone(n as real, v, 0.95);
      assert Product(-n, v) == -x;
      assert g.round(-x) == -g.round(x) && 0.0 <= g.round(x);
    }
  }

  /** A non-zero sample comes back smaller, with its sign or silent. */
  lemma {:induction false} Shrinks(s: int, g: Gain)
    requires Usable(g) && s != 0
    ensures Abs(Attenuated(s, g)) < Abs(s)
    ensures Attenuated(s, g) == 0 || (Attenuated(s, g) > 0 <==> s > 0)
  {
    ShrinksUp(Abs(s), g);
    Odd(Abs(s), g);
  }

  function RoundTrips(s: int, g: Gain, k: nat): int
    decreases k
  {
    if k == 0 then s else RoundTrips(Attenuated(s, g), g, k - 1)
  }

  /** The feedback loop dies out: every non-zero sample gets strictly smaller at each round trip, so a
      sample of magnitude `|s|` is silent after `|s|` of them. */
  lemma {:induction false} LoopDiesOut(s: int, g: Gain, k: nat)
    requires Usable(g) && Abs(s) <= k
    ensures RoundTrips(s, g, k) == 0
    decreases k
  {
    if k > 0 {
      if s == 0 { Odd(0, g); } else { Shrinks(s, g); }
      LoopDiesOut(Attenuated(s, g), g, k - 1);
    }
  }

  // ----- one packet -----------------------------------------------------

  datatype Kind = EchoPacket | MarkerPacket | SilencePacket

  datatype Mixer = Mixer(nextMarkerAt: nat, markerUntil: Option<nat>, suppressUntil: nat, markerIndex: nat)

  /** What one call to `next_packet` does: the mixer and the queue after it, and the packet. */
  datatype Mixed = Mixed(mixer: Mixer, queue: seq<int>, pcm: seq<int>, kind: Kind)

  function Zeros(n: nat): (r: seq<int>)
    ensures |r| == n
  {
    seq(n, _ => 0)
  }

  /** A marker begins when one is due and none is running. */
  function Begun(m: Mixer, elapsed: nat): Mixer {
    if elapsed >= m.nextMarkerAt && m.markerUntil == None
    then m.(markerUntil := Some(elapsed + MARKER_DURATION), markerIndex := 0) else m
  }

  function NextPacket(m: Mixer, queue: seq<int>, interval: nat, g: Gain, elapsed: nat, n: nat,
                      marker: nat -> int): Mixed
  {
    var b := Begun(m, elapsed);
    if b.markerUntil.Some? && elapsed < b.markerUntil.value then
      Mixed(b.(markerIndex := b.markerIndex + n, suppressUntil := b.markerUntil.value + MARKER_DURATION), queue,
            seq(n, i requires 0 <= i < n => marker(b.markerIndex + i)), MarkerPacket)
    else
      var e := if b.markerUntil.Some? then b.(markerUntil := None, nextMarkerAt := elapsed + interval) else b;
      var k := Least(n, |queue|);
      if elapsed < e.suppressUntil || k == 0 then Mixed(e, queue[k..], Zeros(n), SilencePacket)
      else Mixed(e, queue[k..], AttenuatedAll(queue[..k], g) + Zeros(n - k), EchoPacket)
  }

  class EchoMixer {
    const buffer: EchoBuffer
    const gain: Gain
    const interval: nat
    var nextMarkerAt: nat
    var markerUntil: Option<nat>
    var suppressUntil: nat
    var markerIndex: nat

    constructor (buffer: EchoBuffer, attenuation: Float, round: real -> real, interval: nat)
      ensures this.buffer == buffer && gain.factor == Clamped(attenuation) && gain.round == round
      ensures this.interval == interval
      ensures State() == Fresh()
    {
      this.buffer := buffer;
      this.gain := Gain(Clamped(attenuation), round);
      this.interval := interval;
      nextMarkerAt, markerUntil, suppressUntil, markerIndex := 0, None, 0, 0;
    }

    function State(): Mixer
      reads this
    {
      Mixer(nextMarkerAt, markerUntil, suppressUntil, markerIndex)
    }

    method Next(elapsed: nat, n: nat, marker: nat -> int) returns (pcm: seq<int>, kind: Kind)
      modifies this, buffer
      ensures Mixed(State(), buffer.inner, pcm, kind)
              == NextPacket(old(State()), old(buffer.inner), interval, gain, elapsed, n, marker)
    {
      if elapsed >= nextMarkerAt && markerUntil == None {
        markerUntil := Some(elapsed + MARKER_DURATION);
        markerIndex := 0;
      }
      if markerUntil.Some? {
        if elapsed < markerUntil.value {
          var start := markerIndex;
          pcm := seq(n, i requires 0 <= i < n => marker(start + i));
          markerIndex := markerIndex + n;
          suppressUntil := markerUntil.value + MARKER_DURATION;
          return pcm, MarkerPacket;
        }
        markerUntil := None;
        nextMarkerAt := elapsed + interval;
      }
      var taken := buffer.Take(n);
      if elapsed < suppressUntil || taken == [] {
        return Zeros(n), SilencePacket;
      }
      pcm := [];
      for i := 0 to |taken|
        invariant pcm == AttenuatedAll(taken[..i], gain)
      {
        assert taken[..i + 1] == taken[..i] + [taken[i]];
        pcm := pcm + [Attenuated(taken[i], gain)];
      }
      assert taken[..|taken|] == taken;
      pcm := pcm + Zeros(n - |taken|);
      kind := EchoPacket;
    }
  }

  function Fresh(): Mixer { Mixer(0, None, 0, 0) }

  // ----- whole calls ----------------------------------------------------

  /** Far-end audio arrives, or the send loop asks for a packet of `n` samples at `elapsed`. */
  datatype Event = Push(samples: seq<int>) | Tick(elapsed: nat, n: nat)

  /** A packet sent, how many samples were waiting, and the part of the received audio that left the
      queue for it. */
  datatype Sent = Sent(elapsed: nat, n: nat, pcm: seq<int>, kind: Kind, queued: nat, from: nat, to: nat)

  /** A call: mixer and queue, everything received so far and how much of it has left the queue, and
      the packets sent. */
  datatype Call = Call(mixer: Mixer, queue: seq<int>, received: seq<int>, head: nat, sent: seq<Sent>)

  /** The settings of a call. */
  datatype Settings = Settings(capacity: nat, interval: nat, gain: Gain, marker: nat -> int)

  function Start(): Call { Call(Fresh(), [], [], 0, []) }

  function Step(c: Call, e: Event, w: Settings): Call
  {
    match e
    case Push(samples) =>
      var q := Newest(c.queue + samples, w.capacity);
      c.(queue := q, received := c.received + samples, head := c.head + |c.queue| + |samples| - |q|)
    case Tick(elapsed, n) =>
      var x := NextPacket(c.mixer, c.queue, w.interval, w.gain, elapsed, n, w.marker);
      var head := c.head + |c.queue| - |x.queue|;
      Call(x.mixer, x.queue, c.received, head, c.sent + [Sent(elapsed, n, x.pcm, x.kind, |c.queue|, c.head, head)])
  }

  function Steps(c: Call, es: seq<Event>, w: Settings): Call
    decreases |es|
  {
    if es == [] then c else Steps(Step(c, es[0], w), es[1..], w)
  }

  // ----- reading the packets sent ---------------------------------------

  /** The times of the last packet and the last marker packet, and of the latest marker burst (a run of
      consecutive marker packets) its start, the marker samples it has sent and whether it goes on. */
  datatype History =
    History(lastTick: Option<nat>, lastMarker: Option<nat>, burst: Option<nat>, burstSent: nat, inBurst: bool)

  function Extend(h: History, elapsed: nat, n: nat, kind: Kind): History {
    if kind != MarkerPacket then h.(lastTick := Some(elapsed), inBurst := false)
    else if h.inBurst then h.(lastTick := Some(elapsed), lastMarker := Some(elapsed), burstSent := h.burstSent + n)
    else History(Some(elapsed), Some(elapsed), Some(elapsed), n, true)
  }

  function HistoryOf(sent: seq<Sent>): History {
    if sent == [] then History(None, None, None, 0, false)
    else
      var x := sent[|sent| - 1];
      Extend(HistoryOf(sent[..|sent| - 1]), x.elapsed, x.n, x.kind)
  }

  /** Time does not go back and packets are at most `d` apart. */
  predicate OnTime(h: History, elapsed: nat, d: nat) {
    h.lastTick.Some? ==> h.lastTick.value <= elapsed <= h.lastTick.value + d
  }

  predicate Paced(c: Call, es: seq<Event>, w: Settings, d: nat)
    decreases |es|
  {
    es == [] ||
    ((es[0].Tick? ==> OnTime(HistoryOf(c.sent), es[0].elapsed, d)) && Paced(Step(c, es[0], w), es[1..], w, d))
  }

  /** When a packet may be what it is, after the packets `h` tells of. */
  predicate GoodCadence(h: History, elapsed: nat, kind: Kind, w: Settings, d: nat) {
    && (h.lastMarker == None ==> kind == MarkerPacket)
    && (h.lastMarker.Some? ==> elapsed <= h.lastMarker.value + w.interval + 2 * d)
    && (kind == MarkerPacket && h.inBurst ==> h.burst.Some? && elapsed < h.burst.value + MARKER_DURATION)
    && (kind == MarkerPacket && !h.inBurst && h.burst.Some? ==>
          elapsed >= h.burst.value + MARKER_DURATION + w.interval)
    && (kind == EchoPacket ==> h.burst.Some? && elapsed >= h.burst.value + 2 * MARKER_DURATION)
  }

  predicate PlaysMarker(h: History, w: Settings, n: nat, pcm: seq<int>) {
    |pcm| == n && forall i | 0 <= i < n :: pcm[i] == w.marker((if h.inBurst then h.burstSent else 0) + i)
  }

  predicate Suppressed(h: History, elapsed: nat) {
    h.burst.Some? && elapsed < h.burst.value + 2 * MARKER_DURATION
  }

  /** What a packet carries: the marker's next samples, silence, or received audio made quieter. */
  predicate GoodAudio(h: History, x: Sent, received: seq<int>, w: Settings)
  {
    && |x.pcm| == x.n
    && x.to <= |received|
    && x.to == x.from + (if x.kind == MarkerPacket then 0 else Least(x.n, x.queued))
    && match x.kind
       case MarkerPacket => PlaysMarker(h, w, x.n, x.pcm)
       case SilencePacket =>
         && x.pcm == Zeros(x.n)
         && (x.to == x.from || Suppressed(h, x.elapsed))
       case EchoPacket =>
         && x.from < x.to
         && x.pcm == AttenuatedAll(received[x.from..x.to], w.gain) + Zeros(x.n - (x.to - x.from))
  }

  /** Every packet is good given the packets before it, and the parts of the received audio used up lie
      one after the other and end before `head`. */
  predicate AllGood(sent: seq<Sent>, received: seq<int>, head: nat, w: Settings, d: nat)
  {
    sent == [] ||
    (var before, x := sent[..|sent| - 1], sent[|sent| - 1];
     && GoodCadence(HistoryOf(before), x.elapsed, x.kind, w, d)
     && GoodAudio(HistoryOf(before), x, received, w)
     && x.to <= head
     && AllGood(before, received, x.from, w, d))
  }

  // ----- what every call keeps ------------------------------------------

  /** The mixer between packets: no packet yet, in a marker burst, or waiting for the next one. */
  predicate Timing(m: Mixer, h: History, w: Settings, d: nat) {
    match h.lastTick
    case None => m == Fresh() && h == History(None, None, None, 0, false)
    case Some(t) =>
      && h.lastMarker.Some? && h.burst.Some? && h.burst.value <= t
      && m.suppressUntil == h.burst.value + 2 * MARKER_DURATION
      && match m.markerUntil
         case Some(until) =>
           && h.inBurst && h.lastMarker.value == t && m.markerIndex == h.burstSent
           && until == h.burst.value + MARKER_DURATION && t < until
         case None =>
           && !h.inBurst && t <= m.nextMarkerAt <= h.lastMarker.value + d + w.interval
           && h.burst.value + MARKER_DURATION + w.interval <= m.nextMarkerAt
  }

  predicate Delay(c: Call, w: Settings) {
    c.head <= |c.received| && c.queue == c.received[c.head..] && |c.queue| <= w.capacity
  }

  predicate Inv(c: Call, w: Settings, d: nat)
  {
    Timing(c.mixer, HistoryOf(c.sent), w, d) && Delay(c, w) && AllGood(c.sent, c.received, c.head, w, d)
  }

  lemma {:induction false} AudioKept(h: History, x: Sent, received: seq<int>, samples: seq<int>, w: Settings)
    requires GoodAudio(h, x, received, w)
    ensures GoodAudio(h, x, received + samples, w)
  {
    assert (received + samples)[x.from..x.to] == received[x.from..x.to];
  }

  lemma {:induction false} AllGoodKept(sent: seq<Sent>, received: seq<int>, samples: seq<int>, head: nat, later: nat,
                                       w: Settings, d: nat)
    requires AllGood(sent, received, head, w, d) && head <= later
    ensures AllGood(sent, received + samples, later, w, d)
    decreases |sent|
  {
    if sent != [] {
      var before, x := sent[..|sent| - 1], sent[|sent| - 1];
      AudioKept(HistoryOf(before), x, received, samples, w);
      AllGoodKept(before, received, samples, x.from, x.from, w, d);
    }
  }

  lemma {:induction false} PushDelay(c: Call, samples: seq<int>, w: Settings)
    requires Delay(c, w)
    ensures Delay(Step(c, Push(samples), w), w) && c.head <= Step(c, Push(samples), w).head
  {
    var n := Step(c, Push(samples), w);
    assert c.queue + samples == n.received[c.head..];
  }

  lemma {:induction false} PushKeeps(c: Call, samples: seq<int>, w: Settings, d: nat)
    requires Inv(c, w, d)
    ensures Inv(Step(c, Push(samples), w), w, d)
  {
    PushDelay(c, samples, w);
    AllGoodKept(c.sent, c.received, samples, c.head, Step(c, Push(samples), w).head, w, d);
  }

  lemma {:induction false} TickTiming(m: Mixer, queue: seq<int>, h: History, elapsed: nat, n: nat, w: Settings, d: nat)
    requires Timing(m, h, w, d) && OnTime(h, elapsed, d)
    ensures var x := NextPacket(m, queue, w.interval, w.gain, elapsed, n, w.marker);
            && Timing(x.mixer, Extend(h, elapsed, n, x.kind), w, d)
            && GoodCadence(h, elapsed, x.kind, w, d)
  {}

  /** What one packet takes from the queue and carries. */
  predicate Made(h: History, queue: seq<int>, w: Settings, elapsed: nat, n: nat, x: Mixed) {
    var k := if x.kind == MarkerPacket then 0 else Least(n, |queue|);
    && x.queue == queue[k..] && |x.pcm| == n
    && (x.kind == SilencePacket ==> x.pcm == Zeros(n) && (k == 0 || Suppressed(h, elapsed)))
    && (x.kind == EchoPacket ==> k > 0 && x.pcm == AttenuatedAll(queue[..k], w.gain) + Zeros(n - k))
    && (x.kind == MarkerPacket ==> PlaysMarker(h, w, n, x.pcm))
  }

  lemma {:induction false} PacketMade(m: Mixer, queue: seq<int>, h: History, w: Settings, d: nat, elapsed: nat, n: nat)
    requires Timing(m, h, w, d)
    ensures Made(h, queue, w, elapsed, n, NextPacket(m, queue, w.interval, w.gain, elapsed, n, w.marker))
  {
    assert queue[0..] == queue;
  }

  /** The packet a tick sends, and the queue it leaves. */
  function SentBy(c: Call, x: Mixed, elapsed: nat, n: nat): Sent {
    var taken := if |x.queue| <= |c.queue| then |c.queue| - |x.queue| else 0;
    Sent(elapsed, n, x.pcm, x.kind, |c.queue|, c.head, c.head + taken)
  }

  lemma {:induction false} TickSends(c: Call, elapsed: nat, n: nat, w: Settings)
    ensures var x := NextPacket(c.mixer, c.queue, w.interval, w.gain, elapsed, n, w.marker);
            var next := Step(c, Tick(elapsed, n), w);
            && next.sent == c.sent + [SentBy(c, x, elapsed, n)] && next.received == c.received
            && next.queue == x.queue && next.mixer == x.mixer && next.head == SentBy(c, x, elapsed, n).to
  {}

  /** What the mixer makes of the queue fits the received audio. */
  lemma {:induction false} AudioFits(c: Call, h: History, w: Settings, elapsed: nat, n: nat, x: Mixed)
    requires Delay(c, w) && Made(h, c.queue, w, elapsed, n, x)
    ensures var y := SentBy(c, x, elapsed, n);
            && y.to <= |c.received| && x.queue == c.received[y.to..] && |x.queue| <= w.capacity
            && GoodAudio(h, y, c.received, w)
  {
    TakenFrom(c.received, c.head, if x.kind == MarkerPacket then 0 else Least(n, |c.queue|));
  }

  lemma {:induction false} TickAudio(c: Call, h: History, elapsed: nat, n: nat, w: Settings, d: nat)
    requires Timing(c.mixer, h, w, d) && Delay(c, w)
    ensures var next := Step(c, Tick(elapsed, n), w);
            Delay(next, w) && GoodAudio(h, next.sent[|c.sent|], c.received, w)
  {
    TickSends(c, elapsed, n, w);
    PacketMade(c.mixer, c.queue, h, w, d, elapsed, n);
    AudioFits(c, h, w, elapsed, n, NextPacket(c.mixer, c.queue, w.interval, w.gain, elapsed, n, w.marker));
  }

  lemma {:induction false} TakenFrom(received: seq<int>, head: nat, k: nat)
    requires head + k <= |received|
    ensures received[head..][k..] == received[head + k..]
    ensures received[head..][..k] == received[head..head + k]
  {}

  lemma {:induction false} TickKeeps(c: Call, elapsed: nat, n: nat, w: Settings, d: nat)
    requires Inv(c, w, d) && OnTime(HistoryOf(c.sent), elapsed, d)
    ensures Inv(Step(c, Tick(elapsed, n), w), w, d)
  {
    var next, h := Step(c, Tick(elapsed, n), w), HistoryOf(c.sent);
    TickTiming(c.mixer, c.queue, h, elapsed, n, w, d);
    TickAudio(c, h, elapsed, n, w, d);
    assert next.sent[..|c.sent|] == c.sent;
  }

  lemma {:induction false} StepsKeep(c: Call, es: seq<Event>, w: Settings, d: nat)
    requires Inv(c, w, d) && Paced(c, es, w, d)
    ensures Inv(Steps(c, es, w), w, d)
    decreases |es|
  {
    if es != [] {
      match es[0] {
        case Push(samples) => PushKeeps(c, samples, w, d);
        case Tick(elapsed, n) => TickKeeps(c, elapsed, n, w, d);
      }
      StepsKeep(Step(c, es[0], w), es[1..], w, d);
    }
  }

  /** Every call, whatever is received: the first packet is a marker, a marker is never more than the
      interval and two packets away nor due again before the interval has passed, a burst plays the
      marker without a gap and ends on schedule, nothing is echoed until 400 ms after the latest marker's
      scheduled end, after that only an empty queue is answered with silence, every packet has the
      requested length, and the echo is the received audio, attenuated, in order, each sample at most
      once. */
  lemma {:induction false} EveryCallMixesWell(es: seq<Event>, w: Settings, d: nat)
    requires Paced(Start(), es, w, d)
    ensures var c := Steps(Start(), es, w);
            AllGood(c.sent, c.received, c.head, w, d) && c.head <= |c.received| && |c.queue| <= w.capacity
  {
    StepsKeep(Start(), es, w, d);
  }
}
