/** The outbound call limiter of `siptest/src/safety.rs`: an allow-list, a minimum interval and an hourly
    cap over a pruned history of attempts. Instants and durations are nanoseconds. */
module CallLimiter {
  import opened Wrappers

  const SECOND: nat := 1_000_000_000
  const WINDOW: nat := 3600 * SECOND
  const U32: nat := 0x1_0000_0000

  datatype Refusal = NotAllowed | RateLimited(retryAfterS: nat)

  datatype Policy = Policy(allowed: seq<string>, minIntervalSecs: nat, maxPerHour: nat)

  /** `Instant::duration_since`, which saturates at zero. */
  function Since(now: nat, t: nat): nat { if now >= t then now - t else 0 }

  /** Whole seconds, at least one. */
  function Seconds(d: nat): nat { if d / SECOND < 1 then 1 else d / SECOND }

  predicate DestinationAllowed(p: Policy, destination: string) {
    exists i | 0 <= i < |p.allowed| :: Matches(p.allowed[i], destination)
  }

  predicate Matches(pattern: string, destination: string) {
    if pattern != [] && pattern[|pattern| - 1] == '*' then pattern[..|pattern| - 1] <= destination
    else pattern == destination
  }

  /** The hourly cap on an attempt log whose length reads as `len`. */
  function CapBlocks(attempts: seq<nat>, len: nat, now: nat, max: nat): Option<nat>
    requires 0 < max
  {
    if len >= max && |attempts| >= max && Since(now, attempts[|attempts| - max]) < WINDOW
    then Some(Seconds(WINDOW - Since(now, attempts[|attempts| - max])))
    else None
  }

  function Blocked(attempts: seq<nat>, len: nat, now: nat, min: nat, max: nat): Option<nat> {
    if attempts != [] && Since(now, attempts[|attempts| - 1]) < min
    then Some(Seconds(min - Since(now, attempts[|attempts| - 1])))
    else if max == 0 then Some(WINDOW / SECOND)
    else CapBlocks(attempts, len, now, max)
  }

  /** `blocked_until`: the source compares the length after a cast to 32 bits. */
  function BlockedUntil(attempts: seq<nat>, now: nat, min: nat, max: nat): Option<nat> {
    Blocked(attempts, |attempts| % U32, now, min, max)
  }

  function Verdict(p: Policy, destination: string, blocked: Option<nat>): Option<Refusal> {
    if !DestinationAllowed(p, destination) then Some(NotAllowed)
    else match blocked
         case None => None
         case Some(s) => Some(RateLimited(s))
  }

  function Check(p: Policy, destination: string, attempts: seq<nat>, now: nat): Option<Refusal> {
    Verdict(p, destination, BlockedUntil(attempts, now, p.minIntervalSecs * SECOND, p.maxPerHour))
  }

  function Pruned(attempts: seq<nat>, now: nat): seq<nat> {
    if attempts != [] && Since(now, attempts[0]) > WINDOW then Pruned(attempts[1..], now) else attempts
  }

  class CallAttemptHistory {
    var attempts: seq<nat>

    constructor ()
      ensures attempts == []
    {
      attempts := [];
    }

    method Prune(now: nat)
      modifies this
      ensures attempts == Pruned(old(attempts), now)
    {
      while attempts != []
        invariant Pruned(attempts, now) == Pruned(old(attempts), now)
        decreases |attempts|
      {
        if Since(now, attempts[0]) > WINDOW {
          attempts := attempts[1..];
        } else {
          break;
        }
      }
    }

    method Record(now: nat)
      modifies this
      ensures attempts == Pruned(old(attempts), now) + [now]
    {
      Prune(now);
      attempts := attempts + [now];
    }
  }

  // ----- runs: every attempt passes the check, then is recorded ----------

  /** The deque after the attempts `ts` were recorded. */
  function Deque(ts: seq<nat>): seq<nat> {
    if ts == [] then [] else Pruned(Deque(ts[..|ts| - 1]), ts[|ts| - 1]) + [ts[|ts| - 1]]
  }

  predicate Sorted(ts: seq<nat>) { forall i, j | 0 <= i <= j < |ts| :: ts[i] <= ts[j] }

  /** A run: time does not go back, and each attempt passes the check made at its instant. */
  predicate Admitted(ts: seq<nat>, min: nat, max: nat) {
    ts == [] ||
    var (init, now) := (ts[..|ts| - 1], ts[|ts| - 1]);
    && Admitted(init, min, max)
    && (init != [] ==> init[|init| - 1] <= now)
    && BlockedUntil(Deque(init), now, min, max) == None
  }

  /** What the limiter is for: attempts a minimum interval apart, and at most `max` in any hour. */
  predicate Spaced(ts: seq<nat>, min: nat, max: nat) {
    && (forall k | 0 < k < |ts| :: ts[k] - ts[k - 1] >= min)
    && (forall k | max <= k < |ts| :: ts[k] - ts[k - max] >= WINDOW)
  }

  /** The deque's length never reads wrong through the 32-bit cast. */
  predicate CastIsHarmless(min: nat, max: nat) { max < 0x8000_0000 || min >= SECOND }

  // ----- the deque is the recent part of the history --------------------

  /** `k` splits `ts` where pruning at `now` does. */
  predicate Cut(ts: seq<nat>, k: nat, now: nat) {
    && k <= |ts|
    && (forall j | 0 <= j < k :: Since(now, ts[j]) > WINDOW)
    && (forall j | k <= j < |ts| :: Since(now, ts[j]) <= WINDOW)
  }

  lemma {:induction false} PrunedIsSuffix(ts: seq<nat>, now: nat) returns (k: nat)
    requires Sorted(ts) && (ts != [] ==> ts[|ts| - 1] <= now)
    ensures Cut(ts, k, now) && Pruned(ts, now) == ts[k..]
  {
    if ts != [] && Since(now, ts[0]) > WINDOW {
      k := PrunedIsSuffix(ts[1..], now);
      k := k + 1;
      assert ts[1..][k - 1..] == ts[k..];
      assert forall j | 0 < j < |ts| :: ts[j] == ts[1..][j - 1];
    } else {
      k := 0;
      assert ts[0..] == ts;
    }
  }

  lemma {:induction false} PrunedTwice(ts: seq<nat>, a: nat, b: nat)
    requires a <= b
    ensures Pruned(Pruned(ts, a), b) == Pruned(ts, b)
  {
    if ts != [] && Since(a, ts[0]) > WINDOW { PrunedTwice(ts[1..], a, b); }
  }

  lemma {:induction false} PrunedSnoc(ts: seq<nat>, now: nat)
    ensures Pruned(ts + [now], now) == Pruned(ts, now) + [now]
  {
    if ts != [] {
      assert (ts + [now])[1..] == ts[1..] + [now];
      PrunedSnoc(ts[1..], now);
    }
  }

  /** Pruning at every attempt leaves what pruning the full history once would. */
  lemma {:induction false} DequeIsPruned(ts: seq<nat>)
    requires Sorted(ts) && ts != []
    ensures Deque(ts) == Pruned(ts, ts[|ts| - 1])
  {
    var init, now := ts[..|ts| - 1], ts[|ts| - 1];
    assert ts == init + [now];
    if init != [] {
      DequeIsPruned(init);
      PrunedTwice(init, init[|init| - 1], now);
    }
    PrunedSnoc(init, now);
  }

  lemma {:induction false} DequeCut(ts: seq<nat>) returns (k: nat)
    requires Sorted(ts) && ts != []
    ensures Cut(ts, k, ts[|ts| - 1]) && Deque(ts) == ts[k..] && k < |ts|
  {
    DequeIsPruned(ts);
    k := PrunedIsSuffix(ts, ts[|ts| - 1]);
    assert Since(ts[|ts| - 1], ts[|ts| - 1]) == 0;
  }

  // ----- the pruned check agrees with the full history ------------------

  /** Without the cast, checking the deque is checking the whole history. */
  lemma {:induction false} PrunedCheckAgrees(ts: seq<nat>, now: nat, min: nat, max: nat)
    requires Sorted(ts) && (ts != [] ==> ts[|ts| - 1] <= now)
    ensures Blocked(Deque(ts), |Deque(ts)|, now, min, max) == Blocked(ts, |ts|, now, min, max)
  {
    if ts != [] {
      var k := DequeCut(ts);
      if 0 < max <= |ts| && |ts| - max < k {
        assert Since(ts[|ts| - 1], ts[|ts| - max]) > WINDOW;
      }
    }
  }

  lemma {:induction false} Telescope(ts: seq<nat>, a: nat, b: nat, min: nat)
    requires Sorted(ts) && a <= b < |ts|
    requires forall k | 0 < k < |ts| :: ts[k] - ts[k - 1] >= min
    ensures ts[b] - ts[a] >= (b - a) * min
    decreases b
  {
    if a < b {
      Telescope(ts, a, b - 1, min);
      assert ts[b] - ts[b - 1] >= min;
      assert (b - a) * min == (b - 1 - a) * min + min;
    }
  }

  lemma {:induction false} TwoWindows(ts: seq<nat>, min: nat, max: nat, k: nat)
    requires Sorted(ts) && Spaced(ts, min, max) && k + 2 * max < |ts|
    ensures ts[|ts| - 1] - ts[k] >= 2 * WINDOW
  {
    var a, b := k + max, k + 2 * max;
    assert ts[a] - ts[a - max] >= WINDOW && ts[b] - ts[b - max] >= WINDOW;
  }

  /** Spacing bounds the deque: at most two hours' worth of the cap, and at most one attempt per
      minimum interval in the hour. */
  lemma {:induction false} DequeIsBounded(ts: seq<nat>, min: nat, max: nat)
    requires Sorted(ts) && Spaced(ts, min, max)
    ensures |Deque(ts)| <= 2 * max
    ensures min >= SECOND ==> |Deque(ts)| <= 3601
  {
    if ts != [] {
      var k := DequeCut(ts);
      assert Since(ts[|ts| - 1], ts[k]) <= WINDOW;
      if k + 2 * max < |ts| {
        TwoWindows(ts, min, max, k);
      }
      if min >= SECOND {
        Telescope(ts, k, |ts| - 1, SECOND);
      }
    }
  }

  /** A full history that passes the exact check keeps its spacing when the attempt is added. */
  lemma {:induction false} AdmitKeepsSpacing(ts: seq<nat>, now: nat, min: nat, max: nat)
    requires Sorted(ts + [now]) && Spaced(ts, min, max)
    requires Blocked(ts, |ts|, now, min, max) == None
    ensures Spaced(ts + [now], min, max)
  {
    var all := ts + [now];
    assert forall i | 0 <= i < |ts| :: all[i] == ts[i];
    assert ts != [] ==> all[|ts| - 1] <= all[|ts|];
    assert max <= |ts| ==> all[|ts| - max] <= all[|ts|];
  }

  lemma {:induction false} SortedSnoc(ts: seq<nat>, now: nat)
    requires Sorted(ts) && (ts != [] ==> ts[|ts| - 1] <= now)
    ensures Sorted(ts + [now])
  {}

  lemma {:induction false} AdmittedIsSpaced(ts: seq<nat>, min: nat, max: nat)
    requires Admitted(ts, min, max) && CastIsHarmless(min, max)
    ensures Sorted(ts) && Spaced(ts, min, max) && |Deque(ts)| <= 2 * max && |Deque(ts)| < U32
  {
    if ts != [] {
      var init, now := ts[..|ts| - 1], ts[|ts| - 1];
      assert ts == init + [now];
      AdmittedIsSpaced(init, min, max);
      SortedSnoc(init, now);
      PrunedCheckAgrees(init, now, min, max);
      AdmitKeepsSpacing(init, now, min, max);
      DequeIsBounded(ts, min, max);
    }
  }

  /** Over every run: attempts keep the minimum interval, no more than the cap fall into an hour, the
      deque holds at most twice the cap, and at any later instant the check on the pruned deque gives
      the answer, retry time included, that the full history would. */
  lemma {:induction false} LimiterIsExact(ts: seq<nat>, min: nat, max: nat, now: nat)
    requires Admitted(ts, min, max) && CastIsHarmless(min, max)
    requires ts != [] ==> ts[|ts| - 1] <= now
    ensures Spaced(ts, min, max) && |Deque(ts)| <= 2 * max
    ensures BlockedUntil(Deque(ts), now, min, max) == Blocked(ts, |ts|, now, min, max)
  {
    AdmittedIsSpaced(ts, min, max);
    PrunedCheckAgrees(ts, now, min, max);
  }

  /** What a caller is told, at any instant of such a run, is what the full history says; a call to a
      destination that is not allowed is refused whatever the history. */
  lemma {:induction false} CheckSeesTheWholeHistory(p: Policy, destination: string, ts: seq<nat>, now: nat)
    requires Admitted(ts, p.minIntervalSecs * SECOND, p.maxPerHour)
    requires CastIsHarmless(p.minIntervalSecs * SECOND, p.maxPerHour) && (ts != [] ==> ts[|ts| - 1] <= now)
    ensures Check(p, destination, Deque(ts), now)
            == Verdict(p, destination, Blocked(ts, |ts|, now, p.minIntervalSecs * SECOND, p.maxPerHour))
    ensures Check(p, destination, Deque(ts), now) == None ==>
              DestinationAllowed(p, destination)
              && Spaced(ts + [now], p.minIntervalSecs * SECOND, p.maxPerHour)
  {
    var min := p.minIntervalSecs * SECOND;
    LimiterIsExact(ts, min, p.maxPerHour, now);
    if Check(p, destination, Deque(ts), now) == None {
      AdmittedIsSpaced(ts, min, p.maxPerHour);
      SortedSnoc(ts, now);
      AdmitKeepsSpacing(ts, now, min, p.maxPerHour);
    }
  }

  // ----- where the cast does harm ---------------------------------------

  function BurstTime(max: nat, n: nat): nat { if n < max then 0 else WINDOW }

  /** `max` attempts at once, and `max + 1` exactly one window later. */
  function Burst(max: nat, n: nat): (ts: seq<nat>)
    ensures |ts| == n
  {
    seq(n, i requires 0 <= i < n => BurstTime(max, i))
  }

  lemma {:induction false} BurstSnoc(max: nat, n: nat)
    ensures Burst(max, n + 1) == Burst(max, n) + [BurstTime(max, n)]
  {}

  lemma {:induction false} DequeSnoc(init: seq<nat>, now: nat)
    ensures Deque(init + [now]) == Pruned(Deque(init), now) + [now]
  {
    assert (init + [now])[..|init|] == init;
  }

  lemma {:induction false} BurstDeque(max: nat, n: nat)
    ensures Deque(Burst(max, n)) == Burst(max, n)
  {
    if n > 0 {
      var init, now := Burst(max, n - 1), BurstTime(max, n - 1);
      BurstDeque(max, n - 1);
      BurstSnoc(max, n - 1);
      DequeSnoc(init, now);
      NothingPruned(init, now);
    }
  }

  lemma {:induction false} NothingPruned(ts: seq<nat>, now: nat)
    requires now <= WINDOW
    ensures Pruned(ts, now) == ts
  {
    assert ts != [] ==> Since(now, ts[0]) <= now;
  }

  lemma {:induction false} AdmittedSnoc(init: seq<nat>, now: nat, min: nat, max: nat)
    requires Admitted(init, min, max) && (init != [] ==> init[|init| - 1] <= now)
    requires BlockedUntil(Deque(init), now, min, max) == None
    ensures Admitted(init + [now], min, max)
  {
    assert (init + [now])[..|init|] == init;
  }

  lemma {:induction false} BurstAdmitted(max: nat, n: nat)
    requires 0x8000_0000 <= max < U32 && n <= 2 * max + 1
    ensures Admitted(Burst(max, n), 0, max)
  {
    if n > 0 {
      BurstAdmitted(max, n - 1);
      BurstStep(max, n - 1);
    }
  }

  lemma {:induction false} BurstLast(max: nat, n: nat)
    requires n > 0
    ensures Burst(max, n)[n - 1] <= BurstTime(max, n)
  {}

  lemma {:induction false} BurstStep(max: nat, n: nat)
    requires 0x8000_0000 <= max < U32 && n <= 2 * max && Admitted(Burst(max, n), 0, max)
    ensures Admitted(Burst(max, n + 1), 0, max)
  {
    var init, now := Burst(max, n), BurstTime(max, n);
    assert init != [] ==> init[|init| - 1] <= now by {
      if n > 0 { BurstLast(max, n); }
    }
    assert BlockedUntil(Deque(init), now, 0, max) == None by {
      BurstDeque(max, n);
      BurstPasses(max, n);
    }
    AdmittedSnoc(init, now, 0, max);
    BurstSnoc(max, n);
  }

  lemma {:induction false} BurstPasses(max: nat, n: nat)
    requires 0x8000_0000 <= max < U32 && n <= 2 * max
    ensures BlockedUntil(Burst(max, n), BurstTime(max, n), 0, max) == None
  {
    if n == 2 * max { assert n % U32 == n - U32; }
  }

  /** Without a minimum interval and with a cap of 2^31 or more, the length wraps: there is a run the
      check admits that puts more than the cap into one instant. */
  lemma {:induction false} CastAdmitsTooMany(max: nat)
    requires 0x8000_0000 <= max < U32
    ensures Admitted(Burst(max, 2 * max + 1), 0, max)
    ensures !Spaced(Burst(max, 2 * max + 1), 0, max)
  {
    var ts := Burst(max, 2 * max + 1);
    BurstAdmitted(max, 2 * max + 1);
    assert ts[2 * max] - ts[2 * max - max] == 0;
  }

  /** The limiter keeps its promise on every run exactly when the cast cannot wrap. The cap is an
      unsigned 32-bit number, the interval a whole number of seconds. */
  lemma {:induction false} PromiseHoldsExactly(minSecs: nat, max: nat)
    requires max < U32
    ensures (forall ts :: Admitted(ts, minSecs * SECOND, max) ==> Spaced(ts, minSecs * SECOND, max))
            <==> max < 0x8000_0000 || minSecs > 0
  {
    var min := minSecs * SECOND;
    if max < 0x8000_0000 || minSecs > 0 {
      assert CastIsHarmless(min, max);
      forall ts | Admitted(ts, min, max)
        ensures Spaced(ts, min, max)
      {
        AdmittedIsSpaced(ts, min, max);
      }
    } else {
      CastAdmitsTooMany(max);
    }
  }
}
