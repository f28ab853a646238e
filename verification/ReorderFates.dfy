/** What becomes of every packet the reorder buffer is given, over every run: `ims/rtp_reorder.rs`. */
module ReorderFates {
  import opened Wrappers
  import opened Seqs
  import opened Reorder
  import opened ReorderRuns

  // ----- where a packet is ----------------------------------------------

  predicate QueuedIn(s: State, p: Packet) { p.seqNo in s.pending && s.pending[p.seqNo] == p }

  predicate OnProbation(s: State, p: Packet) { s.candidate.Some? && s.candidate.value.packet == p }

  /** Delivered, or still in the buffer. */
  predicate Held(s: State, out: seq<Packet>, p: Packet) { p in out || QueuedIn(s, p) || OnProbation(s, p) }

  // ----- why a packet is lost -------------------------------------------

  /** Refused on arrival: of a source given up, with a number that waits already, of media delivered lately,
      with the number of the restart candidate, or too late. Given up later: a new source takes over, a
      restart is confirmed over the queue; a candidate's second passes, the queue is released, traffic
      contradicts it, or another packet takes its place. */
  datatype Reason =
    | Straggler | NumberTaken | Repeated | RepeatsCandidate | TooLate
    | SourceReplaced | RestartConfirmed | ProbationOver | QueueReleased | Contradicted | Superseded

  predicate IsNew(s: State, x: Packet) { s.ssrc != Some(x.ssrc) && x.ssrc !in s.retired }

  predicate Lapsed(s: State, now: nat) { s.candidate.Some? && s.candidate.value.since + CONFIRM <= now }

  predicate WaitOver(s: State, now: nat) { s.deadline.Some? && s.deadline.value <= now }

  /** A packet of the current source that the buffer, after its deadlines, does not take. */
  predicate Refused(why: Reason, s: State, p: Packet) {
    var d := Ahead(s.expected, p.seqNo);
    match why
    case NumberTaken => 0 < d < HALF && p.seqNo in s.pending
    case Repeated => d >= HALF && IdentityOf(p) in s.delivered
    case RepeatsCandidate =>
      d >= HALF && IdentityOf(p) !in s.delivered && s.candidate.Some? && p.seqNo == s.candidate.value.packet.seqNo
    case TooLate =>
      && d >= HALF && IdentityOf(p) !in s.delivered && Ahead(p.seqNo, s.expected) <= RECENT
      && (s.candidate.Some? ==>
            p.seqNo != s.candidate.value.packet.seqNo && p.seqNo != Succ(s.candidate.value.packet.seqNo))
    case _ => false
  }

  /** A packet in the buffer that an arrival `x` of the current source makes it give up. */
  predicate GivenUp(why: Reason, s: State, x: Packet, p: Packet) {
    var d := Ahead(s.expected, x.seqNo);
    match why
    case RestartConfirmed => QueuedIn(s, p) && Confirms(s, x)
    case Contradicted => OnProbation(s, p) && (d < HALF || IdentityOf(x) in s.delivered)
    case Superseded =>
      && OnProbation(s, p) && d >= HALF && IdentityOf(x) !in s.delivered
      && x.seqNo != p.seqNo && x.seqNo != Succ(p.seqNo)
    case _ => false
  }

  /** The call with the arrival `x`, or without one, loses `p`, for this reason. */
  predicate LostBecause(why: Reason, s: State, x: Option<Packet>, now: nat, p: Packet) {
    var t := Flush(s, now).0;
    match why
    case Straggler => x == Some(p) && s.ssrc != Some(p.ssrc) && p.ssrc in s.retired
    case SourceReplaced => (QueuedIn(s, p) || OnProbation(s, p)) && x.Some? && IsNew(s, x.value)
    case ProbationOver => OnProbation(s, p) && !(x.Some? && IsNew(s, x.value)) && Lapsed(s, now)
    case QueueReleased => OnProbation(s, p) && !(x.Some? && IsNew(s, x.value)) && WaitOver(s, now)
    case _ =>
      && x.Some? && s.ssrc == Some(x.value.ssrc)
      && ((x.value == p && Refused(why, t, p)) || GivenUp(why, t, x.value, p))
  }

  ghost predicate Lost(s: State, x: Option<Packet>, now: nat, p: Packet) {
    exists why :: LostBecause(why, s, x, now, p)
  }

  // ----- the deadlines --------------------------------------------------

  lemma {:induction false} BatchMember(s: State, p: Packet)
    requires Queue(s, 0)
    ensures p in Batch(s.pending, s.expected) <==> QueuedIn(s, p)
  {
    BatchIsSorted(s);
    if QueuedIn(s, p) { BatchIsComplete(s, p.seqNo); }
  }

  lemma {:induction false} NotBehind(e: Seq16, q: Seq16)
    requires 1 <= Ahead(e, q) < HALF
    ensures Ahead(q, e) > HALF
  {}

  /** Nothing is queued and on probation at once. */
  lemma {:induction false} NotBoth(s: State, p: Packet)
    requires Queue(s, 1) && Probation(s)
    ensures !(QueuedIn(s, p) && OnProbation(s, p))
  {
    if QueuedIn(s, p) { NotBehind(s.expected, p.seqNo); }
  }

  lemma {:induction false} InBoth(out: seq<Packet>, more: seq<Packet>, p: Packet)
    ensures p in out + more <==> p in out || p in more
  {}

  lemma {:induction false} ReleaseHolds(s: State, out: seq<Packet>, p: Packet)
    requires Queue(s, 0)
    ensures var (t, ready) := Release(s);
            (Held(t, out + ready, p) <==> p in out || QueuedIn(s, p)) && !QueuedIn(t, p) && !OnProbation(t, p)
  {
    InBoth(out, Release(s).1, p);
    BatchMember(s, p);
    ReleaseEmpties(s);
  }

  /** A deadline delivers the queue and drops the candidate; nothing else changes hands. */
  lemma {:induction false} FlushHolds(s: State, out: seq<Packet>, now: nat, p: Packet)
    requires Queue(s, 1) && Probation(s)
    ensures var (t, ready) := Flush(s, now);
            && (Held(t, out + ready, p) <==>
                  p in out || QueuedIn(s, p) || (OnProbation(s, p) && !Lapsed(s, now) && !WaitOver(s, now)))
            && (QueuedIn(t, p) ==> QueuedIn(s, p)) && (OnProbation(t, p) ==> OnProbation(s, p))
  {
    var t := Expired(s, now);
    if WaitOver(s, now) {
      ReleaseHolds(t, out, p);
    } else {
      assert out + [] == out;
    }
  }

  // ----- one packet of the current source -------------------------------

  lemma {:induction false} BehindHolds(s: State, out: seq<Packet>, x: Packet, now: nat, p: Packet)
    requires Ahead(s.expected, x.seqNo) >= HALF && p != x && s.ssrc == Some(x.ssrc)
    requires Queue(s, 1) && Probation(s)
    ensures var (t, more) := Behind(s, x, now);
            Held(t, out + more, p) <==> Held(s, out, p) && (p !in out ==> !exists why :: GivenUp(why, s, x, p))
  {
    var (t, more) := Behind(s, x, now);
    InBoth(out, more, p);
    NotBoth(s, p);
    assert GivenUp(RestartConfirmed, s, x, p) <==> QueuedIn(s, p) && Confirms(s, x);
    assert GivenUp(Contradicted, s, x, p) <==> OnProbation(s, p) && IdentityOf(x) in s.delivered;
    assert GivenUp(Superseded, s, x, p) <==>
             OnProbation(s, p) && IdentityOf(x) !in s.delivered && x.seqNo != p.seqNo && x.seqNo != Succ(p.seqNo);
  }

  lemma {:induction false} InTurnHolds(s: State, out: seq<Packet>, x: Packet, p: Packet)
    requires Ahead(s.expected, x.seqNo) == 0 && p != x && s.ssrc == Some(x.ssrc) && Queue(s, 1) && Probation(s)
    ensures var (t, more) := InTurn(s, x); Held(t, out + more, p) <==> p in out || QueuedIn(s, p)
  {
    var t := InTurnState(s, x);
    AheadInverse(s.expected, x.seqNo);
    InTurnQueue(s, x);
    BatchMember(t, p);
    ReleaseIs(t);
    InBoth(out, InTurn(s, x).1, p);
  }

  lemma {:induction false} AheadHolds(s: State, out: seq<Packet>, x: Packet, now: nat, p: Packet)
    requires 0 < Ahead(s.expected, x.seqNo) < HALF && p != x && s.ssrc == Some(x.ssrc) && x.at == now
    requires Queue(s, 1) && Probation(s) && Timely(s, now)
    ensures var (t, more) := Flush(Queued(s, x, now), now);
            Held(t, out + more, p) <==> p in out || QueuedIn(s, p)
  {
    var t := Queued(s, x, now);
    QueuedQueue(s, x, now);
    FlushHolds(t, out, now, p);
  }

  /** Held before and not given up, or gone for good. */
  lemma {:induction false} SameSourceHolds(s: State, out: seq<Packet>, x: Packet, now: nat, p: Packet)
    requires p != x && s.ssrc == Some(x.ssrc) && x.at == now
    requires Queue(s, 1) && Probation(s) && Timely(s, now)
    ensures var (t, more) := SameSource(s, x, now);
            Held(t, out + more, p) <==> Held(s, out, p) && (p !in out ==> !exists why :: GivenUp(why, s, x, p))
  {
    var d := Ahead(s.expected, x.seqNo);
    if d >= HALF {
      BehindHolds(s, out, x, now, p);
    } else {
      if d == 0 { InTurnHolds(s, out, x, p); } else { AheadHolds(s, out, x, now, p); }
      NotBoth(s, p);
      assert GivenUp(Contradicted, s, x, p) <==> OnProbation(s, p);
    }
  }

  /** What becomes of the arriving packet itself. */
  lemma {:induction false} ArrivalHolds(s: State, out: seq<Packet>, x: Packet, now: nat)
    requires s.ssrc == Some(x.ssrc) && x.at == now && !Held(s, out, x)
    requires Queue(s, 1) && Probation(s) && Timely(s, now)
    ensures var (t, more) := SameSource(s, x, now);
            Held(t, out + more, x) <==> !exists why :: Refused(why, s, x)
  {
    var d := Ahead(s.expected, x.seqNo);
    var (t, more) := SameSource(s, x, now);
    InBoth(out, more, x);
    assert Refused(NumberTaken, s, x) <==> 0 < d < HALF && x.seqNo in s.pending;
    if d >= HALF {
      BehindArrival(s, x, now);
    } else if d > 0 {
      QueuedQueue(s, x, now);
      FlushHolds(Queued(s, x, now), out, now, x);
    }
  }

  lemma {:induction false} BehindArrival(s: State, x: Packet, now: nat)
    requires Ahead(s.expected, x.seqNo) >= HALF && !QueuedIn(s, x) && !OnProbation(s, x)
    ensures var (t, more) := Behind(s, x, now);
            x in more || QueuedIn(t, x) || OnProbation(t, x) <==> !exists why :: Refused(why, s, x)
  {
    var same := s.candidate.Some? && x.seqNo == s.candidate.value.packet.seqNo;
    assert Refused(Repeated, s, x) <==> IdentityOf(x) in s.delivered;
    assert Refused(RepeatsCandidate, s, x) <==> IdentityOf(x) !in s.delivered && same;
    assert Refused(TooLate, s, x) <==>
             && IdentityOf(x) !in s.delivered && Ahead(x.seqNo, s.expected) <= RECENT && !same
             && (s.candidate.Some? ==> x.seqNo != Succ(s.candidate.value.packet.seqNo));
    if s.candidate.Some? { SuccDiffers(s.candidate.value.packet.seqNo); }
  }

  // ----- one call -------------------------------------------------------

  lemma {:induction false} LostToNewSource(s: State, x: Packet, now: nat, p: Packet)
    requires IsNew(s, x)
    ensures Lost(s, Some(x), now, p) <==> QueuedIn(s, p) || OnProbation(s, p)
  {
    assert LostBecause(SourceReplaced, s, Some(x), now, p) <==> QueuedIn(s, p) || OnProbation(s, p);
  }

  lemma {:induction false} LostOutside(why: Reason, s: State, x: Option<Packet>, now: nat, p: Packet)
    requires LostBecause(why, s, x, now, p)
    requires x.Some? ==> s.ssrc != Some(x.value.ssrc) && x.value.ssrc in s.retired
    ensures x == Some(p) || (OnProbation(s, p) && (Lapsed(s, now) || WaitOver(s, now)))
  {}

  /** A call that only applies the deadlines. */
  lemma {:induction false} LostToDeadlines(s: State, x: Option<Packet>, now: nat, p: Packet)
    requires x.Some? ==> s.ssrc != Some(x.value.ssrc) && x.value.ssrc in s.retired
    ensures Lost(s, x, now, p) <==> x == Some(p) || (OnProbation(s, p) && (Lapsed(s, now) || WaitOver(s, now)))
  {
    if why :| LostBecause(why, s, x, now, p) {
      LostOutside(why, s, x, now, p);
    } else {
      assert !LostBecause(Straggler, s, x, now, p);
      assert !LostBecause(ProbationOver, s, x, now, p);
      assert !LostBecause(QueueReleased, s, x, now, p);
    }
  }

  lemma {:induction false} LostOfSource(s: State, x: Packet, now: nat, p: Packet)
    requires s.ssrc == Some(x.ssrc)
    ensures var t := Flush(s, now).0;
            Lost(s, Some(x), now, p) <==>
              || (OnProbation(s, p) && (Lapsed(s, now) || WaitOver(s, now)))
              || (x == p && exists why :: Refused(why, t, p))
              || exists why :: GivenUp(why, t, x, p)
  {
    var t := Flush(s, now).0;
    assert LostBecause(ProbationOver, s, Some(x), now, p) <==> OnProbation(s, p) && Lapsed(s, now);
    assert LostBecause(QueueReleased, s, Some(x), now, p) <==> OnProbation(s, p) && WaitOver(s, now);
    forall why | (x == p && Refused(why, t, p)) || GivenUp(why, t, x, p)
      ensures LostBecause(why, s, Some(x), now, p)
    {
    }
  }

  lemma {:induction false} NewSourceHolds(s: State, out: seq<Packet>, arrived: seq<Packet>, x: Packet, now: nat,
                                          p: Packet)
    requires Once(s, out, arrived) && x.id == |arrived| && IsNew(s, x)
    ensures Held(NewSource(s, x), out + [x], p) <==> (Held(s, out, p) || p == x) && !Lost(s, Some(x), now, p)
  {
    ArrivalIsNew(s, out, arrived, x);
    LostToNewSource(s, x, now, p);
    InBoth(out, [x], p);
  }

  lemma {:induction false} DeadlinesHold(s: State, out: seq<Packet>, arrived: seq<Packet>, x: Option<Packet>, now: nat,
                                         p: Packet)
    requires Queue(s, 1) && Probation(s) && Once(s, out, arrived)
    requires x.Some? ==> x.value.id == |arrived| && s.ssrc != Some(x.value.ssrc) && x.value.ssrc in s.retired
    ensures var (t, ready) := Flush(s, now);
            Held(t, out + ready, p) <==> (Held(s, out, p) || x == Some(p)) && !Lost(s, x, now, p)
  {
    if x.Some? { ArrivalIsNew(s, out, arrived, x.value); }
    NotBoth(s, p);
    FlushHolds(s, out, now, p);
    LostToDeadlines(s, x, now, p);
  }

  /** A packet of the current source, after the deadlines: `t` and `ready`. */
  lemma {:induction false} OfSourceHolds(s: State, out: seq<Packet>, arrived: seq<Packet>, x: Packet, was: nat,
                                         now: nat, p: Packet)
    requires Good(s, out, arrived) && Timely(s, was) && was <= now
    requires x.id == |arrived| && x.at == now && s.ssrc == Some(x.ssrc)
    ensures var (t, ready) := Flush(s, now);
            var (u, more) := SameSource(t, x, now);
            Held(u, out + ready + more, p) <==> (Held(s, out, p) || p == x) && !Lost(s, Some(x), now, p)
  {
    var (t, ready) := Flush(s, now);
    ArrivalIsNew(s, out, arrived, x);
    FlushKeeps(s, out, arrived, was, now);
    FlushFrame(s, now);
    FlushHolds(s, out, now, p);
    NotBoth(s, p);
    LostOfSource(s, x, now, p);
    if p == x {
      ArrivalHolds(t, out + ready, x, now);
    } else {
      SameSourceHolds(t, out + ready, x, now, p);
      if p in out + ready { NoneGivenUp(t, out + ready, arrived, x, p); }
    }
  }

  lemma {:induction false} NoneGivenUp(s: State, out: seq<Packet>, arrived: seq<Packet>, x: Packet, p: Packet)
    requires Once(s, out, arrived) && p in out
    ensures !exists why :: GivenUp(why, s, x, p)
  {}

  // ----- one event ------------------------------------------------------

  function Arrival(r: Run, e: Event): Option<Packet> {
    match e.heard
    case Rtp(ssrc, seqNo, media) => Some(Packet(|r.arrived|, e.now, ssrc, seqNo, media))
    case _ => None
  }

  predicate Kept(r: Run, p: Packet) { Held(r.s, r.out, p) }

  ghost predicate LostAt(r: Run, e: Event, p: Packet) { Lost(r.s, Arrival(r, e), e.now, p) }

  /** An event loses exactly what it has a reason to lose, and nothing lost comes back. */
  lemma {:induction false} StepHolds(r: Run, e: Event, p: Packet)
    requires Inv(r) && r.now <= e.now
    ensures Kept(Step(r, e), p) <==> (Kept(r, p) || Arrival(r, e) == Some(p)) && !LostAt(r, e, p)
  {
    var x := Arrival(r, e);
    if x == None || (r.s.ssrc != Some(x.value.ssrc) && x.value.ssrc in r.s.retired) {
      DeadlinesHold(r.s, r.out, r.arrived, x, e.now, p);
    } else if IsNew(r.s, x.value) {
      NewSourceHolds(r.s, r.out, r.arrived, x.value, e.now, p);
    } else {
      OfSourceHolds(r.s, r.out, r.arrived, x.value, r.now, e.now, p);
      var (t, ready) := Flush(r.s, e.now);
      Associate(r.out, ready, SameSource(t, x.value, e.now).1);
    }
  }

  lemma {:induction false} StepArrivals(r: Run, e: Event)
    ensures Step(r, e).arrived == if Arrival(r, e).Some? then r.arrived + [Arrival(r, e).value] else r.arrived
  {}

  lemma {:induction false} StepNow(r: Run, e: Event)
    ensures Step(r, e).now == e.now
  {}

  // ----- whole runs -----------------------------------------------------

  /** The run up to event `j`. */
  function RunAt(maxWait: nat, es: seq<Event>, j: nat): Run
    requires j <= |es|
  {
    Steps(Start(maxWait), es[..j])
  }

  lemma {:induction false} StepsSnoc(r: Run, es: seq<Event>, e: Event)
    ensures Steps(r, es + [e]) == Step(Steps(r, es), e)
    decreases |es|
  {
    if es == [] {
      assert es + [e] == [e] && [e][1..] == [];
    } else {
      assert (es + [e])[1..] == es[1..] + [e];
      StepsSnoc(Step(r, es[0]), es[1..], e);
    }
  }

  lemma {:induction false} ForwardSnoc(now: nat, es: seq<Event>, e: Event)
    requires Forward(now, es + [e])
    ensures Forward(now, es) && (es == [] ==> now <= e.now) && (es != [] ==> es[|es| - 1].now <= e.now)
    decreases |es|
  {
    if es != [] {
      assert (es + [e])[1..] == es[1..] + [e];
      ForwardSnoc(es[0].now, es[1..], e);
    }
  }

  lemma {:induction false} ForwardTake(now: nat, es: seq<Event>, j: nat)
    requires Forward(now, es) && j <= |es|
    ensures Forward(now, es[..j])
    decreases j
  {
    if j > 0 {
      assert es[..j][1..] == es[1..][..j - 1];
      ForwardTake(es[0].now, es[1..], j - 1);
    }
  }

  lemma {:induction false} StartInv(maxWait: nat)
    ensures Inv(Start(maxWait))
  {}

  lemma {:induction false} RunInv(maxWait: nat, es: seq<Event>)
    requires Forward(0, es)
    ensures Inv(Steps(Start(maxWait), es))
  {
    StartInv(maxWait);
    StepsKeep(Start(maxWait), es);
  }

  lemma {:induction false} TimeAt(es: seq<Event>, j: nat)
    requires Forward(0, es) && j < |es|
    ensures Forward(0, es[..j]) && (j > 0 ==> es[j - 1].now <= es[j].now)
  {
    ForwardTake(0, es, j);
    ForwardTake(0, es, j + 1);
    assert es[..j + 1] == es[..j] + [es[j]];
    ForwardSnoc(0, es[..j], es[j]);
  }

  lemma {:induction false} NextRun(maxWait: nat, es: seq<Event>, j: nat)
    requires j < |es|
    ensures RunAt(maxWait, es, j + 1) == Step(RunAt(maxWait, es, j), es[j])
  {
    assert es[..j + 1] == es[..j] + [es[j]];
    StepsSnoc(Start(maxWait), es[..j], es[j]);
  }

  lemma {:induction false} NowAt(maxWait: nat, es: seq<Event>, j: nat)
    requires 0 < j <= |es|
    ensures RunAt(maxWait, es, j).now == es[j - 1].now
  {
    NextRun(maxWait, es, j - 1);
    StepNow(RunAt(maxWait, es, j - 1), es[j - 1]);
  }

  /** What holds of a run before one of its events. */
  lemma {:induction false} Before(maxWait: nat, es: seq<Event>, j: nat)
    requires Forward(0, es) && j < |es|
    ensures Inv(RunAt(maxWait, es, j)) && RunAt(maxWait, es, j).now <= es[j].now
    ensures RunAt(maxWait, es, j + 1) == Step(RunAt(maxWait, es, j), es[j])
  {
    TimeAt(es, j);
    RunInv(maxWait, es[..j]);
    if j > 0 { NowAt(maxWait, es, j); }
    NextRun(maxWait, es, j);
  }

  lemma {:induction false} UnheardOf(r: Run, e: Event, p: Packet)
    requires Inv(r) && !Kept(r, p) && Arrival(r, e) != Some(p)
    ensures !LostAt(r, e, p)
  {
    var x := Arrival(r, e);
    FlushHolds(r.s, r.out, e.now, p);
    if x == None || (r.s.ssrc != Some(x.value.ssrc) && x.value.ssrc in r.s.retired) {
      LostToDeadlines(r.s, x, e.now, p);
    } else if IsNew(r.s, x.value) {
      LostToNewSource(r.s, x.value, e.now, p);
    } else {
      LostOfSource(r.s, x.value, e.now, p);
    }
  }

  predicate ArrivesAt(maxWait: nat, es: seq<Event>, j: nat, p: Packet)
    requires j < |es|
  {
    Arrival(RunAt(maxWait, es, j), es[j]) == Some(p)
  }

  /** The record grows by the arrival of the event. */
  lemma {:induction false} ArrivedNext(maxWait: nat, es: seq<Event>, j: nat)
    requires Forward(0, es) && j < |es|
    ensures var x, was := Arrival(RunAt(maxWait, es, j), es[j]), RunAt(maxWait, es, j).arrived;
            && RunAt(maxWait, es, j + 1).arrived == (if x.Some? then was + [x.value] else was)
            && (x.Some? ==> x.value.id == |was|)
  {
    Before(maxWait, es, j);
    StepArrivals(RunAt(maxWait, es, j), es[j]);
  }

  lemma {:induction false} ArrivedGrows(maxWait: nat, es: seq<Event>, i: nat, j: nat)
    requires Forward(0, es) && i <= j <= |es|
    ensures RunAt(maxWait, es, i).arrived <= RunAt(maxWait, es, j).arrived
    decreases j
  {
    if i < j {
      ArrivedGrows(maxWait, es, i, j - 1);
      ArrivedNext(maxWait, es, j - 1);
    }
  }

  /** Every packet in the record arrived at some event, */
  lemma {:induction false} FindArrival(maxWait: nat, es: seq<Event>, j: nat, p: Packet) returns (a: nat)
    requires Forward(0, es) && j <= |es| && Genuine(p, RunAt(maxWait, es, j).arrived)
    ensures a < j && ArrivesAt(maxWait, es, a, p)
    decreases j
  {
    ArrivedNext(maxWait, es, j - 1);
    if p.id < |RunAt(maxWait, es, j - 1).arrived| {
      a := FindArrival(maxWait, es, j - 1, p);
    } else {
      a := j - 1;
    }
  }

  /** ... and at no other. */
  lemma {:induction false} ArrivesOnce(maxWait: nat, es: seq<Event>, i: nat, j: nat, p: Packet)
    requires Forward(0, es) && i < j < |es| && ArrivesAt(maxWait, es, i, p)
    ensures !ArrivesAt(maxWait, es, j, p)
  {
    ArrivedNext(maxWait, es, i);
    ArrivedGrows(maxWait, es, i + 1, j);
  }

  lemma {:induction false} OneArrival(maxWait: nat, es: seq<Event>, a: nat, j: nat, p: Packet)
    requires Forward(0, es) && a < |es| && j < |es| && ArrivesAt(maxWait, es, a, p)
    ensures ArrivesAt(maxWait, es, j, p) <==> j == a
  {
    if j < a && ArrivesAt(maxWait, es, j, p) { ArrivesOnce(maxWait, es, j, a, p); }
    if a < j { ArrivesOnce(maxWait, es, a, j, p); }
  }

  /** Something that comes once, stays until it is lost, and is lost only while it is there, is there in the
      end if and only if it is never lost. */
  lemma {:induction false} Accounting(kept: nat -> bool, arrives: nat -> bool, lost: nat -> bool, a: nat, n: nat)
    requires a < n && !kept(0) && forall j | 0 <= j < n :: arrives(j) <==> j == a
    requires forall j | 0 <= j < n :: kept(j + 1) <==> (kept(j) || arrives(j)) && !lost(j)
    requires forall j | 0 <= j < n && lost(j) :: kept(j) || arrives(j)
    ensures kept(n) <==> forall j | 0 <= j < n :: !lost(j)
  {
    var m := 0;
    while m < n
      invariant m <= n && (m <= a ==> !kept(m) && forall j | 0 <= j < m :: !lost(j))
      invariant m > a ==> (kept(m) <==> forall j | 0 <= j < m :: !lost(j))
    {
      assert arrives(m) <==> m == a;
      m := m + 1;
    }
  }

  lemma {:induction false} EventHolds(maxWait: nat, es: seq<Event>, j: nat, p: Packet)
    requires Forward(0, es) && j < |es|
    ensures var r := RunAt(maxWait, es, j);
            && (Kept(RunAt(maxWait, es, j + 1), p) <==>
                  (Kept(r, p) || ArrivesAt(maxWait, es, j, p)) && !LostAt(r, es[j], p))
            && (LostAt(r, es[j], p) ==> Kept(r, p) || ArrivesAt(maxWait, es, j, p))
  {
    Before(maxWait, es, j);
    var r := RunAt(maxWait, es, j);
    StepHolds(r, es[j], p);
    if !Kept(r, p) && !ArrivesAt(maxWait, es, j, p) { UnheardOf(r, es[j], p); }
  }

  /** Over every run, every packet that arrived is accounted for: it is delivered, queued or on probation if
      and only if no event of the run had one of the named reasons to refuse it or give it up. */
  lemma {:induction false} EveryPacketIsAccountedFor(maxWait: nat, es: seq<Event>, p: Packet)
    requires Forward(0, es) && Genuine(p, Steps(Start(maxWait), es).arrived)
    ensures var r := Steps(Start(maxWait), es);
            p in r.out || QueuedIn(r.s, p) || OnProbation(r.s, p) <==>
              forall j | 0 <= j < |es| :: !LostAt(RunAt(maxWait, es, j), es[j], p)
  {
    assert es[..|es|] == es;
    var a := FindArrival(maxWait, es, |es|, p);
    var kept := (j: nat) => j <= |es| && Kept(RunAt(maxWait, es, j), p);
    var arrives := (j: nat) => j < |es| && ArrivesAt(maxWait, es, j, p);
    ghost var lost := (j: nat) => j < |es| && LostAt(RunAt(maxWait, es, j), es[j], p);
    forall j | 0 <= j < |es|
      ensures arrives(j) <==> j == a
      ensures kept(j + 1) <==> (kept(j) || arrives(j)) && !lost(j)
      ensures lost(j) ==> kept(j) || arrives(j)
    {
      EventHolds(maxWait, es, j, p);
      OneArrival(maxWait, es, a, j, p);
    }
    Accounting(kept, arrives, lost, a, |es|);
    assert forall j | 0 <= j < |es| :: lost(j) <==> LostAt(RunAt(maxWait, es, j), es[j], p);
  }

  // ----- nothing waits past its time ------------------------------------

  /** The event brings a new source, or confirms a restart. */
  predicate Resets(r: Run, e: Event) {
    var x := Arrival(r, e);
    x.Some? && (IsNew(r.s, x.value) || Confirms(Flush(r.s, e.now).0, x.value))
  }

  lemma {:induction false} StepQueue(r: Run, e: Event, p: Packet)
    requires Inv(r) && r.now <= e.now && (p in r.out || QueuedIn(r.s, p))
    ensures Resets(r, e) || p in Step(r, e).out || QueuedIn(Step(r, e).s, p)
  {
    if p !in r.out {
      var x := Arrival(r, e);
      if x.Some? {
        QueueLosesNothing(r.s, x.value, e.now, p.seqNo);
      } else {
        FlushLosesNothing(r.s, e.now, p.seqNo);
      }
    }
  }

  lemma {:induction false} QueueAt(maxWait: nat, es: seq<Event>, j: nat, k: nat, p: Packet)
    requires Forward(0, es) && j <= k <= |es| && QueuedIn(RunAt(maxWait, es, j).s, p)
    requires forall i | j <= i < k :: !Resets(RunAt(maxWait, es, i), es[i])
    ensures p in RunAt(maxWait, es, k).out || QueuedIn(RunAt(maxWait, es, k).s, p)
    decreases k
  {
    if k > j {
      QueueAt(maxWait, es, j, k - 1, p);
      Before(maxWait, es, k - 1);
      StepQueue(RunAt(maxWait, es, k - 1), es[k - 1], p);
    }
  }

  /** Over every run, a packet once queued is out by the first event at or after its arrival plus the
      allowed wait, unless a new source takes over or a restart is confirmed in between. */
  lemma {:induction false} NoPacketWaitsLonger(maxWait: nat, es: seq<Event>, j: nat, p: Packet)
    requires Forward(0, es) && j <= |es| && QueuedIn(RunAt(maxWait, es, j).s, p)
    requires forall i | j <= i < |es| :: !Resets(RunAt(maxWait, es, i), es[i])
    requires Steps(Start(maxWait), es).now >= p.at + maxWait
    ensures p in Steps(Start(maxWait), es).out
  {
    assert es[..|es|] == es;
    QueueAt(maxWait, es, j, |es|, p);
    EveryRunDeliversInOrder(maxWait, es);
  }
}
